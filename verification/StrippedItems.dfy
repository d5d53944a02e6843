/** Which items of an input go and which stay, by the types as clients write them. */
module StrippedItems {
  import opened Text
  import opened Json
  import opened Shaping
  import opened ShapingLists
  import opened ShapingTheorems
  import opened ShapedBodies

  function TypeOf(item: Json): string {
    TextOr(Get(FieldsOr(item), "type"))
  }

  lemma WireFormats(toFormat: string)
    ensures toFormat in {"codex", "openai-response"} ==> IsResponsesWire(toFormat)
    ensures toFormat in {"openai", "claude", "gemini"} ==> !IsResponsesWire(toFormat)
  {
    hide TrimSpace, Fold;
    if toFormat in {"codex", "openai-response", "openai", "claude", "gemini"} {
      FormatsAreWords(toFormat);
      WordIsItself(toFormat);
    }
  }

  lemma FormatsAreWords(toFormat: string)
    requires toFormat in {"codex", "openai-response", "openai", "claude", "gemini"}
    ensures IsWord(toFormat)
  {
  }

  /** The types of a Responses input. */
  const STAYING: set<string> := {"", "message", "function_call", "function_call_output"}

  lemma StrippedWords()
    ensures IsWord("reasoning") && IsWord("additional_tools")
  {
  }

  lemma StayingWords()
    ensures IsWord("message") && IsWord("function_call") && IsWord("function_call_output")
  {
  }

  lemma TypesAreWords(kind: string)
    requires kind in {"reasoning", "additional_tools"} + STAYING && kind != ""
    ensures IsWord(kind)
  {
    hide IsWord;
    StrippedWords();
    StayingWords();
  }

  lemma TypesRead(item: Json)
    ensures TypeOf(item) == "reasoning" ==> IsReasoning(item) && !IsAdditional(item)
    ensures TypeOf(item) == "additional_tools" ==> IsAdditional(item) && !IsReasoning(item)
    ensures TypeOf(item) in STAYING ==> !IsAdditional(item) && !IsReasoning(item)
  {
    hide TrimSpace, Fold;
    if TypeOf(item) == "" {
      TrimNothing();
      AsciiFolds("");
    } else if TypeOf(item) in {"reasoning", "additional_tools"} + STAYING {
      TypesAreWords(TypeOf(item));
      WordIsItself(TypeOf(item));
    }
  }

  lemma {:induction false} StayersAreKept(strips: Strips, items: seq<Json>, item: Json)
    requires item in items && !Goes(strips, item)
    ensures Kept(strips, item) in Stripped(strips, items)
  {
    hide Goes, Kept;
    var init, last := items[..|items| - 1], items[|items| - 1];
    StrippedLast(strips, items);
    if item != last {
      assert items == init + [last];
      StayersAreKept(strips, init, item);
    }
  }

  /** What upstream refuses goes, by its type, and takes its tools to the top level; items of the other
      types stay, less the encrypted keys.  On other wires `additional_tools` stays too. */
  lemma ItemsByType(kit: Kit, cfg: Config, source: string, toFormat: string, root: Object, item: Json)
    requires Names(cfg.tools) && "input" in root && root["input"].Arr? && item in root["input"].items
    ensures var kept := ItemsOr(Get(Shape(kit, cfg, source, toFormat, root).root, "input"));
            var bare := if cfg.stripReasoning && item.Obj? then
                          Obj(item.fields - {"encrypted_content", "reasoning_encrypted_content"}) else item;
            && (TypeOf(item) in {"", "message", "function_call", "function_call_output"} ==> bare in kept)
            && (TypeOf(item) == "reasoning" && !cfg.stripReasoning ==> item in kept)
            && (TypeOf(item) == "additional_tools" ==>
                  && (toFormat in {"openai", "claude", "gemini"} || !cfg.stripAdditionalTools ==> bare in kept))
  {
    hide Shape, IsReasoning, IsAdditional, IsResponsesWire, ToolsShaped, RestShaped, TypeOf, Stripped, TakeCap;
    Shaped(kit, cfg, source, toFormat, root);
    TypesRead(item);
    WireFormats(toFormat);
    var strips := StripsOf(cfg, toFormat);
    if !Goes(strips, item) {
      StayersAreKept(strips, root["input"].items, item);
    }
  }

  lemma NoneOfTheTypes(kit: Kit, cfg: Config, source: string, toFormat: string, root: Object)
    requires Names(cfg.tools) && "input" in root
    ensures forall item <- ItemsOr(Get(Shape(kit, cfg, source, toFormat, root).root, "input")) ::
              && (cfg.stripReasoning ==> TypeOf(item) != "reasoning")
              && (cfg.stripReasoning && item.Obj? ==>
                    "encrypted_content" !in item.fields && "reasoning_encrypted_content" !in item.fields)
              && (cfg.stripAdditionalTools && toFormat in {"codex", "openai-response"} ==>
                    TypeOf(item) != "additional_tools")
  {
    hide Shape, IsReasoning, IsAdditional, IsResponsesWire, TypeOf;
    ShapedMeetsTheGates(kit, cfg, source, toFormat, root);
    WireFormats(toFormat);
    forall item | item in ItemsOr(Get(Shape(kit, cfg, source, toFormat, root).root, "input"))
      ensures cfg.stripReasoning ==> TypeOf(item) != "reasoning"
      ensures cfg.stripAdditionalTools && toFormat in {"codex", "openai-response"} ==>
                TypeOf(item) != "additional_tools"
    {
      TypesRead(item);
    }
  }

  /** A function that such an item declares, under a name of its own, is declared at the top level. */
  lemma NestedAreDeclared(kit: Kit, cfg: Config, source: string, toFormat: string, root: Object, item: Json, tool: Json,
                          name: string)
    requires Names(cfg.tools) && cfg.stripAdditionalTools && toFormat in {"codex", "openai-response"}
    requires "input" in root && root["input"].Arr? && item in root["input"].items
    requires TypeOf(item) == "additional_tools" && tool in ItemsOr(Get(FieldsOr(item), "tools"))
    requires TypeOf(tool) == "function" && TextOr(Get(FieldsOr(tool), "name")) == name
    requires name != "" && TrimSpace(name) == name
    ensures exists t <- ItemsOr(Get(Shape(kit, cfg, source, toFormat, root).root, "tools")) :: ToolName(t) == name
  {
    hide Shape, IsReasoning, IsAdditional, IsResponsesWire, TypeOf, InputShaped, RestShaped, ToolEntries, AddTools,
         TrimSpace, ToolName, Promotable, HasTool;
    Shaped(kit, cfg, source, toFormat, root);
    TypesRead(item);
    WireFormats(toFormat);
    FunctionIsPromotable(tool, name);
    PromotedAreNested(root["input"].items, tool);
    var client, promoted := ItemsOr(Get(root, "tools")), Promoted(root["input"].items);
    HasToolIn(promoted, tool);
    AddedArePresent(client, promoted, name);
    AddedArePresent(AddTools(client, promoted), ToolEntries(kit, Responses, cfg.tools), name);
    HasToolIs(ItemsOr(Get(Shape(kit, cfg, source, toFormat, root).root, "tools")), name);
  }

  lemma HasToolIs(tools: seq<Json>, name: string)
    ensures HasTool(tools, name) <==> exists t <- tools :: ToolName(t) == name
  {
  }

  lemma FunctionIsPromotable(tool: Json, name: string)
    requires TypeOf(tool) == "function" && TextOr(Get(FieldsOr(tool), "name")) == name
    requires name != "" && TrimSpace(name) == name
    ensures Promotable(tool) && ToolName(tool) == name
  {
    hide TrimSpace, Fold;
    assert IsWord("function");
    WordIsItself("function");
  }

  /** Nothing but a named function leaves an item for the top level. */
  lemma OnlyFunctionsArePromoted(items: seq<Json>, tool: Json)
    requires tool in Promoted(items)
    ensures ToolName(tool) != "" && TypeOf(tool) != ""
    ensures IsWord(TypeOf(tool)) ==> TypeOf(tool) == "function"
  {
    hide TrimSpace, Fold, ToolName, IsWord, IsAdditional;
    PromotedAreNested(items, tool);
    TrimNothing();
    AsciiFolds("");
    if IsWord(TypeOf(tool)) {
      WordIsItself(TypeOf(tool));
    }
  }
}
