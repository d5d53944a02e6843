/** How the configured tools are written into a body, protocol by protocol, and when they are not. */
module InjectedTools {
  import opened Text
  import opened Json
  import opened Shaping
  import opened ShapingLists
  import opened GeminiTools
  import opened ShapingTheorems
  import opened ShapedBodies
  import Sequences

  // ----- reading tool names -----

  /** The name of a tool: its own, or that of its function when it has none but blanks. */
  lemma ToolNameReads(fields: Object)
    ensures var own, nested := Get(fields, "name"), Get(FieldsOr(Get(fields, "function")), "name");
            ToolName(Obj(fields)) ==
            if own.Str? && TrimSpace(own.text) != "" then TrimSpace(own.text)
            else if nested.Str? then TrimSpace(nested.text)
            else ""
  {
    hide TrimSpace;
    TrimNothing();
  }

  /** Read off the fields: a tool of the Chat shape or of the flat shapes declares this name. */
  predicate Declares(tool: Json, name: string) {
    && tool.Obj?
    && (|| Get(tool.fields, "name") == Str(name)
        || ("name" !in tool.fields && Get(FieldsOr(Get(tool.fields, "function")), "name") == Str(name)))
  }

  lemma DeclaresItsName(tool: Json, name: string)
    requires Declares(tool, name) && name != "" && TrimSpace(name) == name
    ensures ToolName(tool) == name
  {
    hide TrimSpace;
    ToolNameReads(tool.fields);
  }

  // ----- tools that join -----

  /** A tool that asks to join under a name of its own, and new to the list, joins. */
  lemma {:induction false} NewcomerJoins(tools: seq<Json>, more: seq<Json>, tool: Json)
    requires tool in more && !HasTool(tools, ToolName(tool))
    requires forall m <- more :: ToolName(m) == ToolName(tool) ==> m == tool
    ensures tool in AddTools(tools, more)
  {
    hide ToolName;
    var init, last := more[..|more| - 1], more[|more| - 1];
    assert more == init + [last];
    if tool in init {
      NewcomerJoins(tools, init, tool);
    } else {
      AddedArePresent(tools, init, ToolName(tool));
      assert !HasTool(init, ToolName(tool));
    }
  }

  lemma EntryJoins(kit: Kit, protocol: Protocol, names: seq<string>, tools: seq<Json>, name: string)
    requires Names(names) && name in names && !HasTool(tools, name)
    ensures ToolEntry(kit, protocol, name) in AddTools(tools, ToolEntries(kit, protocol, names))
  {
    hide ToolName, ToolEntry, AddTools;
    var entries := ToolEntries(kit, protocol, names);
    ToolEntryName(kit, protocol, name);
    forall m | m in entries && ToolName(m) == name
      ensures m == ToolEntry(kit, protocol, name)
    {
      var i :| 0 <= i < |entries| && entries[i] == m;
      assert names[i] in names;
      ToolEntryName(kit, protocol, names[i]);
    }
    var k :| 0 <= k < |names| && names[k] == name;
    assert entries[k] in entries;
    NewcomerJoins(tools, entries, ToolEntry(kit, protocol, name));
  }

  // ----- the shapes -----

  /** What the three shapes but Claude's hold of a tool. */
  function Described(kit: Kit, name: string): Object {
    map["name" := Str(name), "description" := Str(kit.description), "parameters" := kit.schema(name)]
  }

  lemma EntryIsWritten(kit: Kit, name: string)
    ensures ToolEntry(kit, Chat, name) == Obj(map["type" := Str("function"), "function" := Obj(Described(kit, name))])
    ensures ToolEntry(kit, Responses, name) == Obj(Described(kit, name)["type" := Str("function")])
    ensures ToolEntry(kit, Claude, name) ==
            Obj(map["name" := Str(name), "description" := Str(kit.description), "input_schema" := kit.schema(name)])
    ensures ToolEntry(kit, Gemini, name) == Obj(Described(kit, name))
  {
  }

  lemma DeclarationJoins(kit: Kit, names: seq<string>, before: seq<Json>, after: seq<Json>, name: string)
    requires Names(names) && name in names && !HasTool(AllDeclarations(before), name)
    requires GroupsKept(before, after, Missing(kit, names, before))
    ensures exists group <- after ::
              group.Obj? && ToolEntry(kit, Gemini, name) in ItemsOr(Get(group.fields, "functionDeclarations"))
  {
    hide ToolName, ToolEntry, HasTool, ToolEntries, AllDeclarations, AddTools, Declarations, IsGroup, FirstGroup;
    var added, i, entry := Missing(kit, names, before), FirstGroup(before), ToolEntry(kit, Gemini, name);
    EntryJoins(kit, Gemini, names, AllDeclarations(before), name);
    MissingIs(kit, names, before);
    JoinedOnTop(AllDeclarations(before), ToolEntries(kit, Gemini, names));
    NotYetThere(kit, AllDeclarations(before), name);
    assert entry in added;
    assert after[i] in after;
  }

  lemma NotYetThere(kit: Kit, tools: seq<Json>, name: string)
    requires !HasTool(tools, name) && name != "" && TrimSpace(name) == name
    ensures ToolEntry(kit, Gemini, name) !in tools
  {
    hide ToolName, ToolEntry, TrimSpace;
    ToolEntryName(kit, Gemini, name);
  }

  /** Every configured tool that the client did not declare is there in the shape that the translation of
      its protocol reads: nested for Chat, flat for Responses, with `input_schema` for Claude, and in a
      group for Gemini. */
  lemma InjectedAreWritten(kit: Kit, cfg: Config, source: string, toFormat: string, root: Object, name: string)
    requires Names(cfg.tools) && name in cfg.tools
    ensures var client, base := ItemsOr(Get(root, "tools")), ToolBase(cfg, toFormat, root);
            var tools := ItemsOr(Get(Shape(kit, cfg, source, toFormat, root).root, "tools"));
            if "input" in root then
              HasTool(base, name) || Obj(Described(kit, name)["type" := Str("function")]) in tools
            else if source == "claude" then
              || HasTool(client, name)
              || Obj(map["name" := Str(name), "description" := Str(kit.description),
                         "input_schema" := kit.schema(name)]) in tools
            else if source == "gemini" then
              || HasTool(AllDeclarations(client), name)
              || exists group <- tools ::
                   group.Obj? && Obj(Described(kit, name)) in ItemsOr(Get(group.fields, "functionDeclarations"))
            else
              || HasTool(client, name)
              || Obj(map["type" := Str("function"), "function" := Obj(Described(kit, name))]) in tools
  {
    hide Shape, ToolEntry, ToolEntries, HasTool, AddTools, AllDeclarations, Missing, GroupsKept, InputShaped,
         RestShaped, Described, PromotedTools;
    var base := ToolBase(cfg, toFormat, root);
    Shaped(kit, cfg, source, toFormat, root);
    EntryIsWritten(kit, name);
    var protocol := ProtocolOf(root, source);
    if protocol.Gemini? {
      if !HasTool(AllDeclarations(base), name) {
        var after := ItemsOr(Get(Shape(kit, cfg, source, toFormat, root).root, "tools"));
        DeclarationJoins(kit, cfg.tools, base, after, name);
      }
    } else if !HasTool(base, name) {
      EntryJoins(kit, protocol, cfg.tools, base, name);
    }
  }

  lemma NewNamesAreOthers(client: seq<Json>, added: seq<Json>, name: string)
    requires NewNames(client, added) && name != "" && TrimSpace(name) == name
    requires exists tool <- client :: Declares(tool, name)
    ensures forall tool <- added :: !Declares(tool, name)
  {
    hide ToolName, Declares, TrimSpace;
    var own :| own in client && Declares(own, name);
    DeclaresItsName(own, name);
    forall tool | tool in added
      ensures !Declares(tool, name)
    {
      assert !HasTool(client, ToolName(tool));
      if Declares(tool, name) {
        DeclaresItsName(tool, name);
      }
    }
  }

  /** A name that the client declares itself, in either shape, is not injected, nor promoted, again. */
  lemma DeclaredIsLeftAlone(kit: Kit, cfg: Config, source: string, toFormat: string, root: Object, name: string)
    requires Names(cfg.tools) && name in cfg.tools && ("input" in root || source != "gemini")
    requires exists tool <- ItemsOr(Get(root, "tools")) :: Declares(tool, name)
    ensures var client := ItemsOr(Get(root, "tools"));
            var after := ItemsOr(Get(Shape(kit, cfg, source, toFormat, root).root, "tools"));
            client <= after && forall tool <- after[|client|..] :: !Declares(tool, name)
  {
    hide Shape, ToolEntries, Joined, PromotedTools, StripsOf, Declares, Subsequence, NewNames;
    var client := ItemsOr(Get(root, "tools"));
    var offered := if "input" in root then PromotedTools(StripsOf(cfg, toFormat), root["input"]) else [];
    var promoted := Joined(client, offered);
    var injected := Joined(client + promoted, ToolEntries(kit, ProtocolOf(root, source), cfg.tools));
    ToolsAreConserved(kit, cfg, source, toFormat, root);
    NewNamesAreOthers(client, promoted + injected, name);
    Sequences.Assoc(client, promoted, injected);
  }
}
