/** The request body as the Go helpers change it: a decoded JSON object rewritten in place. */
module Body {
  import opened Json
  import opened Shaping
  import Sequences

  class Body {
    var root: Object

    constructor (decoded: Object)
      ensures root == decoded
    {
      root := decoded;
    }

    method EnsureEnvironment(kit: Kit, source: string) returns (changed: bool)
      modifies this
      ensures Edit(changed, root) == Shaping.EnsureEnvironment(kit, old(root), source)
    {
      if "input" in root {
        var instructions := Get(root, "instructions");
        if HasEnvironment(instructions) || MessagesHaveEnvironment(root["input"]) {
          return false;
        }
        if !instructions.Null? && !instructions.Str? {
          return false;
        }
        root := root["instructions" := Str(AppendEnvironment(kit, TextOr(instructions)))];
        return true;
      }
      if source == "claude" {
        changed := AppendToSystem(kit);
      } else if source == "gemini" {
        changed := AppendToSystemInstruction(kit);
      } else {
        changed := AppendToMessages(kit);
      }
    }

    method AppendToSystem(kit: Kit) returns (changed: bool)
      modifies this
      ensures Edit(changed, root) == AddToSystem(kit, old(root))
    {
      var system := Get(root, "system");
      if HasEnvironment(system) {
        return false;
      }
      match system {
        case Null => root := root["system" := Str(Environment(kit))];
        case Str(text) => root := root["system" := Str(AppendEnvironment(kit, text))];
        case Arr(items) => root := root["system" := Arr(items + [TextBlock(kit)])];
        case _ => return false;
      }
      return true;
    }

    method AppendToSystemInstruction(kit: Kit) returns (changed: bool)
      modifies this
      ensures Edit(changed, root) == AddToSystemInstruction(kit, old(root))
    {
      var key := "systemInstruction";
      if key !in root {
        if "system_instruction" in root {
          key := "system_instruction";
        }
      }
      var system := FieldsOr(Get(root, key));
      if (!Get(root, key).Null? && !Get(root, key).Obj?) || HasEnvironment(Obj(system)) {
        return false;
      }
      var parts := ItemsOr(Get(system, "parts"));
      if !Get(system, "parts").Null? && !Get(system, "parts").Arr? {
        return false;
      }
      system := system["parts" := Arr(parts + [GeminiPart(kit)])];
      root := root[key := Obj(system)];
      return true;
    }

    method AppendToMessages(kit: Kit) returns (changed: bool)
      modifies this
      ensures Edit(changed, root) == AddToMessages(kit, old(root))
    {
      var value := Get(root, "messages");
      if MessagesHaveEnvironment(value) {
        return false;
      }
      if !value.Null? && !value.Arr? {
        return false;
      }
      var messages := ItemsOr(value);
      for i := 0 to |messages|
        invariant forall k :: 0 <= k < i ==> !IsSystem(messages[k])
      {
        var message := messages[i];
        if !IsSystem(message) {
          continue;
        }
        assert FirstSystem(messages) == i;
        var content := Get(message.fields, "content");
        match content {
          case Null => content := Str(Environment(kit));
          case Str(text) => content := Str(AppendEnvironment(kit, text));
          case Arr(items) => content := Arr(items + [TextBlock(kit)]);
          case _ => return false;
        }
        root := root["messages" := Arr(messages[i := WithContent(message, content)])];
        return true;
      }
      root := root["messages" := Arr([SystemMessage(kit)] + messages)];
      return true;
    }

    method EnsureTools(kit: Kit, protocol: Protocol, names: seq<string>) returns (changed: bool)
      requires Names(names)
      modifies this
      ensures Edit(changed, root) == Shaping.EnsureTools(kit, protocol, names, old(root))
    {
      var existing := ItemsOr(Get(root, "tools"));
      var present := NamesOf(existing);
      var missing := MissingTools(kit, protocol, names, existing, present);
      if missing == [] {
        Sequences.Unit(existing);
        return false;
      }
      root := root["tools" := Arr(existing + missing)];
      return true;
    }

    method EnsureGeminiTools(kit: Kit, names: seq<string>) returns (changed: bool)
      requires Names(names)
      modifies this
      ensures Edit(changed, root) == Shaping.EnsureGeminiTools(kit, names, old(root))
    {
      var tools := ItemsOr(Get(root, "tools"));
      var group, present := Groups(tools);
      var missing := MissingTools(kit, Gemini, names, AllDeclarations(tools), present);
      AddedTail(AllDeclarations(tools), missing);
      if missing == [] {
        return false;
      }
      if group == |tools| {
        tools := tools + [Regroup(Obj(map[]), missing)];
      } else {
        tools := tools[group := Regroup(tools[group], Declarations(tools[group]) + missing)];
      }
      root := root["tools" := Arr(tools)];
      return true;
    }

    method NormalizeMaxOutputTokens() returns (changed: bool)
      modifies this
      ensures Edit(changed, root) == NormalizeCaps(old(root))
    {
      changed := false;
      if "max_output_tokens" !in root {
        if Get(root, "max_completion_tokens").Num? {
          root := root["max_output_tokens" := root["max_completion_tokens"]];
          changed := true;
        } else if Get(root, "max_tokens").Num? {
          root := root["max_output_tokens" := root["max_tokens"]];
          changed := true;
        }
      }
      if "max_tokens" in root {
        root := root - {"max_tokens"};
        changed := true;
      }
      if "max_completion_tokens" in root {
        root := root - {"max_completion_tokens"};
        changed := true;
      }
      assert root == TakeCap(old(root)) - CAP_KEYS;
    }

    method StripReasoningItems() returns (changed: bool)
      modifies this
      ensures Edit(changed, root) == StripReasoning(old(root))
    {
      var input := Get(root, "input");
      if !input.Arr? {
        return false;
      }
      var keep;
      keep, changed := KeepReadable(input.items);
      if !changed {
        return false;
      }
      root := root["input" := Arr(keep)];
    }

    method StripAdditionalTools() returns (changed: bool)
      modifies this
      ensures Edit(changed, root) == StripAdditional(old(root))
    {
      var input := Get(root, "input");
      if !input.Arr? {
        return false;
      }
      var keep, promoted := SplitAdditional(input.items);
      if |keep| == |input.items| {
        return false;
      }
      var existing := Promote(ItemsOr(Get(root, "tools")), promoted);
      root := root["input" := Arr(keep)];
      if |existing| > 0 {
        root := root["tools" := Arr(existing)];
      }
      return true;
    }

    /** The part for Responses bodies, up to the tools. */
    method Clean(cfg: Config, toFormat: string) returns (changed: bool)
      modifies this
      ensures Edit(changed, root) == Hygiene(cfg, toFormat, old(root))
    {
      changed := false;
      if Get(root, "store") != Bool(false) {
        root := root["store" := Bool(false)];
        changed := true;
      }
      var normalized := NormalizeMaxOutputTokens();
      changed := changed || normalized;
      if cfg.stripReasoning {
        var stripped := StripReasoningItems();
        changed := changed || stripped;
      }
      if IsResponsesWire(toFormat) && cfg.stripAdditionalTools {
        var stripped := StripAdditionalTools();
        changed := changed || stripped;
      }
    }

    method Stream() returns (changed: bool)
      modifies this
      ensures Edit(changed, root) == ForceStream(old(root))
    {
      if Get(root, "stream") == Bool(true) {
        return false;
      }
      root := root["stream" := Bool(true)];
      return true;
    }

    method Open(kit: Kit, cfg: Config, source: string) returns (changed: bool)
      modifies this
      ensures Edit(changed, root) == Opening(kit, cfg, source, old(root))
    {
      hide Shaping.EnsureEnvironment, ForceStream;
      changed := EnsureEnvironment(kit, source);
      if source != "gemini" && cfg.forceStream {
        var forced := Stream();
        changed := changed || forced;
      }
    }

    /** The whole rewriting of a decoded body. */
    method Apply(kit: Kit, cfg: Config, source: string, toFormat: string) returns (changed: bool)
      requires Names(cfg.tools)
      modifies this
      ensures Edit(changed, root) == Shape(kit, cfg, source, toFormat, old(root))
    {
      hide Opening, Hygiene, Shaping.EnsureTools, Shaping.EnsureGeminiTools;
      changed := Open(kit, cfg, source);
      var added;
      if "input" in root {
        var cleaned := Clean(cfg, toFormat);
        changed := changed || cleaned;
        added := EnsureTools(kit, Responses, cfg.tools);
      } else if source == "claude" {
        added := EnsureTools(kit, Claude, cfg.tools);
      } else if source == "gemini" {
        added := EnsureGeminiTools(kit, cfg.tools);
      } else {
        added := EnsureTools(kit, Chat, cfg.tools);
      }
      changed := changed || added;
    }
  }

  /** `present` holds exactly the names of the tools that have one. */
  ghost predicate Covers(present: set<string>, tools: seq<Json>) {
    forall name | name != "" :: name in present <==> HasTool(tools, name)
  }

  method NamesOf(tools: seq<Json>) returns (present: set<string>)
    ensures Covers(present, tools)
  {
    present := {};
    for i := 0 to |tools|
      invariant Covers(present, tools[..i])
    {
      HasToolGrows(tools[..i], tools[i]);
      Sequences.TakeSnoc(tools, i);
      if ToolName(tools[i]) != "" {
        present := present + {ToolName(tools[i])};
      }
    }
    Sequences.Ends(tools);
  }

  lemma CoversBoth(a: set<string>, b: set<string>, x: seq<Json>, y: seq<Json>)
    requires Covers(a, x) && Covers(b, y)
    ensures Covers(a + b, x + y)
  {
    forall name | name != ""
      ensures name in a + b <==> HasTool(x + y, name)
    {
      if HasTool(x, name) {
        var t :| t in x && ToolName(t) == name;
        assert t in x + y;
      }
      if HasTool(y, name) {
        var t :| t in y && ToolName(t) == name;
        assert t in x + y;
      }
    }
  }

  lemma AddToolsNext(tools: seq<Json>, more: seq<Json>, i: nat)
    requires i < |more|
    ensures AddTools(tools, more[..i + 1]) == AddTool(AddTools(tools, more[..i]), more[i])
  {
    Sequences.TakeSnoc(more, i);
    Sequences.DropLast(more[..i], more[i]);
  }

  /** The tools to inject: `present` is kept up to date, so that a name is injected once. */
  method MissingTools(kit: Kit, protocol: Protocol, names: seq<string>, ghost tools: seq<Json>, given: set<string>)
    returns (missing: seq<Json>)
    requires Names(names) && Covers(given, tools)
    ensures tools + missing == AddTools(tools, ToolEntries(kit, protocol, names))
  {
    var present := given;
    ghost var entries := ToolEntries(kit, protocol, names);
    missing := [];
    Sequences.Unit(tools);
    for i := 0 to |names|
      invariant tools + missing == AddTools(tools, entries[..i])
      invariant Covers(present, tools + missing)
    {
      var name := names[i];
      var tool := ToolEntry(kit, protocol, name);
      EntryNamed(kit, protocol, names, i);
      AddToolsNext(tools, entries, i);
      if name !in present {
        HasToolGrows(tools + missing, tool);
        Sequences.Assoc(tools, missing, [tool]);
        missing := missing + [tool];
        present := present + {name};
      }
    }
    Sequences.Ends(entries);
  }

  lemma EntryNamed(kit: Kit, protocol: Protocol, names: seq<string>, i: nat)
    requires Names(names) && i < |names|
    ensures names[i] != "" && ToolName(ToolEntry(kit, protocol, names[i])) == names[i]
  {
    assert names[i] in names;
    ToolEntryName(kit, protocol, names[i]);
  }

  lemma AddedTail(tools: seq<Json>, missing: seq<Json>)
    ensures (tools + missing)[|tools|..] == missing
  {
  }

  lemma DeclarationsNext(tools: seq<Json>, i: nat)
    requires i < |tools|
    ensures AllDeclarations(tools[..i + 1]) == AllDeclarations(tools[..i]) + Declarations(tools[i])
    ensures !IsGroup(tools[i]) ==> Declarations(tools[i]) == []
  {
    hide IsGroup;
    Sequences.TakeSnoc(tools, i);
    Sequences.DropLast(tools[..i], tools[i]);
  }

  lemma FirstGroupIs(tools: seq<Json>, i: nat)
    requires i <= |tools| && forall k :: 0 <= k < i ==> !IsGroup(tools[k])
    requires i < |tools| ==> IsGroup(tools[i])
    ensures FirstGroup(tools) == i
  {
    hide IsGroup;
  }

  lemma NothingCovered()
    ensures Covers({}, AllDeclarations([]))
  {
  }

  /** The scan for groups: the first one, and every declared name. */
  method Groups(tools: seq<Json>) returns (group: nat, present: set<string>)
    ensures group == FirstGroup(tools) && Covers(present, AllDeclarations(tools))
  {
    hide ToolName, HasTool, IsGroup, Declarations, AllDeclarations, Covers;
    present := {};
    group := |tools|;
    NothingCovered();
    for i := 0 to |tools|
      invariant group == |tools| ==> forall k :: 0 <= k < i ==> !IsGroup(tools[k])
      invariant group < |tools| ==> group < i && group == FirstGroup(tools)
      invariant group <= |tools|
      invariant Covers(present, AllDeclarations(tools[..i]))
    {
      var tool := tools[i];
      DeclarationsNext(tools, i);
      if !IsGroup(tool) {
        Sequences.Unit(AllDeclarations(tools[..i]));
        continue;
      }
      if group == |tools| {
        group := i;
        FirstGroupIs(tools, i);
      }
      var more := NamesOf(Declarations(tool));
      CoversBoth(present, more, AllDeclarations(tools[..i]), Declarations(tool));
      present := present + more;
    }
    if group == |tools| {
      FirstGroupIs(tools, group);
    }
    Sequences.Ends(tools);
  }

  /** The loop of `stripReasoningItems`. */
  method KeepReadable(items: seq<Json>) returns (keep: seq<Json>, changed: bool)
    ensures keep == WithoutReasoning(items) && (changed <==> HasReasoning(items))
  {
    hide IsItemType;
    keep, changed := [], false;
    for i := 0 to |items|
      invariant keep == WithoutReasoning(items[..i])
      invariant changed <==> HasReasoning(items[..i])
    {
      var item := items[i];
      ReasoningNext(items, i);
      if IsReasoning(item) {
        changed := true;
        continue;
      }
      if HasEncrypted(item) {
        changed := true;
      }
      keep := keep + [Decrypted(item)];
    }
    Sequences.Ends(items);
  }

  lemma ReasoningNext(items: seq<Json>, i: nat)
    requires i < |items|
    ensures WithoutReasoning(items[..i + 1]) ==
            if IsReasoning(items[i]) then WithoutReasoning(items[..i])
            else WithoutReasoning(items[..i]) + [Decrypted(items[i])]
    ensures HasReasoning(items[..i + 1]) <==>
            HasReasoning(items[..i]) || IsReasoning(items[i]) || HasEncrypted(items[i])
  {
    var before := items[..i];
    Sequences.TakeSnoc(items, i);
    Sequences.DropLast(before, items[i]);
    Sequences.Unit(WithoutReasoning(before));
    if HasReasoning(before) {
      var x :| x in before && (IsReasoning(x) || HasEncrypted(x));
      assert x in items[..i + 1];
    }
    assert items[i] in items[..i + 1];
  }

  /** The first loop of `stripAdditionalTools`. */
  method SplitAdditional(items: seq<Json>) returns (keep: seq<Json>, promoted: seq<Json>)
    ensures keep == WithoutAdditional(items) && promoted == Promoted(items)
  {
    keep, promoted := [], [];
    for i := 0 to |items|
      invariant keep == WithoutAdditional(items[..i])
      invariant promoted == Promoted(items[..i])
    {
      var item := items[i];
      Sequences.TakeSnoc(items, i);
      Sequences.DropLast(items[..i], item);
      if !IsAdditional(item) {
        Sequences.Unit(promoted);
        keep := keep + [item];
        continue;
      }
      Sequences.Unit(keep);
      var more := PromotableTools(NestedTools(item));
      promoted := promoted + more;
    }
    Sequences.Ends(items);
  }

  method PromotableTools(nested: seq<Json>) returns (promoted: seq<Json>)
    ensures promoted == PromotableOf(nested)
  {
    promoted := [];
    for i := 0 to |nested|
      invariant promoted == PromotableOf(nested[..i])
    {
      Sequences.TakeSnoc(nested, i);
      Sequences.DropLast(nested[..i], nested[i]);
      if IsItemType(nested[i], "function") && ToolName(nested[i]) != "" {
        promoted := promoted + [nested[i]];
      } else {
        Sequences.Unit(promoted);
      }
    }
    Sequences.Ends(nested);
  }

  /** Here an existing tool without a name blocks the empty name too, which no promoted tool has. */
  method Promote(given: seq<Json>, promoted: seq<Json>) returns (existing: seq<Json>)
    ensures existing == AddTools(given, promoted)
  {
    var present: set<string> := {};
    for i := 0 to |given|
      invariant forall name :: name in present <==> HasTool(given[..i], name)
    {
      HasToolGrows(given[..i], given[i]);
      Sequences.TakeSnoc(given, i);
      present := present + {ToolName(given[i])};
    }
    Sequences.Ends(given);
    existing := given;
    for i := 0 to |promoted|
      invariant existing == AddTools(given, promoted[..i])
      invariant forall name :: name in present <==> HasTool(existing, name)
    {
      var tool := promoted[i];
      var name := ToolName(tool);
      AddToolsNext(given, promoted, i);
      if name in present {
        continue;
      }
      HasToolGrows(existing, tool);
      existing := existing + [tool];
      present := present + {name};
    }
    Sequences.Ends(promoted);
  }
}
