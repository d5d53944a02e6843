/** Tool groups of Gemini bodies: what injecting into the first group does. */
module GeminiTools {
  import opened Json
  import opened Shaping
  import opened ShapingLists

  lemma {:induction false} DeclaredSomewhere(tools: seq<Json>, name: string)
    ensures HasTool(AllDeclarations(tools), name) <==> exists t <- tools :: HasTool(Declarations(t), name)
  {
    hide ToolName, Declarations, HasTool;
    if tools == [] {
      NoToolIn(name);
    } else {
      var init, t := tools[..|tools| - 1], tools[|tools| - 1];
      DeclaredSomewhere(init, name);
      HasToolOfSum(AllDeclarations(init), Declarations(t), name);
      assert tools == init + [t];
    }
  }

  lemma NoToolIn(name: string)
    ensures !HasTool([], name)
  {
  }

  /** The client's groups and other tools are all there; one group, the first, may have more declarations
      at its end, or, where there was none, a new one follows the client's tools. */
  ghost predicate GroupsKept(before: seq<Json>, after: seq<Json>, added: seq<Json>) {
    var i := FirstGroup(before);
    if added == [] then after == before
    else if i == |before| then
      && |after| == |before| + 1 && after[..|before|] == before
      && after[|before|] == Obj(map["functionDeclarations" := Arr(added)])
    else
      && |after| == |before|
      && (forall k :: 0 <= k < |before| && k != i ==> after[k] == before[k])
      && after[i] == Regroup(before[i], Declarations(before[i]) + added)
  }

  lemma RegroupDeclares(tool: Json, declarations: seq<Json>)
    ensures Declarations(Regroup(tool, declarations)) == declarations
  {
  }

  lemma KeptDeclares(before: seq<Json>, after: seq<Json>, added: seq<Json>, name: string)
    requires GroupsKept(before, after, added)
    ensures HasTool(AllDeclarations(after), name) <==> HasTool(AllDeclarations(before), name) || HasTool(added, name)
  {
    hide ToolName, IsGroup, Declarations, AllDeclarations, Regroup, HasTool;
    var i := FirstGroup(before);
    DeclaredSomewhere(before, name);
    DeclaredSomewhere(after, name);
    NoToolIn(name);
    if added != [] {
      if i == |before| {
        DeclaresNew(added);
        assert after == before + [after[|before|]];
      } else {
        RegroupDeclares(before[i], Declarations(before[i]) + added);
        HasToolOfSum(Declarations(before[i]), added, name);
        OneReplaced(before, after, i, t => HasTool(Declarations(t), name));
      }
    }
  }

  lemma DeclaresNew(added: seq<Json>)
    ensures Declarations(Obj(map["functionDeclarations" := Arr(added)])) == added
  {
  }

  lemma OneReplaced(before: seq<Json>, after: seq<Json>, i: nat, p: Json -> bool)
    requires i < |before| == |after| && (forall k :: 0 <= k < |before| && k != i ==> after[k] == before[k])
    requires p(before[i]) ==> p(after[i])
    ensures (exists t <- after :: p(t)) <==> (exists t <- before :: p(t)) || p(after[i])
  {
    if exists t <- before :: p(t) {
      var k :| 0 <= k < |before| && p(before[k]);
      assert after[k] in after;
    }
    if exists t <- after :: p(t) {
      var k :| 0 <= k < |after| && p(after[k]);
      if k != i { assert before[k] in before; }
    }
    assert after[i] in after;
  }

  lemma MissingIs(kit: Kit, names: seq<string>, tools: seq<Json>)
    ensures Missing(kit, names, tools) == Joined(AllDeclarations(tools), ToolEntries(kit, Gemini, names))
  {
    hide ToolName, ToolEntries, AllDeclarations, AddTools;
  }

  /** The tools of a Gemini body after the configured ones have been declared in it. */
  function ToolsAfter(kit: Kit, names: seq<string>, root: Object): seq<Json> {
    ItemsOr(Get(EnsureGeminiTools(kit, names, root).root, "tools"))
  }

  lemma GeminiKeeps(kit: Kit, names: seq<string>, root: Object)
    ensures var before := ItemsOr(Get(root, "tools"));
            GroupsKept(before, ToolsAfter(kit, names, root), Missing(kit, names, before))
  {
    hide Missing, Declarations, IsGroup, FirstGroup;
  }

  /** Every configured name is declared, each new declaration is under a new name, the client's groups are
      kept, and a second call finds nothing to add. */
  lemma GeminiOutcome(kit: Kit, names: seq<string>, root: Object)
    requires Names(names)
    ensures var before, after := ItemsOr(Get(root, "tools")), ToolsAfter(kit, names, root);
            var added := Missing(kit, names, before);
            && GroupsKept(before, after, added)
            && NewNames(AllDeclarations(before), added) && Subsequence(added, ToolEntries(kit, Gemini, names))
            && (forall name <- names :: HasTool(AllDeclarations(after), name))
            && Missing(kit, names, after) == []
  {
    hide ToolName, AllDeclarations, ToolEntries, Missing, GroupsKept, ToolsAfter, HasTool;
    var before, after := ItemsOr(Get(root, "tools")), ToolsAfter(kit, names, root);
    var entries := ToolEntries(kit, Gemini, names);
    var declared, added := AllDeclarations(before), Missing(kit, names, before);
    GeminiKeeps(kit, names, root);
    MissingIs(kit, names, before);
    MissingIs(kit, names, after);
    JoinedAreNew(declared, entries);
    EntriesSettle(kit, Gemini, names, declared);
    forall name
      ensures HasTool(AllDeclarations(after), name) <==> HasTool(AddTools(declared, entries), name)
    {
      KeptDeclares(before, after, added, name);
      HasToolOfSum(declared, added, name);
    }
    SameNamesSettle(AddTools(declared, entries), AllDeclarations(after), entries);
  }

  lemma SameNamesSettle(a: seq<Json>, b: seq<Json>, entries: seq<Json>)
    requires AddTools(a, entries) == a && forall name :: HasTool(a, name) <==> HasTool(b, name)
    ensures AddTools(b, entries) == b && Joined(b, entries) == []
  {
    hide ToolName;
    forall m | m in entries
      ensures HasTool(b, ToolName(m))
    {
      HasToolIn(entries, m);
      AddedArePresent(a, entries, ToolName(m));
    }
    NothingToAdd(b, entries);
  }
}
