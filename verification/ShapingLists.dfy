/** What the rewriting does to lists: tools that join, input items that go. */
module ShapingLists {
  import opened Text
  import opened Json
  import opened Shaping
  import Sequences

  // ----- tools that join a list -----

  /** `sub` is what is left of `whole` when some elements go. */
  ghost predicate Subsequence<T>(sub: seq<T>, whole: seq<T>) {
    || sub == []
    || (whole != [] && Subsequence(sub, whole[..|whole| - 1]))
    || (whole != [] && sub[|sub| - 1] == whole[|whole| - 1] && Subsequence(sub[..|sub| - 1], whole[..|whole| - 1]))
  }

  /** No two tools share a name, and none has a name of `tools`. */
  ghost predicate NewNames(tools: seq<Json>, added: seq<Json>) {
    && (forall i, j :: 0 <= i < j < |added| ==> ToolName(added[i]) != ToolName(added[j]))
    && (forall i :: 0 <= i < |added| ==> !HasTool(tools, ToolName(added[i])))
  }

  function Joined(tools: seq<Json>, more: seq<Json>): seq<Json> {
    if |tools| <= |AddTools(tools, more)| then AddTools(tools, more)[|tools|..] else []
  }

  lemma JoinedOnTop(tools: seq<Json>, more: seq<Json>)
    ensures AddTools(tools, more) == tools + Joined(tools, more)
  {
    AddToolsExtends(tools, more);
  }

  lemma HasToolIn(tools: seq<Json>, tool: Json)
    requires tool in tools
    ensures HasTool(tools, ToolName(tool))
  {
  }

  lemma HasToolOfSum(a: seq<Json>, b: seq<Json>, name: string)
    ensures HasTool(a + b, name) <==> HasTool(a, name) || HasTool(b, name)
  {
    if HasTool(a, name) {
      var t :| t in a && ToolName(t) == name;
      assert t in a + b;
    }
    if HasTool(b, name) {
      var t :| t in b && ToolName(t) == name;
      assert t in a + b;
    }
  }

  lemma NewNamesGrow(tools: seq<Json>, added: seq<Json>, tool: Json)
    requires NewNames(tools, added) && !HasTool(tools + added, ToolName(tool))
    ensures NewNames(tools, added + [tool])
  {
    hide ToolName;
    HasToolOfSum(tools, added, ToolName(tool));
    forall i | 0 <= i < |added|
      ensures ToolName(added[i]) != ToolName(tool)
    {
      HasToolIn(added, added[i]);
    }
  }

  /** What joins a list is, in order, some of the tools that ask to, under names that are new to the list
      and to each other. */
  lemma {:induction false} JoinedAreNew(tools: seq<Json>, more: seq<Json>)
    ensures AddTools(tools, more) == tools + Joined(tools, more)
    ensures Subsequence(Joined(tools, more), more) && NewNames(tools, Joined(tools, more))
  {
    hide ToolName;
    JoinedOnTop(tools, more);
    if more != [] {
      var init, tool := more[..|more| - 1], more[|more| - 1];
      JoinedAreNew(tools, init);
      var before := Joined(tools, init);
      if !HasTool(tools + before, ToolName(tool)) {
        NewNamesGrow(tools, before, tool);
        Sequences.Assoc(tools, before, [tool]);
        Sequences.DropLast(before, tool);
        assert Joined(tools, more) == before + [tool];
      } else {
        assert Joined(tools, more) == before;
      }
    }
  }

  /** Every name that is asked for is there afterwards, with those that were there. */
  lemma {:induction false} AddedArePresent(tools: seq<Json>, more: seq<Json>, name: string)
    ensures HasTool(AddTools(tools, more), name) <==> HasTool(tools, name) || HasTool(more, name)
  {
    hide ToolName;
    if more != [] {
      var init, tool := more[..|more| - 1], more[|more| - 1];
      AddedArePresent(tools, init, name);
      HasToolGrows(init, tool);
      HasToolGrows(AddTools(tools, init), tool);
      assert more == init + [tool];
    }
  }

  /** So nothing joins a second time. */
  lemma {:induction false} NothingToAdd(tools: seq<Json>, more: seq<Json>)
    requires forall m <- more :: HasTool(tools, ToolName(m))
    ensures AddTools(tools, more) == tools
  {
    hide ToolName;
    if more != [] {
      NothingToAdd(tools, more[..|more| - 1]);
    }
  }

  lemma EntriesAreNamed(kit: Kit, protocol: Protocol, names: seq<string>, name: string)
    requires Names(names)
    ensures HasTool(ToolEntries(kit, protocol, names), name) <==> name in names
  {
    hide ToolName, ToolEntry;
    var entries := ToolEntries(kit, protocol, names);
    forall i | 0 <= i < |names|
      ensures ToolName(entries[i]) == names[i] && entries[i] in entries
    {
      assert names[i] in names;
      ToolEntryName(kit, protocol, names[i]);
    }
    if name in names {
      var i :| 0 <= i < |names| && names[i] == name;
      HasToolIn(entries, entries[i]);
    }
  }

  /** After the configured tools have joined, all of them are there, and joining again adds none. */
  lemma EntriesSettle(kit: Kit, protocol: Protocol, names: seq<string>, tools: seq<Json>)
    requires Names(names)
    ensures var all := AddTools(tools, ToolEntries(kit, protocol, names));
            && (forall name <- names :: HasTool(all, name))
            && AddTools(all, ToolEntries(kit, protocol, names)) == all
  {
    hide ToolName, ToolEntries;
    var entries := ToolEntries(kit, protocol, names);
    var all := AddTools(tools, entries);
    forall name | name in names
      ensures HasTool(all, name)
    {
      EntriesAreNamed(kit, protocol, names, name);
      AddedArePresent(tools, entries, name);
    }
    forall m | m in entries
      ensures HasTool(all, ToolName(m))
    {
      HasToolIn(entries, m);
      AddedArePresent(tools, entries, ToolName(m));
    }
    NothingToAdd(all, entries);
  }

  // ----- input items that go -----

  /** Which of the two strips are on: for reasoning, for additional tools. */
  datatype Strips = Strips(reasoning: bool, additional: bool)

  predicate Goes(strips: Strips, item: Json) {
    (strips.reasoning && IsReasoning(item)) || (strips.additional && IsAdditional(item))
  }

  /** A kept item, which loses only its encrypted payload. */
  function Kept(strips: Strips, item: Json): Json {
    if strips.reasoning then Decrypted(item) else item
  }

  function Stripped(strips: Strips, items: seq<Json>): seq<Json> {
    if items == [] then []
    else
      Stripped(strips, items[..|items| - 1]) +
      if Goes(strips, items[|items| - 1]) then [] else [Kept(strips, items[|items| - 1])]
  }

  lemma StrippedLast(strips: Strips, items: seq<Json>)
    requires items != []
    ensures var init, item := items[..|items| - 1], items[|items| - 1];
            Stripped(strips, items) ==
            if Goes(strips, item) then Stripped(strips, init) else Stripped(strips, init) + [Kept(strips, item)]
  {
    hide Goes, Kept;
    Sequences.Unit(Stripped(strips, items[..|items| - 1]));
  }

  /** `kept` is the items at the ascending places `at`, and only items that are stripped lack a place. */
  ghost predicate KeptAt(strips: Strips, items: seq<Json>, kept: seq<Json>, at: seq<nat>) {
    && |at| == |kept|
    && (forall k :: 0 <= k < |at| ==> at[k] < |items| && kept[k] == Kept(strips, items[at[k]]))
    && (forall j, k :: 0 <= j < k < |at| ==> at[j] < at[k])
    && (forall i :: 0 <= i < |items| && i !in at ==> Goes(strips, items[i]))
  }

  lemma KeepOneMore(strips: Strips, items: seq<Json>, kept: seq<Json>, at: seq<nat>, item: Json)
    requires KeptAt(strips, items, kept, at)
    ensures Goes(strips, item) ==> KeptAt(strips, items + [item], kept, at)
    ensures !Goes(strips, item) ==> KeptAt(strips, items + [item], kept + [Kept(strips, item)], at + [|items|])
  {
    hide Goes, Kept;
    if !Goes(strips, item) {
      var more := at + [|items|];
      forall i | 0 <= i < |items| + 1 && i !in more
        ensures i < |items| && i !in at
      {
        assert more[|at|] == |items|;
      }
    }
  }

  lemma NothingIsKeptAt(strips: Strips)
    ensures KeptAt(strips, [], Stripped(strips, []), [])
  {
  }

  /** Kept input is an in-order subsequence of the client's, less the encrypted keys; nothing goes that
      is not for a strip to take. */
  lemma {:induction false} InputIsThinned(strips: Strips, items: seq<Json>)
    ensures exists at: seq<nat> :: KeptAt(strips, items, Stripped(strips, items), at)
  {
    hide Goes, Kept, KeptAt;
    if items == [] {
      NothingIsKeptAt(strips);
    } else {
      var init, item := items[..|items| - 1], items[|items| - 1];
      InputIsThinned(strips, init);
      var kept := Stripped(strips, init);
      var at: seq<nat> :| KeptAt(strips, init, kept, at);
      KeepOneMore(strips, init, kept, at, item);
      assert items == init + [item];
      StrippedLast(strips, items);
      var longer := if Goes(strips, item) then at else at + [|init|];
      assert KeptAt(strips, items, Stripped(strips, items), longer);
    }
  }

  /** A kept item keeps its type, role and content. */
  lemma KeptReadsTheSame(strips: Strips, item: Json)
    ensures Kept(strips, item).Obj? <==> item.Obj?
    ensures forall key :: key !in ENCRYPTED_KEYS ==> Get(FieldsOr(Kept(strips, item)), key) == Get(FieldsOr(item), key)
  {
  }

  lemma ItemKeysAreNotEncrypted()
    ensures "type" !in ENCRYPTED_KEYS && "role" !in ENCRYPTED_KEYS
    ensures "content" !in ENCRYPTED_KEYS && "tools" !in ENCRYPTED_KEYS
  {
  }

  lemma KeptKeepsItsType(strips: Strips, item: Json)
    ensures IsReasoning(Kept(strips, item)) <==> IsReasoning(item)
    ensures IsAdditional(Kept(strips, item)) <==> IsAdditional(item)
    ensures strips.reasoning ==> !HasEncrypted(Kept(strips, item))
  {
    hide EqualFold, TrimSpace;
    KeptReadsTheSame(strips, item);
    ItemKeysAreNotEncrypted();
  }

  lemma {:induction false} WithoutReasoningIs(items: seq<Json>)
    ensures WithoutReasoning(items) == Stripped(Strips(true, false), items)
  {
    hide IsReasoning, IsAdditional, Decrypted;
    if items != [] {
      WithoutReasoningIs(items[..|items| - 1]);
    }
  }

  lemma {:induction false} WithoutAdditionalIs(strips: Strips, items: seq<Json>)
    requires !strips.additional
    ensures WithoutAdditional(Stripped(strips, items)) == Stripped(strips.(additional := true), items)
  {
    hide IsReasoning, IsAdditional, Decrypted;
    if items != [] {
      var init, item := items[..|items| - 1], items[|items| - 1];
      WithoutAdditionalIs(strips, init);
      var kept := Stripped(strips, init);
      KeptKeepsItsType(strips, item);
      Sequences.Unit(kept);
      Sequences.Unit(WithoutAdditional(kept));
      if !Goes(strips, item) {
        Sequences.DropLast(kept, Kept(strips, item));
      }
    }
  }

  lemma {:induction false} NothingStripped(items: seq<Json>)
    ensures Stripped(Strips(false, false), items) == items
  {
    hide IsReasoning, IsAdditional, Decrypted;
    if items != [] {
      NothingStripped(items[..|items| - 1]);
    }
  }

  /** A list without anything to strip is left alone, and a stripped list is one. */
  ghost predicate Clean(strips: Strips, items: seq<Json>) {
    forall item <- items :: !Goes(strips, item) && Kept(strips, item) == item
  }

  lemma {:induction false} StrippedIsClean(strips: Strips, items: seq<Json>)
    ensures Clean(strips, Stripped(strips, items))
  {
    if items != [] {
      var item := items[|items| - 1];
      StrippedIsClean(strips, items[..|items| - 1]);
      KeptIsClean(strips, item);
    }
  }

  lemma KeptIsClean(strips: Strips, item: Json)
    ensures Goes(strips, Kept(strips, item)) <==> Goes(strips, item)
    ensures Kept(strips, Kept(strips, item)) == Kept(strips, item)
  {
    hide IsReasoning, IsAdditional;
    KeptKeepsItsType(strips, item);
    if item.Obj? && strips.reasoning {
      assert item.fields - ENCRYPTED_KEYS - ENCRYPTED_KEYS == item.fields - ENCRYPTED_KEYS;
    }
  }

  lemma {:induction false} CleanIsLeft(strips: Strips, items: seq<Json>)
    requires Clean(strips, items)
    ensures Stripped(strips, items) == items
  {
    hide Goes, Kept;
    if items != [] {
      CleanIsLeft(strips, items[..|items| - 1]);
      assert items[|items| - 1] in items;
    }
  }

  lemma NoReasoningIsClean(items: seq<Json>)
    ensures !HasReasoning(items) ==> Clean(Strips(true, false), items)
  {
    hide IsItemType;
    if !HasReasoning(items) {
      forall item | item in items
        ensures !Goes(Strips(true, false), item) && Kept(Strips(true, false), item) == item
      {
        assert !IsReasoning(item) && !HasEncrypted(item);
        if item.Obj? {
          assert item.fields - ENCRYPTED_KEYS == item.fields;
        }
      }
    }
  }
}
