/** What every path of an assembled completion holds: choices, message fields, tool slots and function
    fields are each folded from only the fragments addressed to them. */
module CompletionPaths {
  import opened Text
  import opened Json
  import opened Pointwise
  import opened Completion
  import Sequences

  // ----- the whole run -----

  /** `add` over a list of payloads, up to the first error. */
  function AddAll(decode: Decoder, st: State, payloads: seq<string>): (State, Option<AddError>)
    decreases |payloads|
  {
    if payloads == [] then (st, None)
    else
      var (next, error) := AddPayload(decode, st, payloads[0]);
      if error.Some? then (next, error) else AddAll(decode, next, payloads[1..])
  }

  predicate IsDone(payload: string) {
    TrimSpace(payload) == "[DONE]"
  }

  /** The decoded chunks of a list of payloads. */
  function Chunks(decode: Decoder, payloads: seq<string>): seq<Object> {
    if payloads == [] then []
    else
      (if IsDone(payloads[0]) || decode(payloads[0]).None? then [] else [decode(payloads[0]).value])
      + Chunks(decode, payloads[1..])
  }

  function Bytes(payloads: seq<string>): nat {
    if payloads == [] then 0
    else (if IsDone(payloads[0]) then 0 else |payloads[0]|) + Bytes(payloads[1..])
  }

  function AddChunks(st: State, chunks: seq<Object>): State
    decreases |chunks|
  {
    if chunks == [] then st else AddChunks(AddChunk(st, chunks[0]), chunks[1..])
  }

  /** A run without error decodes every payload, stays within 64 MiB, and is the fold of its chunks;
      a run with an error has met an undecodable payload or the cap. */
  lemma {:induction false} AcceptedRun(decode: Decoder, st: State, payloads: seq<string>)
    requires st.size <= CAP
    ensures var (end, error) := AddAll(decode, st, payloads);
            && (error.None? <==>
                  && st.size + Bytes(payloads) <= 64 * 1024 * 1024
                  && forall p <- payloads :: !IsDone(p) ==> decode(p).Some?)
            && (error.None? ==>
                  && end.size == st.size + Bytes(payloads)
                  && end.(size := st.size) == AddChunks(st, Chunks(decode, payloads)))
    decreases |payloads|
  {
    if payloads != [] {
      var first, rest := payloads[0], payloads[1..];
      var (next, error) := AddPayload(decode, st, first);
      Sequences.HeadTail(payloads);
      if error.None? {
        AcceptedRun(decode, next, rest);
        if IsDone(first) {
          Sequences.Unit(Chunks(decode, rest));
        } else {
          Sequences.ConsTail(decode(first).value, Chunks(decode, rest));
          SizeIsAside(next, st.size, Chunks(decode, rest));
        }
      }
    }
  }

  lemma {:induction false} SizeIsAside(st: State, size: nat, chunks: seq<Object>)
    ensures AddChunks(st.(size := size), chunks) == AddChunks(st, chunks).(size := size)
    decreases |chunks|
  {
    if chunks != [] {
      SizeIsAside(AddChunk(st, chunks[0]), size, chunks[1..]);
    }
  }

  /** Every choice entry of every chunk, in order. */
  function AllItems(chunks: seq<Object>): seq<Json> {
    if chunks == [] then [] else ItemsOr(Get(chunks[0], "choices")) + AllItems(chunks[1..])
  }

  lemma {:induction false} MergeItemsAppend(choices: Choices, a: seq<Json>, b: seq<Json>)
    ensures MergeItems(choices, a + b) == MergeItems(MergeItems(choices, a), b)
  {
    if b == [] {
      Sequences.Unit(a);
    } else {
      var init, last := b[..|b| - 1], b[|b| - 1];
      MergeItemsAppend(choices, a, init);
      Sequences.AppendLast(a, b);
    }
  }

  lemma {:induction false} MergeAllCons(rule: Rule, dst: Object, first: Object, rest: seq<Object>)
    ensures MergeAll(rule, dst, [first] + rest) == MergeAll(rule, Merge(rule, dst, first), rest)
  {
    if rest == [] {
      Sequences.Unit([first]);
      assert [first][..0] == [];
    } else {
      MergeAllCons(rule, dst, first, rest[..|rest| - 1]);
      Sequences.AppendLast([first], rest);
    }
  }

  /** Root fields and choices do not meet: each is a fold of its own. */
  lemma {:induction false} ChunksSplit(st: State, chunks: seq<Object>)
    ensures AddChunks(st, chunks).root == MergeAll(RootRule, st.root, chunks)
    ensures AddChunks(st, chunks).choices == MergeItems(st.choices, AllItems(chunks))
    decreases |chunks|
  {
    if chunks != [] {
      var next := AddChunk(st, chunks[0]);
      ChunksSplit(next, chunks[1..]);
      MergeItemsAppend(st.choices, ItemsOr(Get(chunks[0], "choices")), AllItems(chunks[1..]));
      Sequences.HeadTail(chunks);
      MergeAllCons(RootRule, st.root, chunks[0], chunks[1..]);
    }
  }

  // ----- one choice -----

  /** The number at `index`, toward zero, is the choice and the slot that an entry addresses; anything but a
      number addresses the first. */
  lemma AddressReads(fields: Object)
    ensures var n := if Get(fields, "index").Num? then Truncate(Get(fields, "index").number) else 0;
            && IndexOf(fields) == Index(n)
            && SlotOf(Obj(fields)) == if 0 <= n <= 1024 then Some(n) else None
  {
    hide Truncate;
  }

  /** The entries addressed to one choice. */
  function ItemsFor(items: seq<Json>, index: Index): seq<Object> {
    if items == [] then []
    else
      var last := items[|items| - 1];
      ItemsFor(items[..|items| - 1], index)
      + if last.Obj? && IndexOf(last.fields) == index then [last.fields] else []
  }

  function FoldChoice(out: Object, parts: seq<Object>): Object {
    if parts == [] then out else MergeChoice(FoldChoice(out, parts[..|parts| - 1]), parts[|parts| - 1])
  }

  predicate Addresses(item: Json, index: Index) {
    item.Obj? && IndexOf(item.fields) == index
  }

  lemma MergeItemAt(choices: Choices, item: Json, index: Index)
    ensures index in MergeItem(choices, item) <==> index in choices || Addresses(item, index)
    ensures ChoiceAt(MergeItem(choices, item), index)
         == if Addresses(item, index) then MergeChoice(ChoiceAt(choices, index), item.fields)
            else ChoiceAt(choices, index)
  {
  }

  /** A choice exists exactly when it was there or was addressed, and it is the fold of its own
      entries, whatever else the chunks hold. */
  lemma {:induction false} ChoiceAlone(choices: Choices, items: seq<Json>, index: Index)
    ensures index in MergeItems(choices, items) <==> index in choices || ItemsFor(items, index) != []
    ensures ChoiceAt(MergeItems(choices, items), index) == FoldChoice(ChoiceAt(choices, index), ItemsFor(items, index))
  {
    if items != [] {
      var init, last := items[..|items| - 1], items[|items| - 1];
      ChoiceAlone(choices, init, index);
      MergeItemAt(MergeItems(choices, init), last, index);
      var parts := ItemsFor(init, index);
      if Addresses(last, index) {
        Sequences.DropLast(parts, last.fields);
      } else {
        Sequences.Unit(parts);
      }
    }
  }

  /** The deltas among the entries of a choice. */
  function Deltas(parts: seq<Object>): seq<Object> {
    if parts == [] then []
    else
      var delta := DeltaOf(parts[|parts| - 1]);
      Deltas(parts[..|parts| - 1]) + if delta.Obj? then [delta.fields] else []
  }

  lemma MergeChoiceFields(before: Object, choice: Object, key: string)
    requires key != "message"
    ensures Lookup(MergeChoice(before, choice), key) == Lookup(Merge(ChoiceRule, before, choice), key)
  {
  }

  lemma MergeChoiceMessage(before: Object, choice: Object)
    requires "message" in before && before["message"].Obj?
    ensures "message" in MergeChoice(before, choice) && MergeChoice(before, choice)["message"].Obj?
    ensures MessageOf(MergeChoice(before, choice))
         == if DeltaOf(choice).Obj? then Merge(MessageRule, MessageOf(before), DeltaOf(choice).fields)
            else MessageOf(before)
  {
  }

  lemma SameMerge(rule: Rule, a: Object, b: Object, part: Object, key: string)
    requires Lookup(a, key) == Lookup(b, key)
    ensures Lookup(Merge(rule, a, part), key) == Lookup(Merge(rule, b, part), key)
  {
  }

  /** The message of a choice is the merge of its deltas and nothing else. */
  lemma {:induction false} MessageIsDeltas(out: Object, parts: seq<Object>)
    requires "message" in out && out["message"].Obj?
    ensures "message" in FoldChoice(out, parts) && FoldChoice(out, parts)["message"].Obj?
    ensures MessageOf(FoldChoice(out, parts)) == MergeAll(MessageRule, MessageOf(out), Deltas(parts))
  {
    if parts != [] {
      var init, last := parts[..|parts| - 1], parts[|parts| - 1];
      MessageIsDeltas(out, init);
      MergeChoiceMessage(FoldChoice(out, init), last);
      if DeltaOf(last).Obj? {
        Sequences.DropLast(Deltas(init), DeltaOf(last).fields);
      } else {
        Sequences.Unit(Deltas(init));
      }
    }
  }

  /** Every other field of a choice follows the values addressed to it. */
  lemma {:induction false} ChoiceField(out: Object, parts: seq<Object>, key: string)
    requires key != "message"
    ensures Lookup(FoldChoice(out, parts), key) == Lookup(MergeAll(ChoiceRule, out, parts), key)
  {
    if parts != [] {
      var init, last := parts[..|parts| - 1], parts[|parts| - 1];
      ChoiceField(out, init, key);
      MergeChoiceFields(FoldChoice(out, init), last, key);
      SameMerge(ChoiceRule, FoldChoice(out, init), MergeAll(ChoiceRule, out, init), last, key);
    }
  }

  // ----- values at one key -----

  /** The message fields whose text fragments are put together. */
  const TEXT_KEYS: set<string> := {"content", "reasoning_content", "reasoning", "refusal"}

  /** The message fields without a rule of their own. */
  predicate IsOther(key: string) {
    key !in TEXT_KEYS && key != "function_call" && key != "tool_calls"
  }

  lemma KindsOfKeys(key: string)
    ensures KindOf(key) == TextKind <==> key in TEXT_KEYS
    ensures KindOf(key) == OtherKind <==> IsOther(key)
    ensures KindOf(key) == FunctionKind <==> key == "function_call"
    ensures KindOf(key) == ToolsKind <==> key == "tool_calls"
  {
  }

  /** Text fragments, with nulls between them, which the code ignores. */
  predicate TextOrNull(values: seq<Json>) {
    forall v <- values :: v.Str? || v.Null?
  }

  predicate HasText(values: seq<Json>) {
    exists v <- values :: v.Str?
  }

  /** The texts of the values; anything else counts as empty. */
  function Texts(values: seq<Json>): seq<string> {
    if values == [] then [] else Texts(values[..|values| - 1]) + [TextOr(values[|values| - 1])]
  }

  lemma {:induction false} TextsAppendLast(values: seq<Json>)
    requires values != []
    ensures Concat(Texts(values)) == Concat(Texts(values[..|values| - 1])) + TextOr(values[|values| - 1])
  {
    var text := TextOr(values[|values| - 1]);
    ConcatAppend(Texts(values[..|values| - 1]), [text]);
    Sequences.ConsTail(text, []);
    Sequences.Unit(text);
  }

  lemma LastOfValues(values: seq<Json>)
    requires values != []
    ensures var init, last := values[..|values| - 1], values[|values| - 1];
            && (TextOrNull(values) <==> TextOrNull(init) && (last.Str? || last.Null?))
            && (HasText(values) <==> HasText(init) || last.Str?)
  {
    var init, last := values[..|values| - 1], values[|values| - 1];
    assert values == init + [last];
    assert last in values;
    assert forall v :: v in values <==> v in init || v == last;
  }

  lemma {:induction false} NullsHaveNoText(values: seq<Json>)
    requires TextOrNull(values) && !HasText(values)
    ensures Concat(Texts(values)) == ""
  {
    if values != [] {
      LastOfValues(values);
      NullsHaveNoText(values[..|values| - 1]);
      TextsAppendLast(values);
    }
  }

  /** A text field that receives text and nulls holds its text fragments in order, behind what was there;
      nulls alone change nothing. */
  lemma {:induction false} TextIsConcatenated(key: string, prior: Option<Json>, values: seq<Json>)
    requires key in {"content", "reasoning_content", "reasoning", "refusal"} && TextOrNull(values)
    ensures FoldKey(MessageRule, key, prior, values) ==
            if HasText(values) then Some(Str(TextOr(OrNull(prior)) + Concat(Texts(values)))) else prior
  {
    KindsOfKeys(key);
    TextFolds(key, prior, values);
  }

  lemma {:induction false} TextFolds(key: string, prior: Option<Json>, values: seq<Json>)
    requires KindOf(key) == TextKind && TextOrNull(values)
    ensures FoldKey(MessageRule, key, prior, values) ==
            if HasText(values) then Some(Str(TextOr(OrNull(prior)) + Concat(Texts(values)))) else prior
  {
    hide TextOrNull, HasText, Texts, KindOf;
    if values != [] {
      var init, last := values[..|values| - 1], values[|values| - 1];
      LastOfValues(values);
      TextFolds(key, prior, init);
      TextsAppendLast(values);
      Sequences.Unit(Concat(Texts(init)));
      if last.Str? {
        Sequences.Assoc(TextOr(OrNull(prior)), Concat(Texts(init)), last.text);
        if !HasText(init) {
          NullsHaveNoText(init);
          Sequences.Unit(TextOr(OrNull(prior)));
        }
      }
    } else {
      NoText();
    }
  }

  lemma NoText()
    ensures !HasText([])
  {
  }

  /** A value that is neither text nor null replaces what was there, and later text replaces it. */
  lemma TextIsReplaced(key: string, prior: Option<Json>, before: seq<Json>, v: Json, after: seq<Json>)
    requires key in {"content", "reasoning_content", "reasoning", "refusal"}
    requires !v.Str? && !v.Null? && TextOrNull(after)
    ensures FoldKey(MessageRule, key, prior, before + [v] + after) ==
            Some(if HasText(after) then Str(Concat(Texts(after))) else v)
  {
    hide KindOf;
    KindsOfKeys(key);
    FoldOfSum(MessageRule, key, prior, before + [v], after);
    Sequences.DropLast(before, v);
    TextIsConcatenated(key, Some(v), after);
    Sequences.Unit(Concat(Texts(after)));
  }

  lemma {:induction false} FoldOfSum(rule: Rule, key: string, prior: Option<Json>, a: seq<Json>, b: seq<Json>)
    ensures FoldKey(rule, key, prior, a + b) == FoldKey(rule, key, FoldKey(rule, key, prior, a), b)
  {
    if b == [] {
      Sequences.Unit(a);
    } else {
      Sequences.AppendLast(a, b);
      FoldOfSum(rule, key, prior, a, b[..|b| - 1]);
    }
  }

  function LastNonNull(values: seq<Json>): Option<Json> {
    if values == [] then None
    else if values[|values| - 1] != Null then Some(values[|values| - 1])
    else LastNonNull(values[..|values| - 1])
  }

  function LastOf(values: seq<Json>): Option<Json> {
    if values == [] then None else Some(values[|values| - 1])
  }

  function Else(v: Option<Json>, other: Option<Json>): Option<Json> {
    if v.Some? then v else other
  }

  lemma {:induction false} OtherFieldIsLast(key: string, prior: Option<Json>, values: seq<Json>)
    requires key !in {"content", "reasoning_content", "reasoning", "refusal", "function_call", "tool_calls"}
    ensures FoldKey(MessageRule, key, prior, values) == Else(LastNonNull(values), prior)
  {
    hide KindOf;
    KindsOfKeys(key);
    if values != [] {
      OtherFieldIsLast(key, prior, values[..|values| - 1]);
    }
  }

  lemma {:induction false} ChoiceFieldIsLast(key: string, prior: Option<Json>, values: seq<Json>)
    requires key != "delta" && key != "message"
    ensures FoldKey(ChoiceRule, key, prior, values) == Else(LastNonNull(values), prior)
  {
    if values != [] {
      ChoiceFieldIsLast(key, prior, values[..|values| - 1]);
    }
  }

  lemma {:induction false} RootFieldIsLast(key: string, prior: Option<Json>, values: seq<Json>)
    requires key != "choices" && key != "object"
    ensures FoldKey(RootRule, key, prior, values) == Else(LastOf(values), prior)
  {
    if values != [] {
      RootFieldIsLast(key, prior, values[..|values| - 1]);
    }
  }

  // ----- tool slots -----

  /** Every tool-call fragment of a list of `tool_calls` values. */
  function AllParts(values: seq<Json>): seq<Json> {
    if values == [] then [] else AllParts(values[..|values| - 1]) + ItemsOr(values[|values| - 1])
  }

  lemma {:induction false} MergePartsAppend(tools: seq<Json>, a: seq<Json>, b: seq<Json>)
    ensures MergeParts(tools, a + b) == MergeParts(MergeParts(tools, a), b)
  {
    if b == [] {
      Sequences.Unit(a);
    } else {
      MergePartsAppend(tools, a, b[..|b| - 1]);
      Sequences.AppendLast(a, b);
    }
  }

  /** The cuts between `tool_calls` values do not matter. */
  lemma {:induction false} ToolsAreParts(prior: Option<Json>, values: seq<Json>)
    ensures var v := FoldKey(MessageRule, "tool_calls", prior, values);
            && ItemsOr(OrNull(v)) == MergeParts(ItemsOr(OrNull(prior)), AllParts(values))
            && (values != [] ==> v == Some(ToolsValue(ItemsOr(OrNull(v)))))
  {
    if values != [] {
      ToolsAreParts(prior, values[..|values| - 1]);
      MergePartsAppend(ItemsOr(OrNull(prior)), AllParts(values[..|values| - 1]), ItemsOr(values[|values| - 1]));
    }
  }

  /** The fragments addressed to one slot. */
  function PartsFor(parts: seq<Json>, slot: nat): seq<Object> {
    if parts == [] then []
    else
      var last := parts[|parts| - 1];
      PartsFor(parts[..|parts| - 1], slot) + if SlotOf(last) == Some(slot) then [last.fields] else []
  }

  function SlotAt(tools: seq<Json>, slot: nat): Object {
    if slot < |tools| then FieldsOr(tools[slot]) else map[]
  }

  lemma MergePartAt(tools: seq<Json>, part: Json, slot: nat)
    requires Slots(tools)
    ensures Slots(MergePart(tools, part))
    ensures SlotAt(MergePart(tools, part), slot)
         == if SlotOf(part) == Some(slot) then Merge(ToolRule, SlotAt(tools, slot), part.fields)
            else SlotAt(tools, slot)
    ensures slot < |MergePart(tools, part)| <==> slot < |tools| || (SlotOf(part).Some? && slot <= SlotOf(part).value)
  {
  }

  /** Each slot is the merge of its own fragments, and there are at most 1025 slots. */
  lemma {:induction false} SlotAlone(tools: seq<Json>, parts: seq<Json>, slot: nat)
    requires Slots(tools)
    ensures Slots(MergeParts(tools, parts)) && |MergeParts(tools, parts)| <= 1025
    ensures SlotAt(MergeParts(tools, parts), slot) == MergeAll(ToolRule, SlotAt(tools, slot), PartsFor(parts, slot))
  {
    if parts != [] {
      var init, last := parts[..|parts| - 1], parts[|parts| - 1];
      SlotAlone(tools, init, slot);
      MergePartAt(MergeParts(tools, init), last, slot);
      var mine := PartsFor(init, slot);
      if SlotOf(last) == Some(slot) {
        Sequences.DropLast(mine, last.fields);
      } else {
        Sequences.Unit(mine);
      }
    }
  }

  predicate Reaches(parts: seq<Json>, slot: nat) {
    exists part <- parts :: SlotOf(part).Some? && slot <= SlotOf(part).value
  }

  /** A slot exists exactly when it was there or when it or a higher one was addressed. */
  lemma {:induction false} SlotExists(tools: seq<Json>, parts: seq<Json>, slot: nat)
    requires Slots(tools)
    ensures slot < |MergeParts(tools, parts)| <==> slot < |tools| || Reaches(parts, slot)
  {
    if parts != [] {
      var init, last := parts[..|parts| - 1], parts[|parts| - 1];
      SlotExists(tools, init, slot);
      SlotAlone(tools, init, slot);
      MergePartAt(MergeParts(tools, init), last, slot);
      assert forall p :: p in parts <==> p in init || p == last;
    }
  }

  // ----- functions -----

  /** The objects among a list of values; a value that is no object counts as an empty one. */
  function Objects(values: seq<Json>): seq<Object> {
    if values == [] then [] else Objects(values[..|values| - 1]) + [FieldsOr(values[|values| - 1])]
  }

  lemma {:induction false} FunctionIsMerged(prior: Option<Json>, values: seq<Json>)
    ensures FoldKey(ToolRule, "function", prior, values)
         == if values == [] then prior
            else Some(Obj(MergeAll(FunctionRule, FieldsOr(OrNull(prior)), Objects(values))))
  {
    if values != [] {
      var init := values[..|values| - 1];
      FunctionIsMerged(prior, init);
      Sequences.DropLast(Objects(init), FieldsOr(values[|values| - 1]));
    }
  }

  lemma {:induction false} ArgumentsAreConcatenated(prior: Option<Json>, values: seq<Json>)
    ensures FoldKey(FunctionRule, "arguments", prior, values)
         == if values == [] then prior else Some(Str(TextOr(OrNull(prior)) + Concat(Texts(values))))
  {
    if values != [] {
      var init, last := values[..|values| - 1], values[|values| - 1];
      ArgumentsAreConcatenated(prior, init);
      TextsAppendLast(values);
      Sequences.Assoc(TextOr(OrNull(prior)), Concat(Texts(init)), TextOr(last));
      Sequences.Unit(TextOr(OrNull(prior)));
    }
  }

  // ----- no assertion fails -----

  lemma DeltaKeepsTools(message: Object, delta: Object)
    requires ToolsReady(message)
    ensures ToolsReady(Merge(MessageRule, message, delta))
  {
    hide MergeParts, Slots;
    if "tool_calls" in delta {
      var tools, parts := ItemsOr(Get(message, "tool_calls")), ItemsOr(delta["tool_calls"]);
      SlotAlone(tools, parts, 0);
      assert Get(Merge(MessageRule, message, delta), "tool_calls") == ToolsValue(MergeParts(tools, parts));
    } else {
      assert Get(Merge(MessageRule, message, delta), "tool_calls") == Get(message, "tool_calls");
    }
  }

  lemma ItemKeepsReady(choices: Choices, item: Json)
    requires Ready(choices)
    ensures Ready(MergeItem(choices, item))
  {
    hide Merge, ToolsReady, IndexOf, FreshChoice, MergeChoice;
    if item.Obj? {
      var out := ChoiceAt(choices, IndexOf(item.fields));
      ReadyAt(choices, IndexOf(item.fields));
      MergeChoiceMessage(out, item.fields);
      if DeltaOf(item.fields).Obj? {
        DeltaKeepsTools(MessageOf(out), DeltaOf(item.fields).fields);
      }
    }
  }

  lemma {:induction false} ItemsKeepReady(choices: Choices, items: seq<Json>)
    requires Ready(choices)
    ensures Ready(MergeItems(choices, items))
  {
    hide MergeItem, ChoiceReady;
    if items != [] {
      ItemsKeepReady(choices, items[..|items| - 1]);
      ItemKeepsReady(MergeItems(choices, items[..|items| - 1]), items[|items| - 1]);
    }
  }

  /** Whatever payloads arrive, decodable or not, every choice kept has an object as its message and at
      most 1025 tool slots, all objects: the unchecked assertions never fail. */
  lemma {:induction false} RunsAreReady(decode: Decoder, st: State, payloads: seq<string>)
    requires Ready(st.choices)
    ensures Ready(AddAll(decode, st, payloads).0.choices)
    decreases |payloads|
  {
    hide Ready, Merge, MergeItems, TrimSpace;
    if payloads != [] {
      var first := payloads[0];
      if !IsDone(first) && decode(first).Some? {
        ItemsKeepReady(st.choices, ItemsOr(Get(decode(first).value, "choices")));
      }
      var (next, error) := AddPayload(decode, st, first);
      if error.None? {
        RunsAreReady(decode, next, payloads[1..]);
      }
    }
  }
}
