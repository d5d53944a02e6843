/** Every completion can be said: one chunk that holds it whole is a cut of it.  So the cuts of
    `Reassembly` leave no completion out. */
module OneChunk {
  import opened Text
  import opened Json
  import opened Pointwise
  import opened Completion
  import opened CompletionPaths
  import opened Reassembly
  import Sequences

  predicate NoNulls(o: Object) {
    forall key <- o :: o[key] != Null
  }

  /** A field that is null says nothing, and the key of a choice is its `index` field. */
  predicate SayableChoice(index: Index, c: Choice) {
    ProperChoice(c) && NoNulls(c.fields) && NoNulls(c.message.others) && IndexOf(c.fields) == index
  }

  ghost predicate Sayable(w: Whole) {
    Proper(w) && forall i <- w.choices :: SayableChoice(i, w.choices[i])
  }

  function ToolPart(slot: nat, t: Tool): Object {
    RenderTool(t)["index" := Num(slot as real)]
  }

  function ToolParts(tools: seq<Tool>): seq<Json> {
    seq(|tools|, n requires 0 <= n < |tools| => Obj(ToolPart(n, tools[n])))
  }

  function PartsField(tools: Option<seq<Tool>>): Option<Json> {
    if tools.None? then None else Some(Arr(ToolParts(tools.value)))
  }

  function Delta(m: Message): Object {
    m.others + RenderTexts(m.texts)
    + Field("function_call", FunctionValue(m.call)) + Field("tool_calls", PartsField(m.tools))
  }

  function Entry(c: Choice): Object {
    c.fields["delta" := Obj(Delta(c.message))]
  }

  ghost function Entries(choices: map<Index, Choice>, order: seq<Index>): seq<Json>
    requires forall i <- order :: i in choices
  {
    seq(|order|, n requires 0 <= n < |order| => Obj(Entry(choices[order[n]])))
  }

  ghost function Chunk(w: Whole, order: seq<Index>): Object
    requires forall i <- order :: i in w.choices
  {
    w.root["choices" := Arr(Entries(w.choices, order))]
  }

  // ----- values of a single part -----

  function Just(v: Option<Json>): seq<Json> {
    if v.Some? then [v.value] else []
  }

  lemma ValuesOfOne(part: Object, key: string)
    ensures ValuesAt([part], key) == Just(Lookup(part, key))
    ensures LastOf(ValuesAt([part], key)) == Lookup(part, key)
    ensures Lookup(part, key) != Some(Null) ==> LastNonNull(ValuesAt([part], key)) == Lookup(part, key)
  {
    assert [part][..0] == [];
    Sequences.Unit(Just(Lookup(part, key)));
    if key in part {
      assert [part[key]][..0] == [];
    }
  }

  lemma TextsOfOne(text: string)
    ensures Concat(Texts([Str(text)])) == text
    ensures Objects([Str(text)]) == [map[]]
  {
    assert [Str(text)][..0] == [];
    Sequences.Unit(text);
  }

  lemma ObjectsOfOne(fields: Object)
    ensures Objects([Obj(fields)]) == [fields] && ObjectsAmong([Obj(fields)]) == [fields]
  {
    assert [Obj(fields)][..0] == [];
  }

  lemma FunctionIsCut(f: Function)
    requires ProperFunction(f)
    ensures CutsFunction([RenderFunction(f)], f)
  {
    hide ValuesAt, LastOf, Texts, Concat;
    var part := RenderFunction(f);
    forall key
      ensures LastOf(ValuesAt([part], key)) == Lookup(part, key) && ValuesAt([part], key) == Just(Lookup(part, key))
    {
      ValuesOfOne(part, key);
    }
    if f.arguments.Some? {
      TextsOfOne(f.arguments.value);
    }
  }

  lemma ToolPartLookups(slot: nat, t: Tool, key: string)
    requires ProperTool(t)
    ensures Lookup(ToolPart(slot, t), key) ==
            if key == "index" then Some(Num(slot as real)) else if key == "function" then FunctionValue(t.call)
            else Lookup(t.fields, key)
  {
    hide FunctionValue;
    LookupSum(t.fields, Field("function", FunctionValue(t.call)), key);
    LookupField("function", FunctionValue(t.call), key);
  }

  lemma ToolIsCut(slot: nat, t: Tool)
    requires ProperTool(t)
    ensures CutsTool([ToolPart(slot, t)], t)
  {
    hide RenderFunction, CutsFunction, ToolPart, ValuesAt, LastOf, Objects;
    var part := ToolPart(slot, t);
    forall key
      ensures key != "index" && key != "function" ==> LastOf(ValuesAt([part], key)) == Lookup(t.fields, key)
    {
      ValuesOfOne(part, key);
      ToolPartLookups(slot, t, key);
    }
    ValuesOfOne(part, "function");
    ToolPartLookups(slot, t, "function");
    if t.call.Some? {
      ObjectsOfOne(RenderFunction(t.call.value));
      FunctionIsCut(t.call.value);
    }
  }

  lemma SlotsAreTheirPlaces(tools: seq<Tool>, slot: nat)
    requires slot < |tools| <= MAX_SLOT + 1
    ensures SlotOf(ToolParts(tools)[slot]) == Some(slot)
  {
    hide RenderTool;
    assert (slot as real).Floor == slot;
  }

  /** Parts that address their own places: one for each slot. */
  lemma {:induction false} OnePartEach(parts: seq<Json>, slot: nat)
    requires forall k :: 0 <= k < |parts| ==> SlotOf(parts[k]) == Some(k)
    ensures slot < |parts| ==> parts[slot].Obj?
    ensures PartsFor(parts, slot) == if slot < |parts| then [parts[slot].fields] else []
  {
    hide NativeIndex;
    if parts != [] {
      var init, last := parts[..|parts| - 1], parts[|parts| - 1];
      OnePartEach(init, slot);
      assert SlotOf(parts[|parts| - 1]) == Some(|parts| - 1);
      Sequences.Unit(PartsFor(init, slot));
      if slot < |init| {
        assert parts[slot] == init[slot];
      }
    }
  }

  lemma ReachedSlots(parts: seq<Json>, slot: nat)
    requires forall k :: 0 <= k < |parts| ==> SlotOf(parts[k]) == Some(k)
    ensures Reaches(parts, slot) <==> slot < |parts|
  {
    hide SlotOf;
    if slot < |parts| {
      assert parts[slot] in parts;
    }
    if part :| part in parts && SlotOf(part).Some? && slot <= SlotOf(part).value {
      var k :| 0 <= k < |parts| && parts[k] == part;
    }
  }

  lemma SlotsAreCut(tools: seq<Tool>)
    requires |tools| <= MAX_SLOT + 1 && forall t <- tools :: ProperTool(t)
    ensures CutsSlots(ToolParts(tools), tools)
  {
    hide CutsTool, ProperTool, ToolPart, SlotOf;
    var parts := ToolParts(tools);
    forall slot: nat | slot < |tools|
      ensures SlotOf(parts[slot]) == Some(slot)
    {
      SlotsAreTheirPlaces(tools, slot);
    }
    forall slot: nat
      ensures Reaches(parts, slot) <==> slot < |tools|
      ensures slot < |tools| ==> CutsTool(PartsFor(parts, slot), tools[slot])
    {
      ReachedSlots(parts, slot);
      OnePartEach(parts, slot);
      if slot < |tools| {
        ToolIsCut(slot, tools[slot]);
      }
    }
  }

  lemma ToolsAreCut(tools: Option<seq<Tool>>)
    requires tools.Some? ==> |tools.value| <= MAX_SLOT + 1 && forall t <- tools.value :: ProperTool(t)
    ensures CutsTools(Just(PartsField(tools)), tools)
  {
    hide CutsSlots, ProperTool, ToolParts;
    if tools.Some? {
      var parts := ToolParts(tools.value);
      assert [Arr(parts)][..0] == [];
      Sequences.Unit(parts);
      assert AllParts([Arr(parts)]) == parts;
      SlotsAreCut(tools.value);
    }
  }

  // ----- messages -----

  function DeltaAt(m: Message, key: string): Option<Json> {
    match KindOf(key)
    case TextKind => Lookup(RenderTexts(m.texts), key)
    case FunctionKind => FunctionValue(m.call)
    case ToolsKind => PartsField(m.tools)
    case OtherKind => Lookup(m.others, key)
  }

  lemma DeltaLookups(m: Message, key: string)
    requires ProperMessage(m)
    ensures Lookup(Delta(m), key) == DeltaAt(m, key)
  {
    hide FunctionValue, PartsField;
    var texts := RenderTexts(m.texts);
    var call, tools := Field("function_call", FunctionValue(m.call)), Field("tool_calls", PartsField(m.tools));
    KindsOfKeys(key);
    LookupSum(m.others, texts, key);
    LookupSum(m.others + texts, call, key);
    LookupSum(m.others + texts + call, tools, key);
    LookupField("function_call", FunctionValue(m.call), key);
    LookupField("tool_calls", PartsField(m.tools), key);
  }

  lemma DeltaValues(m: Message, key: string)
    requires ProperMessage(m) && NoNulls(m.others)
    ensures ValuesAt([Delta(m)], key) == Just(DeltaAt(m, key))
    ensures LastNonNull(ValuesAt([Delta(m)], key)) == DeltaAt(m, key)
  {
    hide FunctionValue, ToolParts, ValuesAt, LastNonNull, Delta;
    DeltaLookups(m, key);
    ValuesOfOne(Delta(m), key);
    NoNullSaid(m, key);
  }

  lemma NoNullSaid(m: Message, key: string)
    requires NoNulls(m.others)
    ensures DeltaAt(m, key) != Some(Null)
  {
  }

  lemma TextIsCut(m: Message, key: string)
    requires key in TEXT_KEYS
    ensures CutsText(Just(DeltaAt(m, key)), TextAt(m.texts, key))
  {
    KindsOfKeys(key);
    if key in m.texts {
      TextsOfOne(m.texts[key]);
      assert Str(m.texts[key]) in [Str(m.texts[key])];
    } else {
      NoText();
    }
  }

  lemma NoObjects()
    ensures ObjectsAmong([]) == []
  {
  }

  lemma MessageIsCut(m: Message)
    requires ProperMessage(m) && NoNulls(m.others)
    ensures CutsMessage([Delta(m)], m)
  {
    hide Delta, ValuesAt, CutsText, LastNonNull, CutsTools, ObjectsAmong, CutsFunction, RenderFunction, ToolParts,
         ProperFunction;
    forall key
      ensures key in TEXT_KEYS ==> CutsText(ValuesAt([Delta(m)], key), TextAt(m.texts, key))
      ensures IsOther(key) ==> LastNonNull(ValuesAt([Delta(m)], key)) == Lookup(m.others, key)
    {
      DeltaValues(m, key);
      KindsOfKeys(key);
      if key in TEXT_KEYS {
        TextIsCut(m, key);
      }
    }
    DeltaValues(m, "function_call");
    DeltaValues(m, "tool_calls");
    KindsOfKeys("function_call");
    KindsOfKeys("tool_calls");
    ToolsAreCut(m.tools);
    NoObjects();
    if m.call.Some? {
      FunctionIsCut(m.call.value);
      ObjectsOfOne(RenderFunction(m.call.value));
    }
  }

  // ----- choices -----

  lemma EntryValues(c: Choice, key: string)
    requires ProperChoice(c) && NoNulls(c.fields) && key != "delta"
    ensures LastNonNull(ValuesAt([Entry(c)], key)) == Lookup(c.fields, key)
  {
    hide Delta, ProperMessage, ValuesAt, LastNonNull;
    ValuesOfOne(Entry(c), key);
    assert Lookup(Entry(c), key) == Lookup(c.fields, key);
  }

  lemma ChoiceIsCut(c: Choice)
    requires ProperChoice(c) && NoNulls(c.fields) && NoNulls(c.message.others)
    ensures CutsChoice([Entry(c)], c)
  {
    hide Delta, CutsMessage, ProperMessage, ValuesAt, LastNonNull;
    MessageIsCut(c.message);
    assert [Entry(c)][..0] == [];
    Sequences.Unit([Delta(c.message)]);
    assert Deltas([Entry(c)]) == [Delta(c.message)];
    forall key | key != "delta" && key != "message"
      ensures LastNonNull(ValuesAt([Entry(c)], key)) == Lookup(c.fields, key)
    {
      EntryValues(c, key);
    }
  }

  lemma EntryAddress(index: Index, c: Choice)
    requires SayableChoice(index, c)
    ensures IndexOf(Entry(c)) == index
  {
    hide Delta, NativeIndex, ProperChoice;
  }

  lemma EntriesSnoc(choices: map<Index, Choice>, init: seq<Index>, last: Index)
    requires last in choices && forall k <- init :: k in choices
    ensures Entries(choices, init + [last]) == Entries(choices, init) + [Obj(Entry(choices[last]))]
  {
    hide Entry;
  }

  lemma ItemsForSnoc(items: seq<Json>, entry: Object, i: Index)
    ensures ItemsFor(items + [Obj(entry)], i) == ItemsFor(items, i) + if IndexOf(entry) == i then [entry] else []
  {
    hide IndexOf;
    Sequences.DropLast(items, Obj(entry));
  }

  /** Of entries under distinct indices, each index has its own. */
  lemma {:induction false} OneEntryEach(choices: map<Index, Choice>, order: seq<Index>, i: Index)
    requires Strict(order) && forall k <- order :: k in choices && SayableChoice(k, choices[k])
    ensures ItemsFor(Entries(choices, order), i) == if i in order then [Entry(choices[i])] else []
  {
    hide Entry, SayableChoice, IndexOf, ItemsFor, Entries;
    if order == [] {
      NoEntries(choices, i);
    } else {
      var init, last := order[..|order| - 1], order[|order| - 1];
      OneEntryEach(choices, init, i);
      EntryAddress(last, choices[last]);
      assert order == init + [last];
      EntriesSnoc(choices, init, last);
      ItemsForSnoc(Entries(choices, init), Entry(choices[last]), i);
      assert last !in init;
      Sequences.Unit(ItemsFor(Entries(choices, init), i));
      Sequences.Unit([Entry(choices[last])]);
    }
  }

  lemma NoEntries(choices: map<Index, Choice>, i: Index)
    ensures ItemsFor(Entries(choices, []), i) == []
  {
  }

  lemma ChoicesAreCut(choices: map<Index, Choice>, order: seq<Index>)
    requires Strict(order) && Members(order) == choices.Keys
    requires forall i <- choices :: SayableChoice(i, choices[i])
    ensures forall k <- order :: k in choices
    ensures CutsChoices(Entries(choices, order), choices)
  {
    hide Entry, CutsChoice, ItemsFor, Entries;
    assert forall i :: i in order <==> i in Members(order);
    forall i
      ensures i in choices <==> ItemsFor(Entries(choices, order), i) != []
      ensures i in choices ==> CutsChoice(ItemsFor(Entries(choices, order), i), choices[i])
    {
      OneEntryEach(choices, order, i);
      if i in choices {
        ChoiceIsCut(choices[i]);
      }
    }
  }

  /** Any completion without nulls, and with its choices under their own indices, has a cut. */
  lemma WholeIsCut(w: Whole)
    requires Sayable(w)
    ensures var order := Ascending(w.choices.Keys);
            && (forall i <- order :: i in w.choices)
            && Cuts([Chunk(w, order)], w)
  {
    hide CutsChoices, Entries, SayableChoice, ProperChoices, ValuesAt, LastOf;
    var order := Ascending(w.choices.Keys);
    AscendingIsStrict(w.choices.Keys);
    ChoicesAreCut(w.choices, order);
    var chunk := Chunk(w, order);
    ItemsOfOne(chunk);
    forall key | key != "choices" && key != "object"
      ensures LastOf(ValuesAt([chunk], key)) == Lookup(w.root, key)
    {
      ValuesOfOne(chunk, key);
      assert Lookup(chunk, key) == Lookup(w.root, key);
    }
  }

  lemma ItemsOfOne(chunk: Object)
    ensures AllItems([chunk]) == ItemsOr(Get(chunk, "choices"))
  {
    Sequences.ConsTail(chunk, []);
    Sequences.Unit(ItemsOr(Get(chunk, "choices")));
  }
}
