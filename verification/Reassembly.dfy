/** Reassembly: a completion cut into chunks in any way comes back whole. */
module Reassembly {
  import opened Text
  import opened Json
  import opened Pointwise
  import opened Completion
  import opened CompletionPaths
  import Sequences

  // ----- completions, free of any cutting -----

  /** `arguments` is the text built from fragments; the other fields arrive whole.  A message without a
      `tool_calls` field has None for its tools; an empty list of tools prints as null. */
  datatype Function = Function(fields: Object, arguments: Option<string>)

  datatype Tool = Tool(fields: Object, call: Option<Function>)

  datatype Message = Message(
    texts: map<string, string>,
    others: Object,
    call: Option<Function>,
    tools: Option<seq<Tool>>)

  datatype Choice = Choice(fields: Object, message: Message)

  datatype Whole = Whole(root: Object, choices: map<Index, Choice>)

  predicate ProperFunction(f: Function) {
    "arguments" !in f.fields
  }

  predicate ProperTool(t: Tool) {
    && "index" !in t.fields && "function" !in t.fields
    && (t.call.Some? ==> ProperFunction(t.call.value))
  }

  predicate ProperMessage(m: Message) {
    && (forall key <- m.texts :: key in TEXT_KEYS)
    && (forall key <- m.others :: IsOther(key))
    && (m.call.Some? ==> ProperFunction(m.call.value))
    && (m.tools.Some? ==> |m.tools.value| <= 1025 && forall t <- m.tools.value :: ProperTool(t))
  }

  predicate ProperChoice(c: Choice) {
    "delta" !in c.fields && "message" !in c.fields && ProperMessage(c.message)
  }

  ghost predicate ProperChoices(choices: map<Index, Choice>) {
    forall i <- choices :: ProperChoice(choices[i])
  }

  ghost predicate Proper(w: Whole) {
    && "choices" !in w.root && "object" !in w.root
    && ProperChoices(w.choices)
  }

  // ----- the completion object -----

  function Field(key: string, value: Option<Json>): Object {
    if value.Some? then map[key := value.value] else map[]
  }

  function RenderFunction(f: Function): Object {
    f.fields + Field("arguments", if f.arguments.Some? then Some(Str(f.arguments.value)) else None)
  }

  function FunctionValue(f: Option<Function>): Option<Json> {
    if f.Some? then Some(Obj(RenderFunction(f.value))) else None
  }

  function RenderTool(t: Tool): Object {
    t.fields + Field("function", FunctionValue(t.call))
  }

  function RenderTools(tools: seq<Tool>): (rendered: seq<Json>)
    ensures |rendered| == |tools|
  {
    seq(|tools|, n requires 0 <= n < |tools| => Obj(RenderTool(tools[n])))
  }

  function ToolsField(tools: Option<seq<Tool>>): Option<Json> {
    if tools.None? then None else Some(if tools.value == [] then Null else Arr(RenderTools(tools.value)))
  }

  function RenderTexts(texts: map<string, string>): Object {
    map key | key in texts :: Str(texts[key])
  }

  const BASE_MESSAGE: Object := map["role" := Str("assistant"), "content" := Str("")]

  function RenderMessage(m: Message): Object {
    BASE_MESSAGE + m.others + RenderTexts(m.texts)
    + Field("function_call", FunctionValue(m.call)) + Field("tool_calls", ToolsField(m.tools))
  }

  function RenderChoice(index: Index, c: Choice): Object {
    map["index" := Num(index.value as real), "finish_reason" := Null] + c.fields
    + map["message" := Obj(RenderMessage(c.message))]
  }

  ghost function RenderChoices(choices: map<Index, Choice>): seq<Json> {
    AscendingIsStrict(choices.Keys);
    var order := Ascending(choices.Keys);
    assert forall i <- order :: i in Members(order);
    seq(|order|, n requires 0 <= n < |order| => Obj(RenderChoice(order[n], choices[order[n]])))
  }

  ghost function Render(w: Whole): Object {
    w.root["choices" := Arr(RenderChoices(w.choices))]["object" := Str("chat.completion")]
  }

  // ----- cuts: what the fragments at every path amount to -----

  ghost predicate CutsFunction(parts: seq<Object>, f: Function) {
    && (forall key :: key != "arguments" ==> LastOf(ValuesAt(parts, key)) == Lookup(f.fields, key))
    && (f.arguments.Some? <==> ValuesAt(parts, "arguments") != [])
    && (f.arguments.Some? ==> Concat(Texts(ValuesAt(parts, "arguments"))) == f.arguments.value)
  }

  ghost predicate CutsTool(parts: seq<Object>, t: Tool) {
    && (forall key :: key != "index" && key != "function" ==> LastOf(ValuesAt(parts, key)) == Lookup(t.fields, key))
    && (t.call.Some? <==> ValuesAt(parts, "function") != [])
    && (t.call.Some? ==> CutsFunction(Objects(ValuesAt(parts, "function")), t.call.value))
  }

  ghost predicate CutsSlots(parts: seq<Json>, tools: seq<Tool>) {
    && (forall slot: nat :: slot < |tools| <==> Reaches(parts, slot))
    && (forall slot: nat :: slot < |tools| ==> CutsTool(PartsFor(parts, slot), tools[slot]))
  }

  /** Any value at `tool_calls` makes the field, and what is no list adds no fragments. */
  ghost predicate CutsTools(values: seq<Json>, tools: Option<seq<Tool>>) {
    && (tools.Some? <==> values != [])
    && (tools.Some? ==> CutsSlots(AllParts(values), tools.value))
  }

  /** Nulls may stand anywhere among the fragments. */
  ghost predicate CutsText(values: seq<Json>, text: Option<string>) {
    && TextOrNull(values)
    && (text.Some? <==> HasText(values))
    && (text.Some? ==> Concat(Texts(values)) == text.value)
  }

  /** The objects among the values; anything else is ignored. */
  function ObjectsAmong(values: seq<Json>): seq<Object> {
    if values == [] then []
    else
      var last := values[|values| - 1];
      ObjectsAmong(values[..|values| - 1]) + if last.Obj? then [last.fields] else []
  }

  function TextAt(texts: map<string, string>, key: string): Option<string> {
    if key in texts then Some(texts[key]) else None
  }

  ghost predicate CutsMessage(deltas: seq<Object>, m: Message) {
    && (forall key <- TEXT_KEYS :: CutsText(ValuesAt(deltas, key), TextAt(m.texts, key)))
    && (forall key :: IsOther(key) ==> LastNonNull(ValuesAt(deltas, key)) == Lookup(m.others, key))
    && (m.call.Some? <==> ObjectsAmong(ValuesAt(deltas, "function_call")) != [])
    && (m.call.Some? ==> CutsFunction(ObjectsAmong(ValuesAt(deltas, "function_call")), m.call.value))
    && CutsTools(ValuesAt(deltas, "tool_calls"), m.tools)
  }

  ghost predicate CutsChoice(parts: seq<Object>, c: Choice) {
    && (forall key :: key != "delta" && key != "message" ==> LastNonNull(ValuesAt(parts, key)) == Lookup(c.fields, key))
    && CutsMessage(Deltas(parts), c.message)
  }

  /** The choices asked for are the ones addressed, each by a cut of its own. */
  ghost predicate CutsChoices(items: seq<Json>, choices: map<Index, Choice>) {
    && (forall i :: i in choices <==> ItemsFor(items, i) != [])
    && (forall i <- choices :: CutsChoice(ItemsFor(items, i), choices[i]))
  }

  /** The chunks are a cut of the completion: at every path the addressed text fragments concatenate to
      its text, every other value arrives at least once and ends up last, and nothing else is
      addressed.  Choices, slots and fields may interleave in any way, and nulls may stand wherever the
      code ignores them. */
  ghost predicate Cuts(chunks: seq<Object>, w: Whole) {
    && (forall key :: key != "choices" && key != "object" ==> LastOf(ValuesAt(chunks, key)) == Lookup(w.root, key))
    && CutsChoices(AllItems(chunks), w.choices)
  }

  // ----- putting the pieces back together -----

  lemma {:induction false} FunctionFieldIsLast(key: string, prior: Option<Json>, values: seq<Json>)
    requires key != "arguments"
    ensures FoldKey(FunctionRule, key, prior, values) == Else(LastOf(values), prior)
  {
    if values != [] {
      FunctionFieldIsLast(key, prior, values[..|values| - 1]);
    }
  }

  lemma {:induction false} ToolFieldIsLast(key: string, prior: Option<Json>, values: seq<Json>)
    requires key != "index" && key != "function"
    ensures FoldKey(ToolRule, key, prior, values) == Else(LastOf(values), prior)
  {
    if values != [] {
      ToolFieldIsLast(key, prior, values[..|values| - 1]);
    }
  }

  lemma {:induction false} IndexIsDropped(prior: Option<Json>, values: seq<Json>)
    ensures FoldKey(ToolRule, "index", prior, values) == prior
  {
    if values != [] {
      IndexIsDropped(prior, values[..|values| - 1]);
    }
  }

  /** Function-call fragments merge; a value that is no object, such as null, changes nothing. */
  lemma {:induction false} CallIsMerged(prior: Option<Json>, values: seq<Json>)
    ensures FoldKey(MessageRule, "function_call", prior, values)
         == if ObjectsAmong(values) == [] then prior
            else Some(Obj(MergeAll(FunctionRule, FieldsOr(OrNull(prior)), ObjectsAmong(values))))
  {
    hide Merge;
    if values != [] {
      var init, last := values[..|values| - 1], values[|values| - 1];
      CallIsMerged(prior, init);
      Sequences.Unit(ObjectsAmong(init));
      if last.Obj? {
        Sequences.DropLast(ObjectsAmong(init), last.fields);
      }
    }
  }

  lemma FunctionRebuilt(parts: seq<Object>, f: Function)
    requires ProperFunction(f) && CutsFunction(parts, f)
    ensures MergeAll(FunctionRule, map[], parts) == RenderFunction(f)
  {
    forall key
      ensures Lookup(MergeAll(FunctionRule, map[], parts), key) == Lookup(RenderFunction(f), key)
    {
      KeyAlone(FunctionRule, map[], parts, key);
      if key == "arguments" {
        ArgumentsAreConcatenated(None, ValuesAt(parts, key));
        Sequences.Unit(Concat(Texts(ValuesAt(parts, key))));
      } else {
        FunctionFieldIsLast(key, None, ValuesAt(parts, key));
      }
    }
    SameLookups(MergeAll(FunctionRule, map[], parts), RenderFunction(f));
  }

  lemma ToolRebuilt(parts: seq<Object>, t: Tool)
    requires ProperTool(t) && CutsTool(parts, t)
    ensures MergeAll(ToolRule, map[], parts) == RenderTool(t)
  {
    forall key
      ensures Lookup(MergeAll(ToolRule, map[], parts), key) == Lookup(RenderTool(t), key)
    {
      KeyAlone(ToolRule, map[], parts, key);
      if key == "index" {
        IndexIsDropped(None, ValuesAt(parts, key));
      } else if key == "function" {
        FunctionIsMerged(None, ValuesAt(parts, key));
        if t.call.Some? {
          FunctionRebuilt(Objects(ValuesAt(parts, key)), t.call.value);
        }
      } else {
        ToolFieldIsLast(key, None, ValuesAt(parts, key));
      }
    }
    SameLookups(MergeAll(ToolRule, map[], parts), RenderTool(t));
  }

  lemma SlotCount(parts: seq<Json>, tools: seq<Tool>)
    requires CutsSlots(parts, tools)
    ensures |MergeParts([], parts)| == |tools|
  {
    SlotExists([], parts, |tools|);
    SlotExists([], parts, |MergeParts([], parts)|);
  }

  lemma SlotRebuilt(parts: seq<Json>, tools: seq<Tool>, slot: nat)
    requires slot < |tools| && ProperTool(tools[slot]) && CutsSlots(parts, tools)
    requires slot < |MergeParts([], parts)|
    ensures MergeParts([], parts)[slot] == Obj(RenderTool(tools[slot]))
  {
    SlotAlone([], parts, slot);
    ToolRebuilt(PartsFor(parts, slot), tools[slot]);
  }

  lemma SlotsRebuilt(parts: seq<Json>, tools: seq<Tool>)
    requires (forall t <- tools :: ProperTool(t)) && CutsSlots(parts, tools)
    ensures MergeParts([], parts) == RenderTools(tools)
  {
    hide ProperTool, RenderTool, CutsSlots, MergeParts;
    SlotCount(parts, tools);
    forall slot: nat | slot < |tools|
      ensures MergeParts([], parts)[slot] == RenderTools(tools)[slot]
    {
      SlotRebuilt(parts, tools, slot);
    }
  }

  lemma ToolsRebuilt(values: seq<Json>, tools: Option<seq<Tool>>)
    requires (tools.Some? ==> forall t <- tools.value :: ProperTool(t)) && CutsTools(values, tools)
    ensures FoldKey(MessageRule, "tool_calls", None, values) == ToolsField(tools)
  {
    hide ProperTool, CutsSlots, MergeParts, RenderTools;
    if tools.Some? {
      SlotsRebuilt(AllParts(values), tools.value);
      ToolsAreParts(None, values);
    }
  }

  lemma MessageRebuilt(deltas: seq<Object>, m: Message)
    requires ProperMessage(m) && CutsMessage(deltas, m)
    ensures MergeAll(MessageRule, BASE_MESSAGE, deltas) == RenderMessage(m)
  {
    forall key
      ensures Lookup(MergeAll(MessageRule, BASE_MESSAGE, deltas), key) == Lookup(RenderMessage(m), key)
    {
      MessageKeyRebuilt(deltas, m, key);
    }
    SameLookups(MergeAll(MessageRule, BASE_MESSAGE, deltas), RenderMessage(m));
  }

  function MessageLookup(m: Message, key: string): Option<Json> {
    match KindOf(key)
    case TextKind => Else(Lookup(RenderTexts(m.texts), key), Lookup(BASE_MESSAGE, key))
    case FunctionKind => FunctionValue(m.call)
    case ToolsKind => ToolsField(m.tools)
    case OtherKind => Else(Lookup(m.others, key), Lookup(BASE_MESSAGE, key))
  }

  lemma LookupSum(a: Object, b: Object, key: string)
    ensures Lookup(a + b, key) == Else(Lookup(b, key), Lookup(a, key))
  {
  }

  lemma LookupField(field: string, value: Option<Json>, key: string)
    ensures Lookup(Field(field, value), key) == if key == field then value else None
  {
  }

  lemma MessageLookups(m: Message, key: string)
    requires ProperMessage(m)
    ensures Lookup(RenderMessage(m), key) == MessageLookup(m, key)
  {
    var base, texts := BASE_MESSAGE, RenderTexts(m.texts);
    var call, tools := Field("function_call", FunctionValue(m.call)), Field("tool_calls", ToolsField(m.tools));
    KindsOfKeys(key);
    LookupSum(base, m.others, key);
    LookupSum(base + m.others, texts, key);
    LookupSum(base + m.others + texts, call, key);
    LookupSum(base + m.others + texts + call, tools, key);
    LookupField("function_call", FunctionValue(m.call), key);
    LookupField("tool_calls", ToolsField(m.tools), key);
    BaseKinds(key);
  }

  lemma BaseKinds(key: string)
    ensures key in BASE_MESSAGE ==> KindOf(key) == TextKind || KindOf(key) == OtherKind
  {
  }

  lemma TextRebuilt(deltas: seq<Object>, m: Message, key: string)
    requires key in TEXT_KEYS && CutsMessage(deltas, m)
    ensures FoldKey(MessageRule, key, Lookup(BASE_MESSAGE, key), ValuesAt(deltas, key)) == MessageLookup(m, key)
  {
    var values := ValuesAt(deltas, key);
    KindsOfKeys(key);
    assert CutsText(values, TextAt(m.texts, key));
    TextIsConcatenated(key, Lookup(BASE_MESSAGE, key), values);
    Sequences.Unit(Concat(Texts(values)));
  }

  lemma CallRebuilt(deltas: seq<Object>, m: Message)
    requires ProperMessage(m) && CutsMessage(deltas, m)
    ensures FoldKey(MessageRule, "function_call", None, ValuesAt(deltas, "function_call")) == FunctionValue(m.call)
  {
    var values := ValuesAt(deltas, "function_call");
    CallIsMerged(None, values);
    if m.call.Some? {
      FunctionRebuilt(ObjectsAmong(values), m.call.value);
    }
  }

  lemma MessageKeyRebuilt(deltas: seq<Object>, m: Message, key: string)
    requires ProperMessage(m) && CutsMessage(deltas, m)
    ensures Lookup(MergeAll(MessageRule, BASE_MESSAGE, deltas), key) == Lookup(RenderMessage(m), key)
  {
    KeyAlone(MessageRule, BASE_MESSAGE, deltas, key);
    MessageLookups(m, key);
    KindsOfKeys(key);
    match KindOf(key) {
      case TextKind => TextRebuilt(deltas, m, key);
      case FunctionKind => CallRebuilt(deltas, m);
      case ToolsKind => ToolsRebuilt(ValuesAt(deltas, "tool_calls"), m.tools);
      case OtherKind => OtherFieldIsLast(key, Lookup(BASE_MESSAGE, key), ValuesAt(deltas, key));
    }
  }

  lemma ChoiceLookups(index: Index, c: Choice, key: string)
    requires ProperChoice(c)
    ensures Lookup(RenderChoice(index, c), key)
         == if key == "message" then Some(Obj(RenderMessage(c.message)))
            else Else(Lookup(c.fields, key), Lookup(FreshChoice(index), key))
  {
  }

  lemma ChoiceKeyRebuilt(index: Index, parts: seq<Object>, c: Choice, key: string)
    requires ProperChoice(c) && CutsChoice(parts, c) && key != "message"
    ensures Lookup(MergeAll(ChoiceRule, FreshChoice(index), parts), key) == Lookup(RenderChoice(index, c), key)
  {
    var prior := Lookup(FreshChoice(index), key);
    ChoiceLookups(index, c, key);
    KeyAlone(ChoiceRule, FreshChoice(index), parts, key);
    if key == "delta" {
      DeltaIsDropped(prior, ValuesAt(parts, key));
    } else {
      ChoiceFieldIsLast(key, prior, ValuesAt(parts, key));
    }
  }

  lemma FreshMessage(index: Index)
    ensures ChoiceReady(FreshChoice(index)) && MessageOf(FreshChoice(index)) == BASE_MESSAGE
  {
  }

  lemma ChoiceRebuilt(index: Index, parts: seq<Object>, c: Choice)
    requires ProperChoice(c) && CutsChoice(parts, c)
    ensures FoldChoice(FreshChoice(index), parts) == RenderChoice(index, c)
  {
    var folded := FoldChoice(FreshChoice(index), parts);
    FreshMessage(index);
    MessageIsDeltas(FreshChoice(index), parts);
    MessageRebuilt(Deltas(parts), c.message);
    ChoiceLookups(index, c, "message");
    forall key
      ensures Lookup(folded, key) == Lookup(RenderChoice(index, c), key)
    {
      if key != "message" {
        ChoiceField(FreshChoice(index), parts, key);
        ChoiceKeyRebuilt(index, parts, c, key);
      }
    }
    SameLookups(folded, RenderChoice(index, c));
  }

  lemma {:induction false} DeltaIsDropped(prior: Option<Json>, values: seq<Json>)
    ensures FoldKey(ChoiceRule, "delta", prior, values) == prior
  {
    if values != [] {
      DeltaIsDropped(prior, values[..|values| - 1]);
    }
  }

  lemma ChoiceAtRebuilt(items: seq<Json>, choices: map<Index, Choice>, i: Index)
    requires CutsChoices(items, choices) && ProperChoices(choices) && i in choices
    ensures ChoiceAt(MergeItems(map[], items), i) == RenderChoice(i, choices[i])
  {
    ChoiceAlone(map[], items, i);
    ChoiceRebuilt(i, ItemsFor(items, i), choices[i]);
  }

  lemma ChoiceKeys(items: seq<Json>, choices: map<Index, Choice>)
    requires forall i :: i in choices <==> ItemsFor(items, i) != []
    ensures MergeItems(map[], items).Keys == choices.Keys
  {
    forall i
      ensures i in MergeItems(map[], items) <==> i in choices
    {
      ChoiceAlone(map[], items, i);
    }
  }

  ghost predicate AllRebuilt(merged: Choices, choices: map<Index, Choice>) {
    forall i <- choices :: ChoiceAt(merged, i) == RenderChoice(i, choices[i])
  }

  lemma ChoicesRebuilt(items: seq<Json>, choices: map<Index, Choice>)
    requires CutsChoices(items, choices) && ProperChoices(choices)
    ensures AllRebuilt(MergeItems(map[], items), choices)
  {
    var merged := MergeItems(map[], items);
    forall i | i in choices
      ensures ChoiceAt(merged, i) == RenderChoice(i, choices[i])
    {
      ChoiceAtRebuilt(items, choices, i);
    }
  }

  lemma RootRebuilt(chunks: seq<Object>, w: Whole)
    requires Proper(w) && Cuts(chunks, w)
    ensures MergeAll(RootRule, map[], chunks) == w.root
  {
    forall key
      ensures Lookup(MergeAll(RootRule, map[], chunks), key) == Lookup(w.root, key)
    {
      KeyAlone(RootRule, map[], chunks, key);
      if key == "choices" || key == "object" {
        ReservedIsDropped(key, None, ValuesAt(chunks, key));
      } else {
        RootFieldIsLast(key, None, ValuesAt(chunks, key));
      }
    }
    SameLookups(MergeAll(RootRule, map[], chunks), w.root);
  }

  lemma {:induction false} ReservedIsDropped(key: string, prior: Option<Json>, values: seq<Json>)
    requires key == "choices" || key == "object"
    ensures FoldKey(RootRule, key, prior, values) == prior
  {
    if values != [] {
      ReservedIsDropped(key, prior, values[..|values| - 1]);
    }
  }

  lemma SameLists(choices: Choices, rendered: map<Index, Choice>)
    requires choices.Keys == rendered.Keys
    requires AllRebuilt(choices, rendered)
    ensures forall i <- Ascending(choices.Keys) :: i in choices
    ensures ChoiceList(choices, Ascending(choices.Keys)) == RenderChoices(rendered)
  {
    hide RenderChoice, Ascending, Strict, FreshChoice;
    AscendingIsStrict(rendered.Keys);
    var order := Ascending(rendered.Keys);
    assert forall i <- order :: i in Members(order);
    var a, b := ChoiceList(choices, order), RenderChoices(rendered);
    forall n | 0 <= n < |order|
      ensures a[n] == b[n]
    {
      assert ChoiceAt(choices, order[n]) == choices[order[n]];
    }
  }

  lemma RenderedFrom(end: State, w: Whole)
    requires end.root == w.root && end.choices.Keys == w.choices.Keys
    requires AllRebuilt(end.choices, w.choices)
    ensures Assembled(end) == Render(w)
  {
    SameLists(end.choices, w.choices);
  }

  /** Reassembly: any cut of any completion, within the cap, is rebuilt exactly, with its choices in
      strictly ascending order. */
  lemma Rebuilt(decode: Decoder, payloads: seq<string>, w: Whole)
    requires Proper(w) && Cuts(Chunks(decode, payloads), w)
    requires Bytes(payloads) <= CAP && forall p <- payloads :: !IsDone(p) ==> decode(p).Some?
    ensures var (end, error) := AddAll(decode, EMPTY, payloads);
            error.None? && end.choices.Keys == w.choices.Keys && Assembled(end) == Render(w)
  {
    var chunks := Chunks(decode, payloads);
    var end := AddAll(decode, EMPTY, payloads).0;
    AcceptedRun(decode, EMPTY, payloads);
    ChunksSplit(EMPTY, chunks);
    RootRebuilt(chunks, w);
    ChoiceKeys(AllItems(chunks), w.choices);
    ChoicesRebuilt(AllItems(chunks), w.choices);
    RenderedFrom(end, w);
  }

  // ----- nulls -----

  lemma {:induction false} TextsOfSum(a: seq<Json>, b: seq<Json>)
    ensures Texts(a + b) == Texts(a) + Texts(b)
    ensures ObjectsAmong(a + b) == ObjectsAmong(a) + ObjectsAmong(b)
  {
    if b == [] {
      Sequences.Unit(a);
      Sequences.Unit(Texts(a));
      Sequences.Unit(ObjectsAmong(a));
    } else {
      var init, last := b[..|b| - 1], b[|b| - 1];
      Sequences.AppendLast(a, b);
      TextsOfSum(a, init);
      Sequences.Assoc(Texts(a), Texts(init), [TextOr(last)]);
      Sequences.Assoc(ObjectsAmong(a), ObjectsAmong(init), if last.Obj? then [last.fields] else []);
    }
  }

  lemma TextsOfNull()
    ensures Texts([Null]) == [""] && Concat([""]) == "" && ObjectsAmong([Null]) == []
  {
    assert [Null][..0] == [];
  }

  /** A null among the fragments of a text field or of a function call makes no difference to what they
      are a cut of. */
  lemma NullsAreIgnored(before: seq<Json>, after: seq<Json>, text: Option<string>)
    ensures CutsText(before + [Null] + after, text) <==> CutsText(before + after, text)
    ensures ObjectsAmong(before + [Null] + after) == ObjectsAmong(before + after)
  {
    hide Texts, ObjectsAmong, Concat;
    var with := before + [Null] + after;
    assert forall v :: v in with <==> v in before + after || v == Null;
    assert forall v: Json :: v.Str? ==> (v in with <==> v in before + after);
    TextsOfNull();
    TextsOfSum(before, [Null]);
    TextsOfSum(before + [Null], after);
    TextsOfSum(before, after);
    Sequences.Unit(ObjectsAmong(before));
    ConcatAppend(Texts(before), [""]);
    ConcatAppend(Texts(before) + [""], Texts(after));
    ConcatAppend(Texts(before), Texts(after));
    Sequences.Unit(Concat(Texts(before)));
  }
}
