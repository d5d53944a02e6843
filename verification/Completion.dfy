/** The assembler of aggregated completions: `nativeCompletion` with `mergeNativeDelta` and
    `mergeNativeFunction`.  The nested Go maps are map values that the methods reassign; every
    `range` over a Go map is a loop that picks an arbitrary key. */
module Completion {
  import opened Text
  import opened Json
  import opened Pointwise
  import Sequences

  /** 64 MiB of payloads. */
  const CAP: nat := 64 * 1024 * 1024
  const MAX_SLOT: nat := 1024

  /** `nativeIndex`: 0 when the value is not a number. */
  function NativeIndex(v: Json): int {
    if v.Num? then Truncate(v.number) else 0
  }

  // ----- what is stored at a key, level by level -----

  function FunctionRule(key: string, prior: Json, value: Json): Option<Json> {
    Some(if key == "arguments" then Str(TextOr(prior) + TextOr(value)) else value)
  }

  function ToolRule(key: string, prior: Json, value: Json): Option<Json> {
    if key == "index" then None
    else if key == "function" then Some(Obj(Merge(FunctionRule, FieldsOr(prior), FieldsOr(value))))
    else Some(value)
  }

  datatype Kind = TextKind | FunctionKind | ToolsKind | OtherKind

  function KindOf(key: string): Kind {
    if key == "content" || key == "reasoning_content" || key == "reasoning" || key == "refusal" then TextKind
    else if key == "function_call" then FunctionKind
    else if key == "tool_calls" then ToolsKind
    else OtherKind
  }

  function KindRule(kind: Kind, prior: Json, value: Json): Option<Json> {
    match kind
    case TextKind =>
      if value.Str? then Some(Str(TextOr(prior) + value.text))
      else if value != Null then Some(value) else None
    case FunctionKind =>
      if value.Obj? then Some(Obj(Merge(FunctionRule, FieldsOr(prior), value.fields))) else None
    case ToolsKind => Some(ToolsValue(MergeParts(ItemsOr(prior), ItemsOr(value))))
    case OtherKind => if value != Null then Some(value) else None
  }

  function MessageRule(key: string, prior: Json, value: Json): Option<Json> {
    KindRule(KindOf(key), prior, value)
  }

  function ChoiceRule(key: string, prior: Json, value: Json): Option<Json> {
    if key == "delta" || key == "message" || value == Null then None else Some(value)
  }

  function RootRule(key: string, prior: Json, value: Json): Option<Json> {
    if key == "choices" || key == "object" then None else Some(value)
  }

  // ----- tool slots -----

  /** The slot a tool-call fragment addresses, when it addresses one. */
  function SlotOf(part: Json): Option<nat> {
    if part.Obj? && 0 <= NativeIndex(Get(part.fields, "index")) <= MAX_SLOT then
      Some(NativeIndex(Get(part.fields, "index")))
    else
      None
  }

  /** Empty slots up to length `n`. */
  function Grow(tools: seq<Json>, n: nat): (grown: seq<Json>)
    ensures |grown| == if |tools| < n then n else |tools|
    ensures tools <= grown
    ensures forall s :: |tools| <= s < |grown| ==> grown[s] == Obj(map[])
    decreases n - |tools|
  {
    if |tools| < n then Grow(tools + [Obj(map[])], n) else tools
  }

  function MergePart(tools: seq<Json>, part: Json): seq<Json> {
    match SlotOf(part)
    case None => tools
    case Some(slot) =>
      var grown := Grow(tools, slot + 1);
      grown[slot := Obj(Merge(ToolRule, FieldsOr(grown[slot]), part.fields))]
  }

  function MergeParts(tools: seq<Json>, parts: seq<Json>): seq<Json> {
    if parts == [] then tools else MergePart(MergeParts(tools, parts[..|parts| - 1]), parts[|parts| - 1])
  }

  /** A Go nil slice prints as `null`. */
  function ToolsValue(tools: seq<Json>): Json {
    if tools == [] then Null else Arr(tools)
  }

  /** A list of tool slots: objects only, and at most 1025 of them. */
  predicate Slots(tools: seq<Json>) {
    |tools| <= MAX_SLOT + 1 && forall t <- tools :: t.Obj?
  }

  /** What the unchecked assertions on tool slots rely on. */
  predicate ToolsReady(message: Object) {
    Slots(ItemsOr(Get(message, "tool_calls")))
  }

  // ----- mergeNativeFunction and mergeNativeDelta -----

  method MergeNativeFunction(dst: Object, part: Object) returns (out: Object)
    ensures out == Merge(FunctionRule, dst, part)
  {
    out := dst;
    var rest := part.Keys;
    MergeNothing(FunctionRule, dst, part);
    while rest != {}
      invariant rest <= part.Keys
      invariant out == Merge(FunctionRule, dst, part - rest)
    {
      var key :| key in rest;
      MergeStep(FunctionRule, dst, part, rest, key);
      if key == "arguments" {
        var prior := TextOr(Get(out, key));
        var text := TextOr(part[key]);
        out := out[key := Str(prior + text)];
      } else {
        out := out[key := part[key]];
      }
      rest := rest - {key};
    }
  }

  /** The loop over one tool-call fragment. */
  method MergeNativeTool(target: Object, tool: Object) returns (out: Object)
    ensures out == Merge(ToolRule, target, tool)
  {
    out := target;
    var rest := tool.Keys;
    MergeNothing(ToolRule, target, tool);
    while rest != {}
      invariant rest <= tool.Keys
      invariant out == Merge(ToolRule, target, tool - rest)
    {
      var name :| name in rest;
      MergeStep(ToolRule, target, tool, rest, name);
      if name != "index" {
        var value := tool[name];
        if name == "function" {
          var current := MergeNativeFunction(FieldsOr(Get(out, name)), FieldsOr(value));
          out := out[name := Obj(current)];
        } else {
          out := out[name := value];
        }
      }
      rest := rest - {name};
    }
  }

  method GrowTo(before: seq<Json>, n: nat) returns (tools: seq<Json>)
    requires Slots(before) && n <= MAX_SLOT + 1
    ensures tools == Grow(before, n) && Slots(tools)
  {
    tools := before;
    while |tools| < n
      invariant Slots(tools) && Grow(tools, n) == Grow(before, n)
    {
      tools := tools + [Obj(map[])];
    }
  }

  /** The `tool_calls` case.  The read of `tools[index].fields` is the unchecked assertion. */
  method MergeNativeTools(dst: Json, value: Json) returns (out: Json)
    requires Slots(ItemsOr(dst))
    ensures Some(out) == KindRule(ToolsKind, dst, value) && Slots(ItemsOr(out))
  {
    var parts := ItemsOr(value);
    var tools := ItemsOr(dst);
    for i := 0 to |parts|
      invariant tools == MergeParts(ItemsOr(dst), parts[..i]) && Slots(tools)
    {
      var part := parts[i];
      assert parts[..i + 1][..i] == parts[..i];
      if part.Obj? {
        var tool := part.fields;
        var index := NativeIndex(Get(tool, "index"));
        if 0 <= index <= MAX_SLOT {
          tools := GrowTo(tools, index + 1);
          var target := MergeNativeTool(tools[index].fields, tool);
          tools := tools[index := Obj(target)];
        }
      }
    }
    assert parts[..|parts|] == parts;
    out := ToolsValue(tools);
  }

  method MergeNativeDelta(dst: Object, delta: Object) returns (out: Object)
    requires ToolsReady(dst)
    ensures out == Merge(MessageRule, dst, delta) && ToolsReady(out)
  {
    out := dst;
    var rest := delta.Keys;
    MergeNothing(MessageRule, dst, delta);
    while rest != {}
      invariant rest <= delta.Keys
      invariant out == Merge(MessageRule, dst, delta - rest) && ToolsReady(out)
    {
      var key :| key in rest;
      MergeStep(MessageRule, dst, delta, rest, key);
      var value := delta[key];
      var kind := KindOf(key);
      assert key == "tool_calls" <==> kind == ToolsKind;
      match kind {
        case TextKind =>
          if value.Str? {
            out := out[key := Str(TextOr(Get(out, key)) + value.text)];
          } else if value != Null {
            out := out[key := value];
          }
        case FunctionKind =>
          if value.Obj? {
            var target := MergeNativeFunction(FieldsOr(Get(out, key)), value.fields);
            out := out[key := Obj(target)];
          }
        case ToolsKind =>
          var tools := MergeNativeTools(Get(out, key), value);
          out := out[key := tools];
        case OtherKind =>
          if value != Null {
            out := out[key := value];
          }
      }
      rest := rest - {key};
    }
  }

  // ----- choices -----

  /** The key of a choice. */
  datatype Index = Index(value: int)

  type Choices = map<Index, Object>

  function FreshChoice(index: Index): Object {
    map[
      "index" := Num(index.value as real),
      "message" := Obj(map["role" := Str("assistant"), "content" := Str("")]),
      "finish_reason" := Null
    ]
  }

  function MessageOf(choice: Object): Object {
    FieldsOr(Get(choice, "message"))
  }

  function DeltaOf(choice: Object): Json {
    Get(choice, "delta")
  }

  /** One choice of a chunk, merged into the choice kept so far. */
  function MergeChoice(out: Object, choice: Object): Object {
    var merged := Merge(ChoiceRule, out, choice);
    if DeltaOf(choice).Obj? then
      merged["message" := Obj(Merge(MessageRule, MessageOf(out), DeltaOf(choice).fields))]
    else
      merged
  }

  function IndexOf(choice: Object): Index {
    Index(NativeIndex(Get(choice, "index")))
  }

  function ChoiceAt(choices: Choices, index: Index): Object {
    if index in choices then choices[index] else FreshChoice(index)
  }

  function MergeItem(choices: Choices, item: Json): Choices {
    if item.Obj? then
      var index := IndexOf(item.fields);
      choices[index := MergeChoice(ChoiceAt(choices, index), item.fields)]
    else
      choices
  }

  function MergeItems(choices: Choices, items: seq<Json>): Choices {
    if items == [] then choices
    else MergeItem(MergeItems(choices, items[..|items| - 1]), items[|items| - 1])
  }

  /** Every choice has an object as its message, with proper tool slots: no assertion can fail. */
  predicate ChoiceReady(choice: Object) {
    "message" in choice && choice["message"].Obj? && ToolsReady(MessageOf(choice))
  }

  ghost predicate Ready(choices: Choices) {
    forall i :: i in choices ==> ChoiceReady(choices[i])
  }

  /** One choice of a chunk.  The read of `out["message"].fields` is the unchecked assertion. */
  method MergeNativeChoice(before: Object, choice: Object) returns (out: Object)
    requires ChoiceReady(before)
    ensures out == MergeChoice(before, choice) && ChoiceReady(out)
  {
    out := before;
    var rest := choice.Keys;
    MergeNothing(ChoiceRule, before, choice);
    while rest != {}
      invariant rest <= choice.Keys
      invariant out == Merge(ChoiceRule, before, choice - rest)
      invariant "message" in out && out["message"] == before["message"]
    {
      var key :| key in rest;
      MergeStep(ChoiceRule, before, choice, rest, key);
      if key != "delta" && key != "message" && choice[key] != Null {
        out := out[key := choice[key]];
      }
      rest := rest - {key};
    }
    if DeltaOf(choice).Obj? {
      var message := MergeNativeDelta(out["message"].fields, DeltaOf(choice).fields);
      out := out["message" := Obj(message)];
    }
  }

  lemma ReadyAt(choices: Choices, index: Index)
    requires Ready(choices)
    ensures ChoiceReady(ChoiceAt(choices, index))
  {
  }

  lemma MergeItemsStep(choices: Choices, items: seq<Json>, i: nat)
    requires i < |items|
    ensures MergeItems(choices, items[..i + 1]) == MergeItem(MergeItems(choices, items[..i]), items[i])
  {
    assert items[..i + 1][..i] == items[..i];
  }

  /** The loop over the choices of a chunk. */
  method MergeNativeChoices(before: Choices, items: seq<Json>) returns (choices: Choices)
    requires Ready(before)
    ensures choices == MergeItems(before, items) && Ready(choices)
  {
    choices := before;
    for i := 0 to |items|
      invariant Ready(choices) && choices == MergeItems(before, items[..i])
    {
      MergeItemsStep(before, items, i);
      if items[i].Obj? {
        var choice := items[i].fields;
        var index := IndexOf(choice);
        ReadyAt(choices, index);
        var out := MergeNativeChoice(ChoiceAt(choices, index), choice);
        choices := choices[index := out];
      }
    }
    Sequences.Ends(items);
  }

  // ----- the whole state -----

  datatype State = State(root: Object, choices: Choices, size: nat)

  datatype AddError = TooLarge | Undecodable

  /** `json.Unmarshal` into `map[string]any`; `null` gives an empty object. */
  type Decoder = string -> Option<Object>

  const EMPTY: State := State(map[], map[], 0)

  function AddChunk(st: State, chunk: Object): State {
    st.(root := Merge(RootRule, st.root, chunk),
        choices := MergeItems(st.choices, ItemsOr(Get(chunk, "choices"))))
  }

  /** The state and the error after one payload. */
  function AddPayload(decode: Decoder, st: State, data: string): (State, Option<AddError>) {
    if TrimSpace(data) == "[DONE]" then (st, None)
    else
      var counted := st.(size := st.size + |data|);
      if counted.size > CAP then (counted, Some(TooLarge))
      else
        match decode(data)
        case None => (counted, Some(Undecodable))
        case Some(chunk) => (AddChunk(counted, chunk), None)
  }

  /** The keys in strictly ascending order. */
  ghost function Ascending(keys: set<Index>): seq<Index> {
    if keys == {} then []
    else
      var least := Least(keys);
      [least] + Ascending(keys - {least})
  }

  ghost function Least(keys: set<Index>): (least: Index)
    requires keys != {}
    ensures least in keys && forall k <- keys :: least.value <= k.value
  {
    LeastExists(keys);
    var least :| least in keys && forall k <- keys :: least.value <= k.value;
    least
  }

  lemma {:induction false} LeastExists(keys: set<Index>)
    requires keys != {}
    ensures exists least :: least in keys && forall k <- keys :: least.value <= k.value
  {
    var x :| x in keys;
    if keys != {x} {
      LeastExists(keys - {x});
      var y :| y in keys - {x} && forall k <- keys - {x} :: y.value <= k.value;
      var least := if x.value < y.value then x else y;
      forall k | k in keys
        ensures least.value <= k.value
      {
        assert k == x || k in keys - {x};
      }
    }
  }

  ghost predicate Strict(indices: seq<Index>) {
    forall i, j :: 0 <= i < j < |indices| ==> indices[i].value < indices[j].value
  }

  ghost function Members(indices: seq<Index>): set<Index> {
    set i | i in indices
  }

  lemma MembersCons(x: Index, tail: seq<Index>)
    ensures Members([x] + tail) == {x} + Members(tail)
  {
    assert forall i :: i in [x] + tail <==> i == x || i in tail;
  }

  lemma StrictCons(x: Index, tail: seq<Index>)
    requires Strict(tail) && forall t <- tail :: x.value < t.value
    ensures Strict([x] + tail)
  {
  }

  lemma {:induction false} AscendingIsStrict(keys: set<Index>)
    ensures Strict(Ascending(keys)) && Members(Ascending(keys)) == keys
  {
    if keys != {} {
      var least := Least(keys);
      var tail := Ascending(keys - {least});
      AscendingIsStrict(keys - {least});
      assert forall t <- tail :: t in Members(tail);
      StrictCons(least, tail);
      MembersCons(least, tail);
    }
  }

  /** Only one sequence lists these keys in strictly ascending order. */
  lemma {:induction false} StrictIsAscending(indices: seq<Index>)
    requires Strict(indices)
    ensures indices == Ascending(Members(indices))
  {
    if indices != [] {
      var first, tail := indices[0], indices[1..];
      Sequences.HeadTail(indices);
      MembersCons(first, tail);
      StrictIsAscending(tail);
      assert Least(Members(indices)) == first;
      assert Members(tail) == Members(indices) - {first};
    } else {
      assert Members(indices) == {};
    }
  }

  function ChoiceList(choices: Choices, indices: seq<Index>): seq<Json>
    requires forall i <- indices :: i in choices
  {
    seq(|indices|, n requires 0 <= n < |indices| => Obj(choices[indices[n]]))
  }

  /** The completion that `result` marshals. */
  ghost function Assembled(st: State): Object {
    AscendingIsStrict(st.choices.Keys);
    assert forall i <- Ascending(st.choices.Keys) :: i in Members(Ascending(st.choices.Keys));
    st.root["choices" := Arr(ChoiceList(st.choices, Ascending(st.choices.Keys)))]
           ["object" := Str("chat.completion")]
  }

  /** `sort.Ints`, by insertion. */
  method Insert(sorted: seq<Index>, x: Index) returns (out: seq<Index>)
    requires Strict(sorted) && x !in sorted
    ensures Strict(out) && Members(out) == Members(sorted) + {x}
  {
    var n := 0;
    while n < |sorted| && sorted[n].value < x.value
      invariant 0 <= n <= |sorted|
      invariant forall i :: 0 <= i < n ==> sorted[i].value < x.value
    {
      n := n + 1;
    }
    out := sorted[..n] + [x] + sorted[n..];
    assert Members(out) == Members(sorted) + {x} by {
      assert sorted == sorted[..n] + sorted[n..];
    }
  }

  /** Collects the keys in the arbitrary order of the map and sorts them. */
  method SortIndices(keys: set<Index>) returns (indices: seq<Index>)
    ensures indices == Ascending(keys)
  {
    indices := [];
    var rest := keys;
    while rest != {}
      invariant rest <= keys
      invariant Strict(indices) && Members(indices) == keys - rest
    {
      var index :| index in rest;
      assert index !in Members(indices);
      indices := Insert(indices, index);
      rest := rest - {index};
    }
    assert keys - {} == keys;
    StrictIsAscending(indices);
  }

  class NativeCompletion {
    var root: Object
    var choices: Choices
    var size: nat

    ghost predicate Valid()
      reads this
    {
      Ready(choices)
    }

    ghost function Model(): State
      reads this
    {
      State(root, choices, size)
    }

    constructor ()
      ensures Valid() && Model() == EMPTY
    {
      root, choices, size := map[], map[], 0;
    }

    method AddRoot(chunk: Object)
      modifies this`root
      ensures root == Merge(RootRule, old(root), chunk)
    {
      var rest := chunk.Keys;
      MergeNothing(RootRule, root, chunk);
      while rest != {}
        invariant rest <= chunk.Keys
        invariant root == Merge(RootRule, old(root), chunk - rest)
      {
        var key :| key in rest;
        MergeStep(RootRule, old(root), chunk, rest, key);
        if key != "choices" && key != "object" {
          root := root[key := chunk[key]];
        }
        rest := rest - {key};
      }
    }

    /** `add` */
    method Add(data: string, decode: Decoder) returns (error: Option<AddError>)
      requires Valid()
      modifies this
      ensures Valid()
      ensures (Model(), error) == AddPayload(decode, old(Model()), data)
    {
      hide Ready, Merge, MergeItems, TrimSpace;
      if TrimSpace(data) == "[DONE]" {
        return None;
      }
      size := size + |data|;
      if size > CAP {
        return Some(TooLarge);
      }
      match decode(data) {
        case None => return Some(Undecodable);
        case Some(chunk) =>
          AddRoot(chunk);
          var items := ItemsOr(Get(chunk, "choices"));
          choices := MergeNativeChoices(choices, items);
          return None;
      }
    }

    /** `result`: an error without choices, else the root with the choices in ascending order. */
    method Result() returns (r: Option<Object>)
      modifies this`root
      ensures choices == map[] ==> r == None && root == old(root)
      ensures choices != map[] ==> r == Some(Assembled(old(Model()))) && root == r.value
    {
      if |choices| == 0 {
        return None;
      }
      var indices := SortIndices(choices.Keys);
      AscendingIsStrict(choices.Keys);
      assert forall i <- indices :: i in Members(indices);
      root := root["choices" := Arr(ChoiceList(choices, indices))];
      root := root["object" := Str("chat.completion")];
      r := Some(root);
    }
  }
}
