/** Merging objects key by key: what one `range` loop over a Go map computes when the value it writes
    at a key depends on that key alone. */
module Pointwise {
  import opened Text
  import opened Json
  import Sequences

  /** From a key, the value already there (`Null` when there is none) and the incoming value: the value
      to store, if any. */
  type Rule = (string, Json, Json) -> Option<Json>

  predicate Stores(rule: Rule, dst: Object, part: Object, key: string) {
    key in part && rule(key, Get(dst, key), part[key]).Some?
  }

  function Merge(rule: Rule, dst: Object, part: Object): Object {
    map key | key in dst.Keys + part.Keys && (key in dst || Stores(rule, dst, part, key)) ::
      if Stores(rule, dst, part, key) then rule(key, Get(dst, key), part[key]).value else dst[key]
  }

  /** The loop has ranged over all keys but `rest`, in whatever order, and now takes `key`. */
  lemma MergeStep(rule: Rule, dst: Object, part: Object, rest: set<string>, key: string)
    requires key in rest && rest <= part.Keys
    ensures var before := Merge(rule, dst, part - rest);
            var stored := rule(key, Get(before, key), part[key]);
            && Get(before, key) == Get(dst, key)
            && Merge(rule, dst, part - (rest - {key})) == if stored.Some? then before[key := stored.value] else before
  {
    var before, after := Merge(rule, dst, part - rest), Merge(rule, dst, part - (rest - {key}));
    var stored := rule(key, Get(dst, key), part[key]);
    assert Get(before, key) == Get(dst, key);
    assert forall k :: k != key ==>
                         (Stores(rule, dst, part - rest, k) <==> Stores(rule, dst, part - (rest - {key}), k));
  }

  lemma MergeNothing(rule: Rule, dst: Object, part: Object)
    ensures Merge(rule, dst, part - part.Keys) == dst
    ensures part - {} == part
  {
  }

  // ----- many merges, one key -----

  /** Every part in turn. */
  function MergeAll(rule: Rule, dst: Object, parts: seq<Object>): Object {
    if parts == [] then dst else Merge(rule, MergeAll(rule, dst, parts[..|parts| - 1]), parts[|parts| - 1])
  }

  function Lookup(o: Object, key: string): Option<Json> {
    if key in o then Some(o[key]) else None
  }

  function OrNull(v: Option<Json>): Json {
    if v.Some? then v.value else Null
  }

  /** The values that a list of parts holds at one key. */
  function ValuesAt(parts: seq<Object>, key: string): seq<Json> {
    if parts == [] then []
    else
      var last := parts[|parts| - 1];
      ValuesAt(parts[..|parts| - 1], key) + if key in last then [last[key]] else []
  }

  /** One key on its own. */
  function FoldKey(rule: Rule, key: string, prior: Option<Json>, values: seq<Json>): Option<Json> {
    if values == [] then prior
    else
      var before := FoldKey(rule, key, prior, values[..|values| - 1]);
      var stored := rule(key, OrNull(before), values[|values| - 1]);
      if stored.Some? then stored else before
  }

  /** What a key holds after any sequence of merges depends only on the values addressed to it. */
  lemma {:induction false} KeyAlone(rule: Rule, dst: Object, parts: seq<Object>, key: string)
    ensures Lookup(MergeAll(rule, dst, parts), key) == FoldKey(rule, key, Lookup(dst, key), ValuesAt(parts, key))
  {
    if parts != [] {
      var init, last := parts[..|parts| - 1], parts[|parts| - 1];
      KeyAlone(rule, dst, init, key);
      var values := ValuesAt(init, key);
      if key in last {
        Sequences.DropLast(values, last[key]);
      } else {
        Sequences.Unit(values);
      }
    }
  }

  /** Two sequences of parts that address the same values to every key merge to the same object. */
  lemma SameValuesSameObject(rule: Rule, dst: Object, a: seq<Object>, b: seq<Object>)
    requires forall key :: ValuesAt(a, key) == ValuesAt(b, key)
    ensures MergeAll(rule, dst, a) == MergeAll(rule, dst, b)
  {
    var x, y := MergeAll(rule, dst, a), MergeAll(rule, dst, b);
    forall key
      ensures Lookup(x, key) == Lookup(y, key)
    {
      KeyAlone(rule, dst, a, key);
      KeyAlone(rule, dst, b, key);
    }
    SameLookups(x, y);
  }

  lemma SameLookups(x: Object, y: Object)
    requires forall key :: Lookup(x, key) == Lookup(y, key)
    ensures x == y
  {
    forall key
      ensures key in x <==> key in y
      ensures key in x && key in y ==> x[key] == y[key]
    {
      assert Lookup(x, key) == Lookup(y, key);
    }
  }
}
