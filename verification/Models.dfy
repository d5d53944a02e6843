/** The models of a credential: the checks of `decodeNativeAuth`, the list that `model.for_auth`
    publishes, and the lookup that `executeNative` makes. */
module Models {
  import opened Text
  import Sequences

  datatype Model = Model(name: string, alias: string)

  datatype Rejection = MuseModel | InvalidModel(name: string) | AmbiguousAlias

  /** What the checks depend on: Unicode lower-casing and the `free_tier.paid_models` setting. */
  datatype Policy = Policy(lower: string -> string, paidModels: seq<string>)

  function AfterLastSlash(s: string): string {
    if s == "" then ""
    else if '/' in s[1..] then AfterLastSlash(s[1..])
    else if s[0] == '/' then s[1..] else s
  }

  /** `lastSegment` */
  function LastSegment(policy: Policy, model: string): string {
    TrimSpace(AfterLastSlash(policy.lower(TrimSpace(model))))
  }

  /** `isExplicitPaidModel` */
  predicate ExplicitlyPaid(policy: Policy, segment: string) {
    exists paid <- policy.paidModels :: LastSegment(policy, paid) != "" && LastSegment(policy, paid) == segment
  }

  function TrimModel(m: Model): Model {
    Model(TrimSpace(m.name), TrimSpace(m.alias))
  }

  predicate IsMuse(policy: Policy, m: Model) {
    HasPrefix(LastSegment(policy, m.name), "muse-")
  }

  predicate IsInvalid(policy: Policy, m: Model) {
    || m.name == ""
    || '\r' in m.name + m.alias
    || '\n' in m.name + m.alias
    || ExplicitlyPaid(policy, LastSegment(policy, m.name))
  }

  predicate Offers(m: Model, id: string) {
    id != "" && (id == m.name || id == m.alias)
  }

  /** Two models agree when no id stands for both of two names. */
  ghost predicate Agree(a: Model, b: Model) {
    a.name == b.name || forall id :: !(Offers(a, id) && Offers(b, id))
  }

  ghost predicate Consistent(models: seq<Model>) {
    forall i, j :: 0 <= i < |models| && 0 <= j < |models| ==> Agree(models[i], models[j])
  }

  ghost predicate Accepted(policy: Policy, models: seq<Model>) {
    && (forall m <- models :: !IsMuse(policy, m) && !IsInvalid(policy, m))
    && Consistent(models)
  }

  /** The reason why `m` cannot follow the accepted models before it. */
  ghost predicate Refused(policy: Policy, before: seq<Model>, m: Model, why: Rejection) {
    if IsMuse(policy, m) then why == MuseModel
    else if IsInvalid(policy, m) then why == InvalidModel(m.name)
    else why == AmbiguousAlias && exists b <- before :: !Agree(b, m)
  }

  /** `seen` is the id-to-name relation of `models`, and that relation is a function. */
  ghost predicate Records(seen: map<string, string>, models: seq<Model>) {
    && (forall m <- models, id | Offers(m, id) :: id in seen && seen[id] == m.name)
    && (forall id <- seen :: exists m <- models :: Offers(m, id))
  }

  lemma {:induction false} AfterSlash(before: string, segment: string)
    requires '/' !in segment
    ensures AfterLastSlash(segment) == segment && AfterLastSlash(before + "/" + segment) == segment
  {
    if before == "" {
      assert "" + "/" + segment == ['/'] + segment;
      Sequences.ConsTail('/', segment);
    } else {
      var s := before + "/" + segment;
      AfterSlash(before[1..], segment);
      assert s[1..] == before[1..] + "/" + segment;
      assert s[|before|] == '/' && s[1..][|before| - 1] == '/';
    }
  }

  /** The checks look at what stands behind the last slash of the lower-case name, trimmed, whatever stands
      before it. */
  lemma LastSegmentReads(policy: Policy, model: string, before: string, segment: string)
    requires '/' !in segment
    requires policy.lower(TrimSpace(model)) == segment || policy.lower(TrimSpace(model)) == before + "/" + segment
    ensures LastSegment(policy, model) == TrimSpace(segment)
  {
    hide TrimSpace, AfterLastSlash;
    AfterSlash(before, segment);
  }

  /** What is accepted, by the names themselves: none is empty or breaks its line, none is a Muse model and
      none is listed as paid, whatever path it has; and these are all the checks of a model by itself. */
  lemma AcceptableNames(policy: Policy, m: Model, before: string, segment: string)
    requires '/' !in segment
    requires policy.lower(TrimSpace(m.name)) == segment || policy.lower(TrimSpace(m.name)) == before + "/" + segment
    ensures !IsMuse(policy, m) && !IsInvalid(policy, m) <==>
            && m.name != ""
            && '\r' !in m.name && '\n' !in m.name && '\r' !in m.alias && '\n' !in m.alias
            && !("muse-" <= TrimSpace(segment))
            && forall paid <- policy.paidModels ::
                 LastSegment(policy, paid) == "" || LastSegment(policy, paid) != TrimSpace(segment)
  {
    hide TrimSpace, LastSegment;
    LastSegmentReads(policy, m.name, before, segment);
  }

  lemma RecordsAreConsistent(seen: map<string, string>, models: seq<Model>)
    requires Records(seen, models)
    ensures Consistent(models)
  {
    forall i, j | 0 <= i < |models| && 0 <= j < |models|
      ensures Agree(models[i], models[j])
    {
      assert models[i] in models && models[j] in models;
    }
  }

  /** `after` is `seen` with the ids of `m` entered and no id given a second name. */
  ghost predicate Entered(seen: map<string, string>, m: Model, after: map<string, string>) {
    && (forall id <- seen :: id in after && after[id] == seen[id])
    && (forall id <- after :: id in seen || Offers(m, id))
    && (forall id | Offers(m, id) :: id in after && after[id] == m.name)
  }

  ghost predicate Clashes(seen: map<string, string>, m: Model, id: string) {
    Offers(m, id) && id in seen && seen[id] != m.name
  }

  lemma RecordsGrow(seen: map<string, string>, models: seq<Model>, m: Model, after: map<string, string>)
    requires Records(seen, models) && Entered(seen, m, after)
    ensures Records(after, models + [m])
  {
    forall id | id in after
      ensures exists x <- models + [m] :: Offers(x, id)
    {
      if id in seen {
        var x :| x in models && Offers(x, id);
        assert x in models + [m];
      } else {
        assert m in models + [m];
      }
    }
  }

  lemma AcceptOneMore(policy: Policy, seen: map<string, string>, models: seq<Model>, m: Model,
                      after: map<string, string>)
    requires Records(seen, models) && Accepted(policy, models)
    requires WhyNot(policy, m).None? && Entered(seen, m, after)
    ensures Records(after, models + [m]) && Accepted(policy, models + [m])
  {
    RecordsGrow(seen, models, m, after);
    RecordsAreConsistent(after, models + [m]);
  }

  lemma Clash(seen: map<string, string>, models: seq<Model>, m: Model, id: string)
    requires Records(seen, models) && Clashes(seen, m, id)
    ensures exists b <- models :: !Agree(b, m)
  {
    var b :| b in models && Offers(b, id);
    assert b.name == seen[id];
  }

  /** The checks of one trimmed model by itself. */
  function WhyNot(policy: Policy, m: Model): (why: Option<Rejection>)
    ensures why.None? <==> !IsMuse(policy, m) && !IsInvalid(policy, m)
    ensures why.Some? ==> forall before :: Refused(policy, before, m, why.value)
  {
    if IsMuse(policy, m) then Some(MuseModel)
    else if IsInvalid(policy, m) then Some(InvalidModel(m.name))
    else None
  }

  /** The inner loop over a model's name and alias: enters both, or finds an id with another name. */
  method Enter(seen: map<string, string>, m: Model) returns (clash: bool, after: map<string, string>)
    ensures clash ==> exists id :: Clashes(seen, m, id)
    ensures !clash ==> Entered(seen, m, after)
  {
    after := seen;
    var ids := [m.name, m.alias];
    for j := 0 to 2
      invariant forall id <- seen :: id in after && after[id] == seen[id]
      invariant forall id <- after :: id in seen || (Offers(m, id) && after[id] == m.name)
      invariant j > 0 && m.name != "" ==> m.name in after && after[m.name] == m.name
      invariant j > 1 && m.alias != "" ==> m.alias in after && after[m.alias] == m.name
    {
      var id := ids[j];
      if id != "" {
        if id in after && after[id] != m.name {
          assert Clashes(seen, m, id);
          return true, after;
        }
        after := after[id := m.name];
      }
    }
    return false, after;
  }

  function TrimAll(models: seq<Model>): seq<Model> {
    seq(|models|, k requires 0 <= k < |models| => TrimModel(models[k]))
  }

  /** What the model loop leaves behind when it stops after `n` models. */
  function TrimmedUpTo(models: seq<Model>, n: nat): seq<Model>
    requires n <= |models|
  {
    TrimAll(models)[..n] + models[n..]
  }

  /** Of the models, number `i` is the first that cannot follow those before it, for this reason. */
  ghost predicate FirstRefused(policy: Policy, models: seq<Model>, i: nat, why: Rejection) {
    i < |models| && Accepted(policy, models[..i]) && Refused(policy, models[..i], models[i], why)
  }

  lemma RefusedMeansNotAccepted(policy: Policy, models: seq<Model>, i: nat, why: Rejection)
    requires FirstRefused(policy, models, i, why)
    ensures !Accepted(policy, models)
  {
    if !IsMuse(policy, models[i]) && !IsInvalid(policy, models[i]) {
      var b :| b in models[..i] && !Agree(b, models[i]);
      var k :| 0 <= k < i && models[k] == b;
      assert !Agree(models[k], models[i]);
    } else {
      assert models[i] in models;
    }
  }

  lemma TrimNext(models: seq<Model>, i: nat)
    requires i < |models|
    ensures TrimmedUpTo(models, i)[i] == models[i]
    ensures TrimmedUpTo(models, i)[i := TrimModel(models[i])] == TrimmedUpTo(models, i + 1)
    ensures TrimAll(models)[..i + 1] == TrimAll(models)[..i] + [TrimModel(models[i])]
    ensures TrimAll(models)[i] == TrimModel(models[i])
  {
  }

  /** A decoded credential, as far as these operations change it. */
  class Auth {
    var models: seq<Model>
    var headers: map<string, string>

    constructor (decoded: seq<Model>, given: map<string, string>)
      ensures models == decoded && headers == given
    {
      models, headers := decoded, given;
    }

    /** The model loop: trims in place and stops at the first model it refuses.  It accepts exactly the
        models that are acceptable one by one and of which no two share an id under two names. */
    method CheckModels(policy: Policy) returns (refused: Option<Rejection>)
      modifies this`models
      ensures refused.None? <==> Accepted(policy, TrimAll(old(models)))
      ensures refused.None? ==> models == TrimAll(old(models))
      ensures refused.None? ==> forall k :: 0 <= k < |models| ==>
                models[k] == Model(TrimSpace(old(models)[k].name), TrimSpace(old(models)[k].alias))
      ensures refused.Some? ==> exists i | 0 <= i < |old(models)| ::
                && FirstRefused(policy, TrimAll(old(models)), i, refused.value)
                && models == TrimmedUpTo(old(models), i + 1)
    {
      ghost var given, trimmed := models, TrimAll(models);
      var seen: map<string, string> := map[];
      refused := None;
      assert models == TrimmedUpTo(given, 0);
      for i := 0 to |models|
        invariant models == TrimmedUpTo(given, i)
        invariant Records(seen, trimmed[..i])
        invariant Accepted(policy, trimmed[..i])
        invariant refused.None?
      {
        TrimNext(given, i);
        var model := TrimModel(models[i]);
        models := models[i := model];
        refused := WhyNot(policy, model);
        if refused.None? {
          var clash, after := Enter(seen, model);
          if clash {
            ghost var id :| Clashes(seen, model, id);
            Clash(seen, trimmed[..i], model, id);
            refused := Some(AmbiguousAlias);
          } else {
            AcceptOneMore(policy, seen, trimmed[..i], model, after);
            seen := after;
          }
        }
        if refused.Some? {
          assert FirstRefused(policy, trimmed, i, refused.value);
          RefusedMeansNotAccepted(policy, trimmed, i, refused.value);
          return;
        }
      }
      Sequences.Ends(trimmed);
      Sequences.Ends(given);
      Sequences.Unit(trimmed);
    }

    /** The header loop, in whatever order Go ranges: own request ids go, an invalid header stops it. */
    method CheckHeaders(valid: (string, string) -> bool) returns (ok: bool)
      modifies this`headers
      ensures ok <==> forall name <- old(headers) :: OwnHeader(name) || valid(name, old(headers)[name])
      ensures ok ==> headers == map name | name in old(headers) && !OwnHeader(name) :: old(headers)[name]
    {
      var rest := headers.Keys;
      while rest != {}
        invariant rest <= old(headers).Keys
        invariant forall name :: name in headers <==> name in old(headers) && (name in rest || !OwnHeader(name))
        invariant forall name <- headers :: headers[name] == old(headers)[name]
        invariant forall name <- old(headers).Keys - rest :: OwnHeader(name) || valid(name, old(headers)[name])
        decreases rest
      {
        var name :| name in rest;
        if OwnHeader(name) {
          headers := headers - {name};
        } else if !valid(name, headers[name]) {
          return false;
        }
        rest := rest - {name};
      }
      return true;
    }
  }

  predicate OwnHeader(name: string) {
    EqualFold(name, "x-opencode-request")
  }

  /** The header that goes, in any case of its letters. */
  lemma OwnHeaderReads(name: string)
    requires Ascii(name)
    ensures var own := "x-opencode-request";
            OwnHeader(name) <==>
            && |name| == |own|
            && forall i :: 0 <= i < |own| ==>
                 own[i] == if 'A' <= name[i] <= 'Z' then (name[i] as int + 32) as char else name[i]
  {
    hide Fold;
    AsciiFolds(name);
  }

  // ----- publishing -----

  datatype Entry = Entry(id: string, name: string)

  predicate Listed(list: seq<Entry>, id: string) {
    exists e <- list :: e.id == id
  }

  function List(list: seq<Entry>, id: string, name: string): seq<Entry> {
    if id == "" || Listed(list, id) then list else list + [Entry(id, name)]
  }

  function Listing(models: seq<Model>): seq<Entry> {
    if models == [] then []
    else
      var m := models[|models| - 1];
      List(List(Listing(models[..|models| - 1]), m.name, m.name), m.alias, m.name)
  }

  /** `model.for_auth` */
  method ModelsForAuth(models: seq<Model>) returns (list: seq<Entry>)
    ensures list == Listing(models)
  {
    list := [];
    var seen: set<string> := {};
    for i := 0 to |models|
      invariant list == Listing(models[..i])
      invariant forall id :: id in seen <==> Listed(list, id)
    {
      var model := models[i];
      ghost var before := Listing(models[..i]);
      Sequences.TakeSnoc(models, i);
      Sequences.DropLast(models[..i], model);
      var ids := [model.name, model.alias];
      for j := 0 to 2
        invariant list == if j == 0 then before
                          else if j == 1 then List(before, model.name, model.name)
                          else List(List(before, model.name, model.name), model.alias, model.name)
        invariant forall id :: id in seen <==> Listed(list, id)
      {
        var id := ids[j];
        if id != "" && id !in seen {
          ListedGrows(list, Entry(id, model.name));
          seen := seen + {id};
          list := list + [Entry(id, model.name)];
        }
      }
    }
    Sequences.Ends(models);
  }

  lemma ListedGrows(list: seq<Entry>, e: Entry)
    ensures forall id :: Listed(list + [e], id) <==> Listed(list, id) || id == e.id
  {
    forall id
      ensures Listed(list + [e], id) <==> Listed(list, id) || id == e.id
    {
      if Listed(list, id) {
        var x :| x in list && x.id == id;
        assert x in list + [e];
      }
      if id == e.id {
        assert e in list + [e];
      }
    }
  }

  ghost predicate Published(models: seq<Model>, e: Entry) {
    exists m <- models :: Offers(m, e.id) && e.name == m.name
  }

  ghost predicate NoIdTwice(list: seq<Entry>) {
    forall i, j :: 0 <= i < j < |list| ==> list[i].id != list[j].id
  }

  lemma ListKeeps(list: seq<Entry>, id: string, name: string)
    requires NoIdTwice(list)
    ensures NoIdTwice(List(list, id, name))
    ensures forall e :: e in List(list, id, name) <==>
                        e in list || (e == Entry(id, name) && id != "" && !Listed(list, id))
  {
  }

  lemma PublishedBySnoc(models: seq<Model>, m: Model, e: Entry)
    ensures Published(models + [m], e) <==> Published(models, e) || (Offers(m, e.id) && e.name == m.name)
  {
    if Published(models, e) {
      var x :| x in models && Offers(x, e.id) && e.name == x.name;
      assert x in models + [m];
    }
    assert m in models + [m];
  }

  lemma ConsistentPrefix(models: seq<Model>, n: nat)
    requires Consistent(models) && n <= |models|
    ensures Consistent(models[..n])
  {
  }

  lemma ListedUnderItsName(models: seq<Model>, list: seq<Entry>, m: Model, id: string)
    requires Consistent(models) && m in models && Offers(m, id)
    requires forall e <- list :: Published(models, e)
    ensures Listed(list, id) ==> Entry(id, m.name) in list
  {
    if Listed(list, id) {
      var e :| e in list && e.id == id;
      var x :| x in models && Offers(x, e.id) && e.name == x.name;
      var i, j :| 0 <= i < |models| && 0 <= j < |models| && models[i] == x && models[j] == m;
      assert Agree(models[i], models[j]);
    }
  }

  /** Every name and alias is listed, with the name it stands for, exactly once, and nothing else is. */
  lemma {:induction false} ListingIsExact(models: seq<Model>)
    requires Consistent(models)
    ensures NoIdTwice(Listing(models))
    ensures forall e :: e in Listing(models) <==> Published(models, e)
  {
    if models != [] {
      var init, m := models[..|models| - 1], models[|models| - 1];
      ConsistentPrefix(models, |models| - 1);
      ListingIsExact(init);
      var base := Listing(init);
      var named := List(base, m.name, m.name);
      assert models == init + [m];
      forall e
        ensures Published(models, e) <==> Published(init, e) || (Offers(m, e.id) && e.name == m.name)
      {
        PublishedBySnoc(init, m, e);
      }
      ListKeeps(base, m.name, m.name);
      ListKeeps(named, m.alias, m.name);
      assert m in models;
      if m.name != "" { ListedUnderItsName(models, base, m, m.name); }
      if m.alias != "" { ListedUnderItsName(models, named, m, m.alias); }
    }
  }

  // ----- resolving -----

  function TrimSlashesLeft(s: string): string {
    if s != "" && s[0] == '/' then TrimSlashesLeft(s[1..]) else s
  }

  function TrimSlashesRight(s: string): string {
    if s != "" && s[|s| - 1] == '/' then TrimSlashesRight(s[..|s| - 1]) else s
  }

  /** The credential prefix with its slash: `strings.Trim(prefix, "/") + "/"`. */
  function Qualifier(prefix: string): string {
    TrimSlashesRight(TrimSlashesLeft(prefix)) + "/"
  }

  predicate AllSlashes(s: string) {
    forall i :: 0 <= i < |s| ==> s[i] == '/'
  }

  lemma {:induction false} SlashesGoLeft(slashes: string, s: string)
    requires AllSlashes(slashes) && (s == "" || s[0] != '/')
    ensures TrimSlashesLeft(slashes + s) == s
  {
    if slashes == "" {
      Sequences.Unit(s);
    } else {
      Sequences.AppendTail(slashes, s);
      SlashesGoLeft(slashes[1..], s);
    }
  }

  lemma {:induction false} SlashesGoRight(s: string, slashes: string)
    requires AllSlashes(slashes) && (s == "" || s[|s| - 1] != '/')
    ensures TrimSlashesRight(s + slashes) == s
    decreases |slashes|
  {
    if slashes == "" {
      Sequences.Unit(s);
    } else {
      Sequences.AppendLast(s, slashes);
      SlashesGoRight(s, slashes[..|slashes| - 1]);
    }
  }

  /** The prefix of a credential counts without the slashes around it, and with one behind it. */
  lemma QualifierReads(before: string, core: string, after: string)
    requires AllSlashes(before) && AllSlashes(after)
    requires core == "" || (core[0] != '/' && core[|core| - 1] != '/')
    ensures Qualifier(before + core + after) == core + "/"
  {
    if core == "" {
      Sequences.Unit(before);
      Sequences.Unit(before + after);
      SlashesGoLeft(before + after, "");
    } else {
      Sequences.Assoc(before, core, after);
      SlashesGoLeft(before, core + after);
      SlashesGoRight(core, after);
    }
  }

  /** What the request must resolve to, by the published list. */
  ghost predicate ResolvesTo(models: seq<Model>, prefix: string, model: string, name: string) {
    Entry(TrimPrefix(model, Qualifier(prefix)), name) in Listing(models)
  }

  /** The published list is a function from ids. */
  lemma ResolutionIsUnique(models: seq<Model>, prefix: string, model: string, a: string, b: string)
    requires Consistent(models)
    requires ResolvesTo(models, prefix, model, a) && ResolvesTo(models, prefix, model, b)
    ensures a == b
  {
    ListingIsExact(models);
  }

  /** The name that a request resolves to, "" when there is none: by first match, the one published name. */
  method ResolveModel(models: seq<Model>, prefix: string, model: string) returns (name: string)
    requires Consistent(models) && forall m <- models :: m.name != ""
    ensures forall n :: ResolvesTo(models, prefix, model, n) <==> name != "" && n == name
  {
    ListingIsExact(models);
    var requested := TrimPrefix(model, Qualifier(prefix));
    for i := 0 to |models|
      invariant forall k :: 0 <= k < i ==> !Offers(models[k], requested)
    {
      if requested == models[i].name || (models[i].alias != "" && requested == models[i].alias) {
        assert models[i] in models && ResolvesTo(models, prefix, model, models[i].name);
        forall n | ResolvesTo(models, prefix, model, n)
          ensures n == models[i].name
        {
          ResolutionIsUnique(models, prefix, model, n, models[i].name);
        }
        return models[i].name;
      }
    }
    return "";
  }

  /** Requesting any listed id with the credential prefix gives the name it was listed with; so does the
      bare id, unless it starts with the prefix itself and what follows is not listed for that name. */
  lemma ListedResolves(models: seq<Model>, prefix: string, e: Entry)
    requires Consistent(models) && e in Listing(models)
    ensures ResolvesTo(models, prefix, Qualifier(prefix) + e.id, e.name)
    ensures ResolvesTo(models, prefix, e.id, e.name) <==>
            !HasPrefix(e.id, Qualifier(prefix)) || Entry(e.id[|Qualifier(prefix)|..], e.name) in Listing(models)
  {
    assert TrimPrefix(Qualifier(prefix) + e.id, Qualifier(prefix)) == e.id;
  }

  /** A bare id that starts with the prefix can resolve to another model. */
  lemma BareIdCanMislead()
    ensures var models := [Model("x/y", ""), Model("y", "")];
            && Consistent(models)
            && Entry("x/y", "x/y") in Listing(models)
            && ResolvesTo(models, "x", "x/y", "y")
  {
    var models := [Model("x/y", ""), Model("y", "")];
    forall i, j | 0 <= i < 2 && 0 <= j < 2
      ensures Agree(models[i], models[j])
    {
    }
    ListingIsExact(models);
    assert models[0] in models && models[1] in models;
    assert TrimSlashesRight("x") == "x";
    assert Qualifier("x") == "x/";
    assert "x/y"[2..] == "y";
  }

  /** Whatever the order of the models. */
  lemma OrderDoesNotMatter(policy: Policy, a: seq<Model>, b: seq<Model>, prefix: string, model: string, name: string)
    requires Accepted(policy, a) && multiset(a) == multiset(b)
    ensures Accepted(policy, b)
    ensures ResolvesTo(a, prefix, model, name) <==> ResolvesTo(b, prefix, model, name)
  {
    SameMembers(a, b);
    forall i, j | 0 <= i < |b| && 0 <= j < |b|
      ensures Agree(b[i], b[j])
    {
      assert b[i] in a && b[j] in a;
    }
    ListingIsExact(a);
    ListingIsExact(b);
    var e := Entry(TrimPrefix(model, Qualifier(prefix)), name);
    assert Published(a, e) <==> Published(b, e);
  }

  lemma SameMembers<T>(a: seq<T>, b: seq<T>)
    requires multiset(a) == multiset(b)
    ensures forall x :: x in a <==> x in b
  {
    assert forall x :: x in a <==> x in multiset(a);
    assert forall x :: x in b <==> x in multiset(b);
  }
}
