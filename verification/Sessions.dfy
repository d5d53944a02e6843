/** Session identity: `resolveSessionID`, the session part of `handleInterceptAfter`, and what a
    conversation keeps of them over whole runs. */
module Sessions {
  import opened Text
  import opened Json
  import opened SessionText
  import Ids = SessionIds
  import Manager
  import Shaping
  import SessionShaping

  const MAX_SESSION_LENGTH := 512
  const SESSION_ID_HEADER := "X-Opencode-Session-Id"

  /** A value that can go into a header. */
  predicate Sendable(value: string) {
    value != "" && |value| <= MAX_SESSION_LENGTH && '\r' !in value && '\n' !in value && '\0' !in value
  }

  /** `cleanSession` */
  function CleanSession(value: string): string {
    if Sendable(TrimSpace(value)) then TrimSpace(value) else ""
  }

  datatype Origin = Native | Header | Metadata | Body | RequestId

  datatype Resolution = Resolution(value: string, origin: Origin, stable: bool)

  /** `sameName` is `strings.EqualFold`, `hexSha` the hexadecimal SHA-256 digest. */
  datatype Settings = Settings(
    headerName: string,
    sourceHeaders: seq<string>,
    hashDerived: bool,
    fallbackBodyHash: bool,
    sameName: (string, string) -> bool,
    hexSha: string -> string)

  /** `canonical` is the host's session identity, `body` what parsing gave. */
  datatype Request = Request(
    headers: map<string, seq<string>>,
    canonical: string,
    source: string,
    body: Option<Json>)

  // ----- looking up headers -----

  /** A header that a lookup by name can return: same name but for case, and not blank. */
  ghost predicate Matches(settings: Settings, headers: map<string, seq<string>>, name: string, key: string) {
    key in headers && settings.sameName(key, name) && headers[key] != [] && TrimSpace(headers[key][0]) != ""
  }

  /** What a lookup can give: the trimmed value of any header that matches, as Go ranges over them in any
      order, and nothing only when none does. */
  ghost predicate Finds(settings: Settings, headers: map<string, seq<string>>, name: string, found: Option<string>) {
    if found.None? then forall key <- headers :: !Matches(settings, headers, name, key)
    else exists key <- headers :: Matches(settings, headers, name, key) && found.value == TrimSpace(headers[key][0])
  }

  /** `headerValue` */
  method HeaderValue(settings: Settings, headers: map<string, seq<string>>, name: string)
    returns (found: Option<string>)
    ensures Finds(settings, headers, name, found)
  {
    hide TrimSpace;
    var rest := headers.Keys;
    while rest != {}
      invariant rest <= headers.Keys
      invariant forall key <- headers.Keys - rest :: !Matches(settings, headers, name, key)
    {
      var key :| key in rest;
      if settings.sameName(key, name) && |headers[key]| > 0 {
        var v := TrimSpace(headers[key][0]);
        if v != "" {
          assert Matches(settings, headers, name, key);
          return Some(v);
        }
      }
      rest := rest - {key};
    }
    return None;
  }

  /** The outcomes of the lookups of one request, by their number. */
  type Lookups = nat -> Option<string>

  /** The name that is looked up: the two native headers, the configured ones, and the first once more. */
  function NameAt(settings: Settings, n: nat): string {
    if n == 1 then SESSION_ID_HEADER
    else if 2 <= n < 2 + |settings.sourceHeaders| then settings.sourceHeaders[n - 2]
    else settings.headerName
  }

  function LastLookup(settings: Settings): nat {
    2 + |settings.sourceHeaders|
  }

  ghost predicate Looks(settings: Settings, req: Request, look: Lookups) {
    forall n: nat :: Finds(settings, req.headers, NameAt(settings, n), look(n))
  }

  function Update(look: Lookups, n: nat, found: Option<string>): Lookups {
    (k: nat) => if k == n then found else look(k)
  }

  ghost function Pick(settings: Settings, headers: map<string, seq<string>>, name: string): (found: Option<string>)
    ensures Finds(settings, headers, name, found)
  {
    if key :| key in headers && Matches(settings, headers, name, key) then Some(TrimSpace(headers[key][0])) else None
  }

  ghost function SomeLookups(settings: Settings, req: Request): (look: Lookups)
    ensures Looks(settings, req, look)
  {
    (n: nat) => Pick(settings, req.headers, NameAt(settings, n))
  }

  // ----- resolving -----

  function Clean(look: Lookups, n: nat): string {
    if look(n).Some? then CleanSession(look(n).value) else ""
  }

  /** The first configured header, from number `i` on, that is not the native one and holds a session. */
  function SourceHeader(settings: Settings, look: Lookups, i: nat): string
    decreases |settings.sourceHeaders| - i
  {
    if i >= |settings.sourceHeaders| then ""
    else if !settings.sameName(settings.sourceHeaders[i], settings.headerName) && Clean(look, 2 + i) != "" then
      Clean(look, 2 + i)
    else SourceHeader(settings, look, i + 1)
  }

  function BodyText(req: Request): string {
    match req.body
    case Some(Obj(root)) => ConversationText(req.source, root)
    case _ => ""
  }

  /** What the headers and the host decide, before the body is looked at. */
  function ResolveOutside(settings: Settings, req: Request, look: Lookups): Option<Resolution> {
    if Clean(look, 0) != "" then Some(Resolution(Clean(look, 0), Native, true))
    else if Clean(look, 1) != "" then Some(Resolution(Clean(look, 1), Native, true))
    else if SourceHeader(settings, look, 0) != "" then Some(Resolution(SourceHeader(settings, look, 0), Header, true))
    else if CleanSession(req.canonical) != "" then Some(Resolution(CleanSession(req.canonical), Metadata, true))
    else None
  }

  function Resolve(settings: Settings, req: Request, look: Lookups): Option<Resolution> {
    var outside := ResolveOutside(settings, req, look);
    if outside.Some? then outside
    else if settings.fallbackBodyHash && BodyText(req) != "" then
      Some(Resolution(settings.hexSha(BodyText(req)), Body, true))
    else None
  }

  lemma {:induction false} Skipped(settings: Settings, look: Lookups, from: nat, i: nat)
    requires from <= i <= |settings.sourceHeaders|
    requires forall j :: from <= j < i ==>
               settings.sameName(settings.sourceHeaders[j], settings.headerName) || Clean(look, 2 + j) == ""
    ensures SourceHeader(settings, look, from) == SourceHeader(settings, look, i)
    decreases i - from
  {
    hide Clean;
    if from < i {
      Skipped(settings, look, from + 1, i);
    }
  }

  /** What can be sent on, read off the bytes. */
  lemma CleanSessionReads(value: string)
    ensures var t := TrimSpace(value);
            CleanSession(value) ==
            if t != "" && |t| <= 512 && '\r' !in t && '\n' !in t && '\0' !in t then t else ""
  {
    hide TrimSpace;
  }

  /** Where each lookup looks. */
  lemma LooksByName(settings: Settings, req: Request, look: Lookups)
    requires Looks(settings, req, look)
    ensures Finds(settings, req.headers, settings.headerName, look(0))
    ensures Finds(settings, req.headers, "X-Opencode-Session-Id", look(1))
    ensures forall i: nat | i < |settings.sourceHeaders| ::
              Finds(settings, req.headers, settings.sourceHeaders[i], look(2 + i))
  {
    hide Finds;
    assert Finds(settings, req.headers, NameAt(settings, 0), look(0));
    assert Finds(settings, req.headers, NameAt(settings, 1), look(1));
    forall i: nat | i < |settings.sourceHeaders|
      ensures Finds(settings, req.headers, settings.sourceHeaders[i], look(2 + i))
    {
      assert NameAt(settings, 2 + i) == settings.sourceHeaders[i];
    }
  }

  /** The configured native header comes before `X-Opencode-Session-Id`, and both before all else. */
  lemma NativeWins(settings: Settings, req: Request, look: Lookups)
    ensures Clean(look, 0) != "" ==> Resolve(settings, req, look) == Some(Resolution(Clean(look, 0), Native, true))
    ensures Clean(look, 0) == "" && Clean(look, 1) != "" ==>
              Resolve(settings, req, look) == Some(Resolution(Clean(look, 1), Native, true))
  {
    hide Clean;
  }

  /** Without them the first configured header that is not the native one and holds a session wins, by its
      place in the configuration, and before the host's id. */
  lemma FirstSourceWins(settings: Settings, req: Request, look: Lookups, i: nat)
    requires Clean(look, 0) == "" && Clean(look, 1) == "" && i < |settings.sourceHeaders|
    requires !settings.sameName(settings.sourceHeaders[i], settings.headerName) && Clean(look, 2 + i) != ""
    requires forall j :: 0 <= j < i ==>
               settings.sameName(settings.sourceHeaders[j], settings.headerName) || Clean(look, 2 + j) == ""
    ensures Resolve(settings, req, look) == Some(Resolution(Clean(look, 2 + i), Header, true))
  {
    hide Clean;
    Skipped(settings, look, 0, i);
  }

  /** Without any header the host's id wins; then the digest of the conversation's text, unless that is
      switched off; and nothing else. */
  lemma WithoutHeaders(settings: Settings, req: Request, look: Lookups)
    requires Clean(look, 0) == "" && Clean(look, 1) == ""
    requires forall j :: 0 <= j < |settings.sourceHeaders| ==>
               settings.sameName(settings.sourceHeaders[j], settings.headerName) || Clean(look, 2 + j) == ""
    ensures var host := CleanSession(req.canonical);
            var text := match req.body case Some(Obj(root)) => ConversationText(req.source, root) case _ => "";
            Resolve(settings, req, look) ==
            if host != "" then Some(Resolution(host, Metadata, true))
            else if settings.fallbackBodyHash && text != "" then Some(Resolution(settings.hexSha(text), Body, true))
            else None
  {
    hide Clean, CleanSession, ConversationText;
    Skipped(settings, look, 0, |settings.sourceHeaders|);
  }

  /** Some outcome of the lookups resolves the request so. */
  ghost predicate CanResolve(settings: Settings, req: Request, resolution: Option<Resolution>) {
    exists look: Lookups :: Looks(settings, req, look) && resolution == Resolve(settings, req, look)
  }

  /** `resolveSessionID`: `look` is what its lookups gave. */
  method ResolveSessionId(settings: Settings, req: Request)
    returns (resolution: Option<Resolution>, ghost look: Lookups)
    ensures CanResolve(settings, req, resolution)
    ensures Looks(settings, req, look) && resolution == Resolve(settings, req, look)
  {
    hide CleanSession, ConversationText, Finds, Looks, Resolve;
    look := SomeLookups(settings, req);
    var found := HeaderValue(settings, req.headers, settings.headerName);
    UpdatedLooks(settings, req, look, 0, found);
    look := Update(look, 0, found);
    var cleaned := if found.Some? then CleanSession(found.value) else "";
    if cleaned != "" {
      NativeWins(settings, req, look);
      return Some(Resolution(cleaned, Native, true)), look;
    }
    found := HeaderValue(settings, req.headers, SESSION_ID_HEADER);
    UpdatedLooks(settings, req, look, 1, found);
    look := Update(look, 1, found);
    cleaned := if found.Some? then CleanSession(found.value) else "";
    if cleaned != "" {
      NativeWins(settings, req, look);
      return Some(Resolution(cleaned, Native, true)), look;
    }
    var names := settings.sourceHeaders;
    for i := 0 to |names|
      invariant Looks(settings, req, look) && Clean(look, 0) == "" && Clean(look, 1) == ""
      invariant forall j :: 0 <= j < i ==> settings.sameName(names[j], settings.headerName) || Clean(look, 2 + j) == ""
    {
      if settings.sameName(names[i], settings.headerName) {
        continue;
      }
      found := HeaderValue(settings, req.headers, names[i]);
      UpdatedLooks(settings, req, look, 2 + i, found);
      look := Update(look, 2 + i, found);
      cleaned := if found.Some? then CleanSession(found.value) else "";
      if cleaned != "" {
        FirstSourceWins(settings, req, look, i);
        return Some(Resolution(cleaned, Header, true)), look;
      }
    }
    WithoutHeaders(settings, req, look);
    cleaned := CleanSession(req.canonical);
    if cleaned != "" {
      return Some(Resolution(cleaned, Metadata, true)), look;
    }
    if settings.fallbackBodyHash {
      var content := FirstUserContent(req.source, req.body);
      if content != "" {
        return Some(Resolution(settings.hexSha(content), Body, true)), look;
      }
    }
    return None, look;
  }

  // ----- headers that differ only in case -----

  /** No two headers that a lookup could return for one name. */
  ghost predicate NoTwins(settings: Settings, headers: map<string, seq<string>>) {
    forall name: string, a <- headers, b <- headers ::
      Matches(settings, headers, name, a) && Matches(settings, headers, name, b) ==> a == b
  }

  /** The lookups agree on what can be sent on. */
  ghost predicate Agree(a: Lookups, b: Lookups) {
    forall n: nat :: Clean(a, n) == Clean(b, n)
  }

  /** Without twins every lookup has one outcome. */
  lemma OneOutcome(settings: Settings, req: Request, a: Lookups, b: Lookups)
    requires NoTwins(settings, req.headers) && Looks(settings, req, a) && Looks(settings, req, b)
    ensures Agree(a, b)
  {
    hide CleanSession, TrimSpace;
    forall n: nat
      ensures a(n) == b(n)
    {
      assert Finds(settings, req.headers, NameAt(settings, n), a(n));
      assert Finds(settings, req.headers, NameAt(settings, n), b(n));
    }
  }

  lemma {:induction false} SameSource(settings: Settings, a: Lookups, b: Lookups, i: nat)
    requires Agree(a, b)
    ensures SourceHeader(settings, a, i) == SourceHeader(settings, b, i)
    decreases |settings.sourceHeaders| - i
  {
    hide Clean;
    if i < |settings.sourceHeaders| {
      SameSource(settings, a, b, i + 1);
    }
  }

  /** Lookups that agree, and bodies with the same text, resolve alike. */
  lemma ResolveAlike(settings: Settings, x: Request, y: Request, a: Lookups, b: Lookups)
    requires Agree(a, b) && x.canonical == y.canonical && BodyText(x) == BodyText(y)
    ensures Resolve(settings, x, a) == Resolve(settings, y, b)
  {
    hide Clean, CleanSession, BodyText, SourceHeader;
    SameSource(settings, a, b, 0);
  }

  /** Two headers whose names differ only in case can give one request two identities. */
  lemma TwinsCanDiffer(settings: Settings, a: string, b: string)
    requires a != b && settings.sameName(a, settings.headerName) && settings.sameName(b, settings.headerName)
    ensures var req := Request(map[a := ["x"], b := ["y"]], "", "openai", None);
            exists s: Lookups, t: Lookups ::
              && Looks(settings, req, s) && Looks(settings, req, t)
              && Resolve(settings, req, s) != Resolve(settings, req, t)
  {
    hide TrimSpace, Looks;
    var req := Request(map[a := ["x"], b := ["y"]], "", "openai", None);
    VisibleEndsAreTrimmed("x");
    VisibleEndsAreTrimmed("y");
    assert Matches(settings, req.headers, settings.headerName, a);
    assert Matches(settings, req.headers, settings.headerName, b);
    var s := Update(SomeLookups(settings, req), 0, Some("x"));
    var t := Update(SomeLookups(settings, req), 0, Some("y"));
    UpdatedLooks(settings, req, SomeLookups(settings, req), 0, Some("x"));
    UpdatedLooks(settings, req, SomeLookups(settings, req), 0, Some("y"));
    assert Clean(s, 0) == "x" && Clean(t, 0) == "y";
    assert Resolve(settings, req, s).value.value == "x" && Resolve(settings, req, t).value.value == "y";
  }

  lemma UpdatedLooks(settings: Settings, req: Request, look: Lookups, n: nat, found: Option<string>)
    requires Looks(settings, req, look) && Finds(settings, req.headers, NameAt(settings, n), found)
    ensures Looks(settings, req, Update(look, n, found))
  {
    hide Finds, NameAt;
  }

  lemma CleanIsSendable(value: string)
    ensures var v := CleanSession(value); v != "" ==> Sendable(v) && TrimSpace(v) == v
  {
    TrimSpaceTrims(value);
  }

  lemma CleanLookupIsSendable(look: Lookups, n: nat)
    ensures var v := Clean(look, n); v != "" ==> Sendable(v) && TrimSpace(v) == v
  {
    hide TrimSpace, Sendable;
    if look(n).Some? {
      CleanIsSendable(look(n).value);
    }
  }

  lemma {:induction false} SourceIsSendable(settings: Settings, look: Lookups, i: nat)
    ensures var v := SourceHeader(settings, look, i); v != "" ==> Sendable(v) && TrimSpace(v) == v
    decreases |settings.sourceHeaders| - i
  {
    hide TrimSpace, Sendable, Clean;
    if i < |settings.sourceHeaders| {
      SourceIsSendable(settings, look, i + 1);
      CleanLookupIsSendable(look, 2 + i);
    }
  }

  /** What comes from a client or the host can be sent on as it is, and every resolution is stable. */
  lemma ResolvedIsSendable(settings: Settings, req: Request, look: Lookups)
    ensures var r := Resolve(settings, req, look);
            && (r.Some? && !r.value.origin.Body? ==>
                  Sendable(r.value.value) && TrimSpace(r.value.value) == r.value.value)
            && (r.Some? ==> r.value.stable)
  {
    hide TrimSpace, Sendable, BodyText, Clean, SourceHeader, CleanSession;
    SourceIsSendable(settings, look, 0);
    CleanIsSendable(req.canonical);
    CleanLookupIsSendable(look, 0);
    CleanLookupIsSendable(look, 1);
  }

  // ----- the id that goes out on the fingerprint path -----

  /** An official id goes out as it is, anything else is shaped. */
  function Outgoing(sha: Ids.Sha, cache: Ids.Cache, value: string, ms: nat): (Ids.Cache, string)
    requires Ids.Is256(sha)
  {
    if Ids.IsSessionId(value) then (cache, value) else Ids.Shaped(cache, Ids.Digest(sha, value), ms)
  }

  /** The id always has the official shape, whatever the identity. */
  lemma OutgoingHasShape(sha: Ids.Sha, cache: Ids.Cache, value: string, ms: nat)
    requires Ids.Is256(sha) && Ids.Issued(cache)
    ensures Ids.IsSessionId(Outgoing(sha, cache, value, ms).1)
  {
    hide Ids.IsSessionId, Ids.NewId;
    var digest := Ids.Digest(sha, value);
    if !Ids.IsSessionId(value) {
      Ids.ShapedKeeps(cache, digest, ms);
      var (more, id) := Ids.Shaped(cache, digest, ms);
      assert Ids.IssuedFor(digest, more[digest]);
      Ids.IssuedHasShape(digest, id);
    }
  }

  lemma IssuedIsSendable(id: string, digest: string, ms: nat)
    requires |digest| == 32 && id == Ids.NewId(digest, ms)
    ensures Sendable(id) && TrimSpace(id) == id
  {
    hide TrimSpace, Ids.BigEndian;
    Ids.NewIdHasShape(digest, ms);
    Ids.NewIdFields(digest, ms);
    NoControls(id);
  }

  lemma NoControls(id: string)
    requires Ids.IsSessionId(id) && TrimSpace(id) == id
    ensures '\r' !in id && '\n' !in id && '\0' !in id
  {
    hide TrimSpace;
    assert id == id[..4] + id[4..16] + id[16..];
  }

  /** An id that was issued, coming back in the configured native header, or in `X-Opencode-Session-Id`
      when that one holds nothing that can be sent, is forwarded verbatim and changes nothing. */
  lemma IssuedIdComesBack(sha: Ids.Sha, settings: Settings, req: Request, look: Lookups, cache: Ids.Cache,
                          digest: string, first: nat, ms: nat)
    requires Ids.Is256(sha) && |digest| == 32
    requires var id := Ids.NewId(digest, first); look(0) == Some(id) || (Clean(look, 0) == "" && look(1) == Some(id))
    ensures var id := Ids.NewId(digest, first);
            && Resolve(settings, req, look) == Some(Resolution(id, Native, true))
            && Outgoing(sha, cache, id, ms) == (cache, id)
  {
    hide Ids.IsSessionId, Ids.NewId, Sendable, SourceHeader, BodyText, TrimSpace;
    IssuedIsSendable(Ids.NewId(digest, first), digest, first);
    assert Ids.NewId(digest, first) != "" by { Ids.NewIdFields(digest, first); }
    Ids.NewIdHasShape(digest, first);
  }

  /** Two requests that resolve to one identity go out under one id, from the first of them to the next
      shutdown, whatever happens in between. */
  lemma OneIdentityOneId(sha: Ids.Sha, before: seq<Ids.Op>, value: string, first: nat, between: seq<Ids.Op>, again: nat)
    requires Ids.Is256(sha) && Ids.Shutdown !in between
    ensures var (issued, id) := Outgoing(sha, Ids.After(sha, map[], before), value, first);
            Outgoing(sha, Ids.After(sha, issued, between), value, again).1 == id
  {
    hide Ids.IsSessionId, Ids.Shaped, Ids.After;
    Ids.StickyId(sha, before, value, first, between, again);
  }

  // ----- a conversation -----

  function WithBody(req: Request, root: Object): Request {
    req.(body := Some(Obj(root)))
  }

  /** As a conversation grows it keeps its identity, in every format, as long as the lookups agree. */
  lemma GrowingRequests(settings: Settings, req: Request, root: Object, growth: Growth, a: Lookups, b: Lookups)
    requires Continues(req.source, growth) && Agree(a, b)
    ensures Resolve(settings, WithBody(req, Before(root, growth)), a) ==
            Resolve(settings, WithBody(req, After(root, growth)), b)
  {
    hide ConversationText, Continues, After, Before, Agree, Resolve;
    GrowthKeepsText(req.source, root, growth);
    ResolveAlike(settings, WithBody(req, Before(root, growth)), WithBody(req, After(root, growth)), a, b);
  }

  /** A request that comes back with its body shaped is still the same conversation, exactly when the
      shaping exposes no user text where the format reads the input, or the headers, the host or the
      settings leave the body out, or the two texts have one digest. */
  lemma ShapedRequests(settings: Settings, req: Request, look: Lookups, kit: Shaping.Kit, cfg: Shaping.Config,
                       toFormat: string, root: Object)
    requires Shaping.Names(cfg.tools)
    ensures var f := Shaping.Shape(kit, cfg, req.source, toFormat, root).root;
            var text, shaped := ConversationText(req.source, root), ConversationText(req.source, f);
            Resolve(settings, WithBody(req, f), look) == Resolve(settings, WithBody(req, root), look) <==>
              || (ReadsInput(req.source, root) ==> SessionShaping.ExposedBy(cfg, toFormat, root) == "")
              || ResolveOutside(settings, req, look).Some? || !settings.fallbackBodyHash
              || (text != "" && settings.hexSha(shaped) == settings.hexSha(text))
  {
    hide ConversationText, Shaping.Shape, ReadsInput, SessionShaping.ExposedBy, Clean, CleanSession, SourceHeader;
    SessionShaping.TextSurvivesShaping(kit, cfg, req.source, toFormat, root);
    SessionShaping.TextOnlyGrows(kit, cfg, req.source, toFormat, root);
  }

  /** From its first request to the next shutdown, a growing conversation goes out under one id, whatever
      other conversations and reconfigurations come in between. */
  lemma ConversationKeepsItsId(sha: Ids.Sha, settings: Settings, req: Request, root: Object, growth: Growth,
                               x: Lookups, y: Lookups,
                               before: seq<Ids.Op>, first: nat, between: seq<Ids.Op>, again: nat)
    requires Continues(req.source, growth) && Agree(x, y)
    requires Ids.Is256(sha) && Ids.Shutdown !in between
    ensures var a := Resolve(settings, WithBody(req, Before(root, growth)), x);
            var b := Resolve(settings, WithBody(req, After(root, growth)), y);
            a.Some? ==>
              && b.Some?
              && var (issued, id) := Outgoing(sha, Ids.After(sha, map[], before), a.value.value, first);
                 Outgoing(sha, Ids.After(sha, issued, between), b.value.value, again).1 == id
  {
    hide Resolve, Continues, Outgoing, Ids.After, After, Before, Agree;
    GrowingRequests(settings, req, root, growth, x, y);
    var a := Resolve(settings, WithBody(req, Before(root, growth)), x);
    if a.Some? {
      OneIdentityOneId(sha, before, a.value.value, first, between, again);
    }
  }

  // ----- the session header of an intercepted request -----

  /** `sessionHeaderValue` */
  function SessionHeaderValue(settings: Settings, r: Resolution): string {
    if !r.origin.Header? && !r.origin.Metadata? then r.value
    else if settings.hashDerived then settings.hexSha(r.value) else r.value
  }

  /** The headers that carry the session on the fingerprint path, besides the configured one. */
  const AFFINITY_HEADERS: set<string> :=
    {"X-Opencode-Session", "X-Opencode-Session-Id", "X-Session-Affinity", "X-Session-Id"}

  /** Every name of a set with one value: in the order in which Go ranges over them, whatever it is. */
  method SetAll(names: set<string>, value: string) returns (headers: map<string, string>)
    ensures headers.Keys == names && forall n <- headers :: headers[n] == value
  {
    headers := map[];
    var rest := names;
    while rest != {}
      invariant rest <= names && headers.Keys == names - rest
      invariant forall n <- headers :: headers[n] == value
    {
      var name :| name in rest;
      headers := headers[name := value];
      rest := rest - {name};
    }
  }

  /** The session headers that the response to `request.intercept_after` sets; header names are in their
      canonical form, and `fallback` is the request id, or a fresh one. */
  method InterceptSession<C>(m: Manager.Manager<C>, sha: Ids.Sha, settings: Settings, req: Request, fingerprint: bool,
                             fallback: string, ms: nat)
    returns (headers: map<string, string>, ghost look: Lookups)
    requires m.Valid() && Ids.Is256(sha)
    modifies m`sessionIds
    ensures m.Valid() && Looks(settings, req, look)
    // On the fingerprint path one id of the official shape goes out in all of them.
    ensures fingerprint ==>
              var r := Resolve(settings, req, look);
              var value := if r.None? then fallback else r.value.value;
              var (cache, id) := Outgoing(sha, old(m.sessionIds), value, ms);
              && m.sessionIds == cache && Ids.IsSessionId(id)
              && headers.Keys == {"X-Opencode-Session", "X-Opencode-Session-Id", "X-Session-Affinity", "X-Session-Id",
                                  settings.headerName}
              && forall name <- headers :: headers[name] == id
    // Outside it nothing is shaped, and a derived session goes into the configured header alone.
    ensures !fingerprint ==> m.sessionIds == old(m.sessionIds)
    ensures !fingerprint ==>
              var r := Resolve(settings, req, look);
              && (r.None? ==> headers == map[])
              && (r.Some? && !r.value.origin.Native? ==>
                    var raw := r.value.origin.Header? || r.value.origin.Metadata?;
                    headers == map[settings.headerName := if settings.hashDerived && raw then
                                                            settings.hexSha(r.value.value) else r.value.value])
              // A native session is never overridden: the header is set only where it could not be sent.
              && (r.Some? && r.value.origin.Native? ==>
                    headers == if Clean(look, LastLookup(settings)) != "" then map[]
                               else map[settings.headerName := r.value.value])
  {
    hide Resolve, Looks, CleanSession, Ids.IsSessionId, Ids.Shaped, Ids.NewId, Ids.Digest;
    var r;
    r, look := ResolveSessionId(settings, req);
    if r.None? && fingerprint {
      r := Some(Resolution(fallback, RequestId, false));
    }
    if r.None? {
      return map[], look;
    }
    var value := r.value.value;
    if fingerprint {
      if !Ids.IsSessionId(value) {
        value := m.ShapeSessionId(sha, value, ms);
      }
      headers := SetAll(AFFINITY_HEADERS, value);
      headers := headers[settings.headerName := value];
    } else if !r.value.origin.Native? {
      headers := map[settings.headerName := SessionHeaderValue(settings, r.value)];
    } else {
      var found := HeaderValue(settings, req.headers, settings.headerName);
      LookOnceMore(settings, req, look, found);
      look := Update(look, LastLookup(settings), found);
      if found.None? || CleanSession(found.value) == "" {
        headers := map[settings.headerName := value];
      } else {
        headers := map[];
      }
    }
  }

  /** The lookup behind the resolution does not change it. */
  lemma LookOnceMore(settings: Settings, req: Request, look: Lookups, found: Option<string>)
    requires Looks(settings, req, look) && Finds(settings, req.headers, settings.headerName, found)
    ensures var more := Update(look, LastLookup(settings), found);
            && Looks(settings, req, more) && Resolve(settings, req, more) == Resolve(settings, req, look)
            && Clean(more, LastLookup(settings)) == (if found.None? then "" else CleanSession(found.value))
  {
    hide Finds, CleanSession, BodyText;
    UpdatedLooks(settings, req, look, LastLookup(settings), found);
    SourceBelow(settings, look, found, 0);
  }

  lemma {:induction false} SourceBelow(settings: Settings, look: Lookups, found: Option<string>, i: nat)
    ensures SourceHeader(settings, Update(look, LastLookup(settings), found), i) == SourceHeader(settings, look, i)
    decreases |settings.sourceHeaders| - i
  {
    hide CleanSession;
    if i < |settings.sourceHeaders| {
      SourceBelow(settings, look, found, i + 1);
    }
  }
}
