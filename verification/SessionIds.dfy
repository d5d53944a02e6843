/** Session ids: the codec of `timeHexFrom` and `base62From`, the id shape, and the write-once cache of
    `shapeSessionID`. */
module SessionIds {
  import opened Text
  import Sequences

  // ----- hexadecimal -----

  predicate IsHexDigit(c: char) {
    '0' <= c <= '9' || 'a' <= c <= 'f'
  }

  function HexDigit(n: nat): (c: char)
    requires n < 16
    ensures IsHexDigit(c) && DigitValue(c) == n
  {
    if n < 10 then (n + 48) as char else (n + 87) as char
  }

  function DigitValue(c: char): (n: nat)
    requires IsHexDigit(c)
    ensures n < 16
  {
    if c <= '9' then c as int - 48 else c as int - 87
  }

  /** `fmt.Sprintf("%02x", b)` */
  function HexByte(b: nat): string
    requires b < 256
  {
    [HexDigit(b / 16), HexDigit(b % 16)]
  }

  predicate IsHex(s: string) {
    forall c <- s :: IsHexDigit(c)
  }

  /** The number that hexadecimal digits denote. */
  function HexValue(s: string): nat
    requires IsHex(s)
  {
    if s == "" then 0 else 16 * HexValue(s[..|s| - 1]) + DigitValue(s[|s| - 1])
  }

  /** Byte-wise comparison of strings of one length. */
  predicate Less(a: string, b: string)
    requires |a| == |b|
  {
    a != "" && (a[0] < b[0] || (a[0] == b[0] && Less(a[1..], b[1..])))
  }

  lemma {:induction false} LessSnoc(a: string, b: string, c: char, d: char)
    requires |a| == |b|
    ensures Less(a + [c], b + [d]) <==> Less(a, b) || (a == b && c < d)
  {
    if a != "" {
      Sequences.AppendTail(a, [c]);
      Sequences.AppendTail(b, [d]);
      LessSnoc(a[1..], b[1..], c, d);
      Sequences.HeadTail(a);
      Sequences.HeadTail(b);
    } else {
      Sequences.ConsTail(c, []);
      Sequences.ConsTail(d, []);
    }
  }

  lemma DigitOrder(c: char, d: char)
    requires IsHexDigit(c) && IsHexDigit(d)
    ensures c < d <==> DigitValue(c) < DigitValue(d)
    ensures c == d <==> DigitValue(c) == DigitValue(d)
  {
    assert c == (c as int) as char && d == (d as int) as char;
  }

  /** The last digit split off. */
  lemma Unsnoc(s: string)
    requires s != ""
    ensures s == s[..|s| - 1] + [s[|s| - 1]]
  {
  }

  lemma {:induction false} HexInjective(a: string, b: string)
    requires |a| == |b| && IsHex(a) && IsHex(b) && HexValue(a) == HexValue(b)
    ensures a == b
  {
    if a != "" {
      var n := |a| - 1;
      HexInjective(a[..n], b[..n]);
      DigitOrder(a[n], b[n]);
      Unsnoc(a);
      Unsnoc(b);
    }
  }

  /** Digit order is text order. */
  lemma {:induction false} HexOrder(a: string, b: string)
    requires |a| == |b| && IsHex(a) && IsHex(b)
    ensures Less(a, b) <==> HexValue(a) < HexValue(b)
  {
    if a != "" {
      var n := |a| - 1;
      HexOrder(a[..n], b[..n]);
      if HexValue(a[..n]) == HexValue(b[..n]) {
        HexInjective(a[..n], b[..n]);
      }
      LessSnoc(a[..n], b[..n], a[n], b[n]);
      DigitOrder(a[n], b[n]);
      Unsnoc(a);
      Unsnoc(b);
    }
  }

  // ----- timeHexFrom -----

  /** `value >> 8n`: n times one byte to the right. */
  function Shift(value: nat, n: nat): nat {
    if n == 0 then value else Shift(value, n - 1) / 256
  }

  /** The low `n` bytes in hexadecimal, high end first. */
  function BigEndian(value: nat, n: nat): (hex: string)
    ensures |hex| == 2 * n && IsHex(hex)
  {
    if n == 0 then "" else BigEndian(value / 256, n - 1) + HexByte(value % 256)
  }

  /** `timeHexFrom` writes byte by byte from the high end. */
  method TimeHexFrom(value: nat) returns (hex: string)
    ensures hex == BigEndian(value, 6)
  {
    hex := "";
    var i := 0;
    while i < 6
      invariant 0 <= i <= 6
      invariant hex == BigEndian(Shift(value, 6 - i), i)
    {
      hex := hex + HexByte(Shift(value, 5 - i) % 256);
      i := i + 1;
    }
  }

  /** The size of `n` bytes, for up to six. */
  function Size(n: nat): (size: nat)
    requires n <= 6
    ensures size > 0
  {
    match n
    case 0 => 1
    case 1 => 0x100
    case 2 => 0x1_0000
    case 3 => 0x100_0000
    case 4 => 0x1_0000_0000
    case 5 => 0x100_0000_0000
    case _ => 0x1_0000_0000_0000
  }

  /** The digits denote the number in the low bytes. */
  lemma {:induction false} BigEndianValue(value: nat, n: nat)
    requires n <= 6
    ensures HexValue(BigEndian(value, n)) == value % Size(n)
  {
    if n > 0 {
      BigEndianValue(value / 256, n - 1);
      HexValueAppend(BigEndian(value / 256, n - 1), value % 256);
      LowBytes(value, n - 1);
    }
  }

  lemma HexValueAppend(hex: string, b: nat)
    requires IsHex(hex) && b < 256
    ensures IsHex(hex + HexByte(b)) && HexValue(hex + HexByte(b)) == 256 * HexValue(hex) + b
  {
    var longer := hex + HexByte(b);
    var middle := hex + [HexDigit(b / 16)];
    assert longer[..|longer| - 1] == middle && middle[..|middle| - 1] == hex;
  }

  /** One more byte at the low end. */
  lemma LowBytes(q: nat, n: nat)
    requires n < 6
    ensures 256 * (q / 256 % Size(n)) + q % 256 == q % Size(n + 1)
  {
    match n {
      case 0 =>
      case 1 => TwoBytes(q);
      case 2 => ThreeBytes(q);
      case 3 => FourBytes(q);
      case 4 => FiveBytes(q);
      case _ => SixBytes(q);
    }
  }

  lemma TwoBytes(q: nat)
    ensures 256 * (q / 256 % 0x100) + q % 256 == q % 0x1_0000
  {
  }

  lemma ThreeBytes(q: nat)
    ensures 256 * (q / 256 % 0x1_0000) + q % 256 == q % 0x100_0000
  {
  }

  lemma FourBytes(q: nat)
    ensures 256 * (q / 256 % 0x100_0000) + q % 256 == q % 0x1_0000_0000
  {
  }

  lemma FiveBytes(q: nat)
    ensures 256 * (q / 256 % 0x1_0000_0000) + q % 256 == q % 0x100_0000_0000
  {
  }

  lemma SixBytes(q: nat)
    ensures 256 * (q / 256 % 0x100_0000_0000) + q % 256 == q % 0x1_0000_0000_0000
  {
  }

  // ----- base62From -----

  predicate IsAlphanumeric(c: char) {
    '0' <= c <= '9' || 'A' <= c <= 'Z' || 'a' <= c <= 'z'
  }

  /** One byte in the alphabet of digits, upper case, lower case. */
  function Base62Digit(b: char): (c: char)
    ensures IsAlphanumeric(c)
  {
    var n := b as int % 62;
    if n < 10 then (n + 48) as char
    else if n < 36 then (n + 55) as char
    else (n + 61) as char
  }

  function Base62(raw: string): (s: string)
    ensures |s| == |raw| && forall c <- s :: IsAlphanumeric(c)
  {
    if raw == "" then "" else Base62(raw[..|raw| - 1]) + [Base62Digit(raw[|raw| - 1])]
  }

  /** Different residues get different digits, in the order of the alphabet. */
  lemma Base62Order(b: char, c: char)
    ensures Base62Digit(b) == Base62Digit(c) <==> b as int % 62 == c as int % 62
    ensures Base62Digit(b) < Base62Digit(c) <==> b as int % 62 < c as int % 62
  {
  }

  lemma {:induction false} Base62Injective(a: string, b: string)
    requires |a| == |b|
    ensures Base62(a) == Base62(b) <==> forall i :: 0 <= i < |a| ==> a[i] as int % 62 == b[i] as int % 62
  {
    hide Base62Digit;
    if a != "" {
      var n := |a| - 1;
      Base62Injective(a[..n], b[..n]);
      Base62Order(a[n], b[n]);
      Sequences.DropLast(Base62(a[..n]), Base62Digit(a[n]));
      Sequences.DropLast(Base62(b[..n]), Base62Digit(b[n]));
    }
  }

  method Base62From(raw: string) returns (s: string)
    ensures s == Base62(raw)
  {
    s := "";
    for i := 0 to |raw|
      invariant s == Base62(raw[..i])
    {
      assert raw[..i + 1][..i] == raw[..i];
      s := s + [Base62Digit(raw[i])];
    }
    assert raw[..|raw|] == raw;
  }

  // ----- the shape of an id -----

  const PREFIX := "ses_"

  /** `^ses_[0-9a-f]{12}[0-9A-Za-z]{14}$` on the trimmed value. */
  predicate IsSessionId(value: string) {
    var id := TrimSpace(value);
    && |id| == 30
    && id[..4] == PREFIX
    && IsHex(id[4..16])
    && forall c <- id[16..] :: IsAlphanumeric(c)
  }

  /** The shape, byte by byte: twelve lower-case hexadecimal digits and fourteen letters or digits. */
  lemma SessionIdReads(value: string)
    ensures var id := TrimSpace(value);
            IsSessionId(value) <==>
            && |id| == 30 && id[0] == 's' && id[1] == 'e' && id[2] == 's' && id[3] == '_'
            && (forall i :: 4 <= i < 16 ==> '0' <= id[i] <= '9' || 'a' <= id[i] <= 'f')
            && (forall i :: 16 <= i < 30 ==> '0' <= id[i] <= '9' || 'A' <= id[i] <= 'Z' || 'a' <= id[i] <= 'z')
  {
    hide TrimSpace;
    var id := TrimSpace(value);
    if |id| == 30 {
      PrefixReads(id[..4]);
      HexReads(id[4..16]);
      AlphanumericReads(id[16..]);
      assert forall i :: 4 <= i < 16 ==> id[i] == id[4..16][i - 4];
      assert forall i :: 16 <= i < 30 ==> id[i] == id[16..][i - 16];
    }
  }

  lemma PrefixReads(s: string)
    requires |s| == 4
    ensures s == PREFIX <==> s[0] == 's' && s[1] == 'e' && s[2] == 's' && s[3] == '_'
  {
  }

  lemma HexReads(s: string)
    ensures IsHex(s) <==> forall i :: 0 <= i < |s| ==> '0' <= s[i] <= '9' || 'a' <= s[i] <= 'f'
  {
    assert IsHex(s) <==> forall i :: 0 <= i < |s| ==> IsHexDigit(s[i]);
  }

  lemma AlphanumericReads(s: string)
    ensures (forall c <- s :: IsAlphanumeric(c)) <==>
            forall i :: 0 <= i < |s| ==> '0' <= s[i] <= '9' || 'A' <= s[i] <= 'Z' || 'a' <= s[i] <= 'z'
  {
    assert (forall c <- s :: IsAlphanumeric(c)) <==> forall i :: 0 <= i < |s| ==> IsAlphanumeric(s[i]);
  }

  /** `uint64(time.Now().UnixMilli())*0x1000 + 1` */
  function Clock(ms: nat): nat {
    (ms * 0x1000 + 1) % 0x1_0000_0000_0000_0000
  }

  /** `^value` on 64 bits. */
  function Complement(value: nat): nat
    requires value < 0x1_0000_0000_0000_0000
  {
    0xFFFF_FFFF_FFFF_FFFF - value
  }

  /** The id for a digest first seen at `ms`. */
  function NewId(digest: string, ms: nat): string
    requires |digest| == 32
  {
    PREFIX + BigEndian(Complement(Clock(ms)), 6) + Base62(digest[..14])
  }

  function TimeField(id: string): string
    requires |id| == 30
  {
    id[4..16]
  }

  lemma NewIdFields(digest: string, ms: nat)
    requires |digest| == 32
    ensures var id := NewId(digest, ms);
            && |id| == 30 && id[..4] == PREFIX
            && TimeField(id) == BigEndian(Complement(Clock(ms)), 6)
            && id[16..] == Base62(digest[..14])
  {
  }

  /** Every shaped id has the official shape and is its own trimmed form, for any identity. */
  lemma NewIdHasShape(digest: string, ms: nat)
    requires |digest| == 32
    ensures IsSessionId(NewId(digest, ms)) && TrimSpace(NewId(digest, ms)) == NewId(digest, ms)
  {
    var id := NewId(digest, ms);
    NewIdFields(digest, ms);
    assert id[0] == PREFIX[0];
    assert id[29] == id[16..][13];
    VisibleEndsAreTrimmed(id);
  }

  /** The milliseconds that a time field denotes: complement, then shift. */
  function FirstSeen(field: string): int
    requires IsHex(field)
  {
    (0xFFFF_FFFF_FFFF - HexValue(field)) / 0x1000
  }

  lemma ClockField(ms: nat)
    ensures HexValue(BigEndian(Complement(Clock(ms)), 6)) == 0xFFFF_FFFF_FFFF - (ms % 0x10_0000_0000 * 0x1000 + 1)
  {
    BigEndianValue(Complement(Clock(ms)), 6);
    ClockLow(ms);
    ComplementLow(Clock(ms));
  }

  lemma ClockLow(ms: nat)
    ensures Clock(ms) % 0x1_0000_0000_0000 == ms % 0x10_0000_0000 * 0x1000 + 1
  {
  }

  lemma ComplementLow(value: nat)
    requires value < 0x1_0000_0000_0000_0000
    ensures Complement(value) % 0x1_0000_0000_0000 == 0xFFFF_FFFF_FFFF - value % 0x1_0000_0000_0000
  {
  }

  /** The twelve digits give back the first-seen time modulo 2^36 milliseconds. */
  lemma FirstSeenRecovered(digest: string, ms: nat)
    requires |digest| == 32
    ensures |NewId(digest, ms)| == 30 && IsHex(TimeField(NewId(digest, ms)))
    ensures FirstSeen(TimeField(NewId(digest, ms))) == ms % 0x10_0000_0000
  {
    NewIdFields(digest, ms);
    ClockField(ms);
  }

  /** Within one epoch of 2^36 milliseconds a later first-seen time sorts first. */
  lemma LaterSortsFirst(earlier: string, a: nat, later: string, b: nat)
    requires |earlier| == 32 && |later| == 32
    requires a < b && a / 0x10_0000_0000 == b / 0x10_0000_0000
    ensures |NewId(later, b)| == 30 && |NewId(earlier, a)| == 30
    ensures Less(TimeField(NewId(later, b)), TimeField(NewId(earlier, a)))
  {
    NewIdFields(earlier, a);
    NewIdFields(later, b);
    ClockField(a);
    ClockField(b);
    HexOrder(TimeField(NewId(later, b)), TimeField(NewId(earlier, a)));
  }

  /** Two ids are equal exactly when their times agree modulo 2^36 milliseconds and the first 14 bytes of
      their digests modulo 62. */
  lemma SameId(d: string, m: nat, e: string, n: nat)
    requires |d| == 32 && |e| == 32
    ensures NewId(d, m) == NewId(e, n) <==>
            && m % 0x10_0000_0000 == n % 0x10_0000_0000
            && forall i :: 0 <= i < 14 ==> d[i] as int % 62 == e[i] as int % 62
  {
    hide BigEndian, Base62, Clock, Complement, HexValue, FirstSeen;
    NewIdFields(d, m);
    NewIdFields(e, n);
    FirstSeenRecovered(d, m);
    FirstSeenRecovered(e, n);
    Base62Injective(d[..14], e[..14]);
    if m % 0x10_0000_0000 == n % 0x10_0000_0000 {
      SameField(m, n);
    }
  }

  lemma SameField(m: nat, n: nat)
    requires m % 0x10_0000_0000 == n % 0x10_0000_0000
    ensures BigEndian(Complement(Clock(m)), 6) == BigEndian(Complement(Clock(n)), 6)
  {
    hide BigEndian, Complement, HexValue;
    ClockField(m);
    ClockField(n);
    HexInjective(BigEndian(Complement(Clock(m)), 6), BigEndian(Complement(Clock(n)), 6));
  }

  // ----- the cache -----

  /** Ids by digest. */
  type Cache = map<string, string>

  /** SHA-256, of which only the length of the result matters. */
  type Sha = string -> string

  ghost predicate Is256(sha: Sha) {
    forall text :: |sha(text)| == 32
  }

  function Digest(sha: Sha, identity: string): string {
    sha(PREFIX + identity)
  }

  /** `shapeSessionID`: the cache afterwards and the id. */
  function Shaped(cache: Cache, digest: string, ms: nat): (Cache, string)
    requires |digest| == 32
  {
    if digest in cache && cache[digest] != "" then (cache, cache[digest])
    else (cache[digest := NewId(digest, ms)], NewId(digest, ms))
  }

  /** An id issued for a digest at some time. */
  ghost predicate IssuedFor(digest: string, id: string) {
    |digest| == 32 && exists ms: nat :: id == NewId(digest, ms)
  }

  lemma IssuedHasShape(digest: string, id: string)
    requires IssuedFor(digest, id)
    ensures IsSessionId(id)
  {
    var ms: nat :| id == NewId(digest, ms);
    NewIdHasShape(digest, ms);
  }

  ghost predicate Issued(cache: Cache) {
    forall d <- cache :: IssuedFor(d, cache[d])
  }

  ghost predicate Extends(cache: Cache, more: Cache) {
    forall d <- cache :: d in more && more[d] == cache[d]
  }

  /** One call: the cache keeps what it has, and holds the id it returned. */
  lemma ShapedKeeps(cache: Cache, digest: string, ms: nat)
    requires Issued(cache) && |digest| == 32
    ensures var (more, id) := Shaped(cache, digest, ms);
            && Issued(more) && Extends(cache, more)
            && digest in more && more[digest] == id && |id| == 30
  {
    NewIdFields(digest, ms);
    assert IssuedFor(digest, NewId(digest, ms));
    if digest in cache {
      var first: nat :| cache[digest] == NewId(digest, first);
      NewIdFields(digest, first);
    }
  }

  datatype Op = Shape(identity: string, ms: nat) | Reconfigure | Shutdown

  function AfterOne(sha: Sha, cache: Cache, op: Op): Cache
    requires Is256(sha)
  {
    match op
    case Shape(identity, ms) => Shaped(cache, Digest(sha, identity), ms).0
    case Reconfigure => cache
    case Shutdown => map[]
  }

  function After(sha: Sha, cache: Cache, ops: seq<Op>): Cache
    requires Is256(sha)
    decreases |ops|
  {
    if ops == [] then cache else After(sha, AfterOne(sha, cache, ops[0]), ops[1..])
  }

  lemma OneKeeps(sha: Sha, cache: Cache, op: Op)
    requires Is256(sha) && Issued(cache)
    ensures Issued(AfterOne(sha, cache, op))
    ensures op != Shutdown ==> Extends(cache, AfterOne(sha, cache, op))
  {
    if op.Shape? {
      ShapedKeeps(cache, Digest(sha, op.identity), op.ms);
    }
  }

  /** Without a shutdown the cache only grows, whatever is shaped or reconfigured. */
  lemma {:induction false} CacheGrows(sha: Sha, cache: Cache, ops: seq<Op>)
    requires Is256(sha) && Issued(cache)
    ensures Issued(After(sha, cache, ops))
    ensures Shutdown !in ops ==> Extends(cache, After(sha, cache, ops))
    decreases |ops|
  {
    if ops != [] {
      OneKeeps(sha, cache, ops[0]);
      CacheGrows(sha, AfterOne(sha, cache, ops[0]), ops[1..]);
    }
  }

  lemma CachedIsReturned(cache: Cache, digest: string, ms: nat)
    requires |digest| == 32 && digest in cache && |cache[digest]| == 30
    ensures Shaped(cache, digest, ms) == (cache, cache[digest])
  {
  }

  /** One identity keeps its id from its first request to the next shutdown, however many other
      conversations and reconfigurations come in between. */
  lemma StickyId(sha: Sha, before: seq<Op>, identity: string, first: nat, between: seq<Op>, again: nat)
    requires Is256(sha) && Shutdown !in between
    ensures var d := Digest(sha, identity);
            var (issued, id) := Shaped(After(sha, map[], before), d, first);
            Shaped(After(sha, issued, between), d, again) == (After(sha, issued, between), id)
  {
    var cache, d := After(sha, map[], before), Digest(sha, identity);
    CacheGrows(sha, map[], before);
    ShapedKeeps(cache, d, first);
    CacheGrows(sha, Shaped(cache, d, first).0, between);
    CachedIsReturned(After(sha, Shaped(cache, d, first).0, between), d, again);
  }

  /** An identity gets the id of its own digest: the cached one, or a new one that is cached. */
  lemma ShapedByDigest(sha: Sha, cache: Cache, identity: string, ms: nat)
    requires Is256(sha) && Issued(cache)
    ensures var digest := sha("ses_" + identity);
            Shaped(cache, Digest(sha, identity), ms) ==
            if digest in cache then (cache, cache[digest]) else (cache[digest := NewId(digest, ms)], NewId(digest, ms))
  {
    hide NewId;
    var digest := sha("ses_" + identity);
    if digest in cache {
      var first: nat :| cache[digest] == NewId(digest, first);
      NewIdFields(digest, first);
    }
  }

  /** No conversation of another digest, shaped however often and however the plugin is reconfigured, has a
      say in the id of this one. */
  lemma {:induction false} KeptApart(sha: Sha, cache: Cache, ops: seq<Op>, identity: string, ms: nat)
    requires Is256(sha) && Shutdown !in ops
    requires forall op <- ops :: op.Shape? ==> sha("ses_" + op.identity) != sha("ses_" + identity)
    ensures Shaped(After(sha, cache, ops), sha("ses_" + identity), ms).1 == Shaped(cache, sha("ses_" + identity), ms).1
    decreases |ops|
  {
    hide NewId;
    if ops != [] {
      assert ops[0] in ops;
      KeptApart(sha, AfterOne(sha, cache, ops[0]), ops[1..], identity, ms);
    }
  }
}
