/** Byte strings as the Go code sees them: a `string` holds one `char` per byte, so `|s|` is
    `len(s)`.  Only the library functions that the modelled code calls are here. */
module Text {
  import Sequences

  datatype Option<+T> = None | Some(value: T)

  // ----- white space -----

  /** True when `b` is exactly the UTF-8 encoding of one Unicode space (`unicode.IsSpace`). */
  predicate SpaceRune(b: string) {
    if |b| == 1 then
      9 <= b[0] as int <= 13 || b[0] as int == 32
    else if |b| == 2 then
      b[0] as int == 0xC2 && b[1] as int in {0x85, 0xA0}
    else if |b| == 3 then
      var x, y, z := b[0] as int, b[1] as int, b[2] as int;
      || (x == 0xE1 && y == 0x9A && z == 0x80)
      || (x == 0xE2 && y == 0x80 && (0x80 <= z <= 0x8A || z in {0xA8, 0xA9, 0xAF}))
      || (x == 0xE2 && y == 0x81 && z == 0x9F)
      || (x == 0xE3 && y == 0x80 && z == 0x80)
    else
      false
  }

  /** Length in bytes of the space that `s` starts with, 0 when it starts with none. */
  function LeadingSpace(s: string): (n: nat)
    ensures n <= |s|
  {
    if |s| >= 1 && SpaceRune(s[..1]) then 1
    else if |s| >= 2 && SpaceRune(s[..2]) then 2
    else if |s| >= 3 && SpaceRune(s[..3]) then 3
    else 0
  }

  /** Length in bytes of the space that `s` ends with, 0 when it ends with none. */
  function TrailingSpace(s: string): (n: nat)
    ensures n <= |s|
  {
    if |s| >= 1 && SpaceRune(s[|s| - 1..]) then 1
    else if |s| >= 2 && SpaceRune(s[|s| - 2..]) then 2
    else if |s| >= 3 && SpaceRune(s[|s| - 3..]) then 3
    else 0
  }

  function TrimLeft(s: string): string {
    var n := LeadingSpace(s);
    if n == 0 then s else TrimLeft(s[n..])
  }

  function TrimRight(s: string): string {
    var n := TrailingSpace(s);
    if n == 0 then s else TrimRight(s[..|s| - n])
  }

  /** `strings.TrimSpace` */
  function TrimSpace(s: string): string {
    TrimRight(TrimLeft(s))
  }

  /** A string is left alone by TrimSpace exactly when it neither starts nor ends with a space. */
  predicate Trimmed(s: string) {
    LeadingSpace(s) == 0 && TrailingSpace(s) == 0
  }

  lemma TrimSpaceFixes(s: string)
    requires Trimmed(s)
    ensures TrimSpace(s) == s
  {
  }

  lemma {:induction false} TrimLeftTrims(s: string)
    ensures LeadingSpace(TrimLeft(s)) == 0
  {
    hide LeadingSpace;
    if LeadingSpace(s) != 0 {
      TrimLeftTrims(s[LeadingSpace(s)..]);
    }
  }

  lemma {:induction false} TrimRightTrims(s: string)
    ensures TrimRight(s) <= s && TrailingSpace(TrimRight(s)) == 0
  {
    hide TrailingSpace;
    var n := TrailingSpace(s);
    if n != 0 {
      var shorter := s[..|s| - n];
      TrimRightTrims(shorter);
      assert TrimRight(s) == TrimRight(shorter) && shorter <= s;
    }
  }

  lemma PrefixKeepsStart(t: string, s: string)
    requires t <= s && LeadingSpace(s) == 0
    ensures LeadingSpace(t) == 0
  {
    if |t| >= 1 { assert t[..1] == s[..1]; }
    if |t| >= 2 { assert t[..2] == s[..2]; }
    if |t| >= 3 { assert t[..3] == s[..3]; }
  }

  lemma TrimSpaceTrims(s: string)
    ensures Trimmed(TrimSpace(s))
    ensures TrimSpace(TrimSpace(s)) == TrimSpace(s)
  {
    TrimLeftTrims(s);
    TrimRightTrims(TrimLeft(s));
    PrefixKeepsStart(TrimSpace(s), TrimLeft(s));
    TrimSpaceFixes(TrimSpace(s));
  }

  /** A printing ASCII byte: never part of a space. */
  predicate Visible(c: char) {
    33 <= c as int <= 126
  }

  predicate VisibleEnds(s: string) {
    s != "" && Visible(s[0]) && Visible(s[|s| - 1])
  }

  lemma NotASpace(b: string)
    requires b != "" && (Visible(b[0]) || Visible(b[|b| - 1]))
    ensures !SpaceRune(b)
  {
  }

  lemma VisibleStart(s: string)
    requires s != "" && Visible(s[0])
    ensures LeadingSpace(s) == 0
  {
    NotASpace(s[..1]);
    if |s| >= 2 { NotASpace(s[..2]); }
    if |s| >= 3 { NotASpace(s[..3]); }
  }

  lemma VisibleEnd(s: string)
    requires s != "" && Visible(s[|s| - 1])
    ensures TrailingSpace(s) == 0
  {
    NotASpace(s[|s| - 1..]);
    if |s| >= 2 { NotASpace(s[|s| - 2..]); }
    if |s| >= 3 { NotASpace(s[|s| - 3..]); }
  }

  lemma VisibleEndsAreTrimmed(s: string)
    requires VisibleEnds(s)
    ensures TrimSpace(s) == s
  {
    VisibleStart(s);
    VisibleEnd(s);
    TrimSpaceFixes(s);
  }

  // ----- which bytes are white space -----

  /** The code points that `unicode.IsSpace` accepts. */
  predicate WhiteSpace(c: nat) {
    || 9 <= c <= 13 || c == 32 || c == 0x85 || c == 0xA0 || c == 0x1680 || 0x2000 <= c <= 0x200A
    || c == 0x2028 || c == 0x2029 || c == 0x202F || c == 0x205F || c == 0x3000
  }

  /** The UTF-8 encoding of a code point of up to 16 bits. */
  function Utf8(c: nat): (b: string)
    requires c < 0x1_0000
    ensures 1 <= |b| <= 3
  {
    if c < 0x80 then [c as char]
    else if c < 0x800 then [(0xC0 + c / 64) as char, (0x80 + c % 64) as char]
    else [(0xE0 + c / 4096) as char, (0x80 + c / 64 % 64) as char, (0x80 + c % 64) as char]
  }

  lemma SpaceIsWhiteSpace(c: nat)
    requires c < 0x1_0000
    ensures SpaceRune(Utf8(c)) <==> WhiteSpace(c)
  {
  }

  function Utf8s(cs: seq<nat>): string
    requires forall i :: 0 <= i < |cs| ==> cs[i] < 0x1_0000
  {
    if cs == [] then "" else Utf8(cs[0]) + Utf8s(cs[1..])
  }

  predicate AllWhite(cs: seq<nat>) {
    forall i :: 0 <= i < |cs| ==> cs[i] < 0x1_0000 && WhiteSpace(cs[i])
  }

  /** No part of the encoding of a space, from either end, is one itself. */
  lemma NoSpaceWithin(b: string)
    requires SpaceRune(b)
    ensures |b| >= 2 ==> !SpaceRune(b[..1]) && !SpaceRune(b[|b| - 1..])
    ensures |b| >= 3 ==> !SpaceRune(b[..2]) && !SpaceRune(b[|b| - 2..])
  {
  }

  lemma LeadingIsOne(c: nat, s: string)
    requires c < 0x1_0000 && WhiteSpace(c)
    ensures LeadingSpace(Utf8(c) + s) == |Utf8(c)|
  {
    hide SpaceRune, Utf8, WhiteSpace;
    var b, all := Utf8(c), Utf8(c) + s;
    SpaceIsWhiteSpace(c);
    NoSpaceWithin(b);
    assert all[..|b|] == b;
    if |b| >= 2 { assert all[..1] == b[..1]; }
    if |b| >= 3 { assert all[..2] == b[..2]; }
  }

  lemma TrailingIsOne(s: string, c: nat)
    requires c < 0x1_0000 && WhiteSpace(c)
    ensures TrailingSpace(s + Utf8(c)) == |Utf8(c)|
  {
    hide SpaceRune, Utf8, WhiteSpace;
    var b, all := Utf8(c), s + Utf8(c);
    SpaceIsWhiteSpace(c);
    NoSpaceWithin(b);
    assert all[|all| - |b|..] == b;
    if |b| >= 2 { assert all[|all| - 1..] == b[|b| - 1..]; }
    if |b| >= 3 { assert all[|all| - 2..] == b[|b| - 2..]; }
  }

  lemma {:induction false} TrimLeftStrips(cs: seq<nat>, s: string)
    requires AllWhite(cs) && LeadingSpace(s) == 0
    ensures TrimLeft(Utf8s(cs) + s) == s
  {
    hide SpaceRune, LeadingSpace, WhiteSpace, Utf8;
    if cs == [] {
      Sequences.Unit(s);
    } else {
      var b, rest := Utf8(cs[0]), Utf8s(cs[1..]);
      TrimLeftStrips(cs[1..], s);
      Sequences.Assoc(b, rest, s);
      LeadingIsOne(cs[0], rest + s);
      assert (b + (rest + s))[|b|..] == rest + s;
    }
  }

  lemma {:induction false} TrimRightStrips(s: string, cs: seq<nat>)
    requires AllWhite(cs) && TrailingSpace(s) == 0
    ensures TrimRight(s + Utf8s(cs)) == s
    decreases |cs|
  {
    hide SpaceRune, TrailingSpace, WhiteSpace, Utf8;
    if cs == [] {
      Sequences.Unit(s);
    } else {
      var n := |cs| - 1;
      var init, b := Utf8s(cs[..n]), Utf8(cs[n]);
      TrimRightStrips(s, cs[..n]);
      Utf8sSnoc(cs);
      Sequences.Assoc(s, init, b);
      TrailingIsOne(s + init, cs[n]);
      assert (s + init + b)[..|s + init + b| - |b|] == s + init;
    }
  }

  lemma {:induction false} Utf8sSnoc(cs: seq<nat>)
    requires AllWhite(cs) && cs != []
    ensures Utf8s(cs) == Utf8s(cs[..|cs| - 1]) + Utf8(cs[|cs| - 1])
  {
    hide WhiteSpace, Utf8;
    var n := |cs| - 1;
    if n == 0 {
      Sequences.Unit(Utf8(cs[0]));
      Sequences.Unit(Utf8(cs[n]));
    } else {
      Utf8sSnoc(cs[1..]);
      assert cs[1..][..n - 1] == cs[..n][1..];
      Sequences.Assoc(Utf8(cs[0]), Utf8s(cs[..n][1..]), Utf8(cs[n]));
    }
  }

  /** TrimSpace takes every white-space character from both ends, and nothing of what is between. */
  lemma TrimSpaceStrips(before: seq<nat>, s: string, after: seq<nat>)
    requires AllWhite(before) && AllWhite(after) && VisibleEnds(s)
    ensures TrimSpace(Utf8s(before) + s + Utf8s(after)) == s
  {
    hide TrimLeft, TrimRight, LeadingSpace, TrailingSpace, WhiteSpace;
    Sequences.Assoc(Utf8s(before), s, Utf8s(after));
    VisibleStart(s + Utf8s(after));
    TrimLeftStrips(before, s + Utf8s(after));
    VisibleEnd(s);
    TrimRightStrips(s, after);
  }

  lemma WhiteIsBlank(cs: seq<nat>)
    requires AllWhite(cs)
    ensures TrimSpace(Utf8s(cs)) == ""
  {
    hide TrimLeft, WhiteSpace;
    TrimLeftStrips(cs, "");
    Sequences.Unit(Utf8s(cs));
  }

  // ----- searching and joining -----

  predicate HasPrefix(s: string, prefix: string) {
    prefix <= s
  }

  /** `strings.TrimPrefix` */
  function TrimPrefix(s: string, prefix: string): string {
    if prefix <= s then s[|prefix|..] else s
  }

  /** `strings.Contains` */
  predicate Contains(s: string, sub: string) {
    exists i :: 0 <= i <= |s| && sub <= s[i..]
  }

  lemma ContainsReads(s: string, sub: string)
    ensures Contains(s, sub) <==> exists pre: string, post: string :: s == pre + sub + post
  {
    if Contains(s, sub) {
      var i :| 0 <= i <= |s| && sub <= s[i..];
      assert s == s[..i] + sub + s[i..][|sub|..];
    }
    if pre: string, post: string :| s == pre + sub + post {
      assert s[|pre|..] == sub + post;
    }
  }

  lemma ContainsWithin(pre: string, s: string, post: string, sub: string)
    requires Contains(s, sub)
    ensures Contains(pre + s + post, sub)
  {
    var i :| 0 <= i <= |s| && sub <= s[i..];
    var whole := pre + s + post;
    assert whole[|pre| + i..] == s[i..] + post;
    assert sub <= whole[|pre| + i..];
  }

  /** `strings.Join` */
  function Join(parts: seq<string>, sep: string): string {
    if parts == [] then ""
    else if |parts| == 1 then parts[0]
    else parts[0] + sep + Join(parts[1..], sep)
  }

  /** The pieces of `s` between line feeds; never empty. */
  function SplitLf(s: string): (parts: seq<string>)
    ensures parts != []
    ensures forall p <- parts :: '\n' !in p
  {
    if s == "" then [""]
    else
      var rest := SplitLf(s[1..]);
      if s[0] == '\n' then [""] + rest else [[s[0]] + rest[0]] + rest[1..]
  }

  lemma {:induction false} JoinSplitLf(s: string)
    ensures Join(SplitLf(s), "\n") == s
  {
    if s != "" {
      JoinSplitLf(s[1..]);
      var rest := SplitLf(s[1..]);
      if s[0] == '\n' {
        assert ([""] + rest)[1..] == rest;
        assert "" + "\n" + s[1..] == s;
      } else {
        var parts := [[s[0]] + rest[0]] + rest[1..];
        assert parts[1..] == rest[1..];
        assert [s[0]] + s[1..] == s;
        if |rest| > 1 {
          assert ([s[0]] + rest[0]) + "\n" + Join(rest[1..], "\n") == [s[0]] + (rest[0] + "\n" + Join(rest[1..], "\n"));
        }
      }
    }
  }

  /** The whole of `parts`, one after the other. */
  function Concat(parts: seq<string>): string {
    if parts == [] then "" else parts[0] + Concat(parts[1..])
  }

  lemma {:induction false} ConcatAppend(a: seq<string>, b: seq<string>)
    ensures Concat(a + b) == Concat(a) + Concat(b)
  {
    if a == [] {
      Sequences.Unit(b);
    } else {
      Sequences.AppendTail(a, b);
      ConcatAppend(a[1..], b);
      Sequences.Assoc(a[0], Concat(a[1..]), Concat(b));
    }
  }

  // ----- case folding against an ASCII word -----

  /** Simple case folding as far as it can reach ASCII: A-Z, the long s (U+017F) and the Kelvin
      sign (U+212A).  Every other byte stays, so it never equals a lower-case ASCII letter. */
  function Fold(s: string): string {
    if s == "" then ""
    else if 'A' <= s[0] <= 'Z' then [(s[0] as int + 32) as char] + Fold(s[1..])
    else if |s| >= 2 && s[0] as int == 0xC5 && s[1] as int == 0xBF then "s" + Fold(s[2..])
    else if |s| >= 3 && s[0] as int == 0xE2 && s[1] as int == 0x84 && s[2] as int == 0xAA then
      "k" + Fold(s[3..])
    else [s[0]] + Fold(s[1..])
  }

  predicate Ascii(s: string) {
    forall i :: 0 <= i < |s| ==> s[i] as int < 0x80
  }

  /** ASCII folds letter by letter, from upper case to lower. */
  lemma {:induction false} AsciiFolds(s: string)
    requires Ascii(s)
    ensures |Fold(s)| == |s|
    ensures forall i :: 0 <= i < |s| ==>
              Fold(s)[i] == if 'A' <= s[i] <= 'Z' then (s[i] as int + 32) as char else s[i]
  {
    if s != "" {
      AsciiFolds(s[1..]);
      Sequences.HeadTail(s);
    }
  }

  /** Lower-case ASCII with visible ends, as all names that the code compares with are. */
  predicate IsWord(w: string) {
    VisibleEnds(w) && Ascii(w) && forall i :: 0 <= i < |w| ==> !('A' <= w[i] <= 'Z')
  }

  lemma WordIsItself(w: string)
    requires IsWord(w)
    ensures TrimSpace(w) == w && Fold(w) == w
  {
    hide TrimSpace, Fold;
    VisibleEndsAreTrimmed(w);
    AsciiFolds(w);
  }

  /** The two letters outside ASCII that fold into it. */
  lemma LongLettersFold(s: string)
    ensures Fold([0xC5 as char, 0xBF as char] + s) == "s" + Fold(s)
    ensures Fold([0xE2 as char, 0x84 as char, 0xAA as char] + s) == "k" + Fold(s)
  {
    assert ([0xC5 as char, 0xBF as char] + s)[2..] == s;
    assert ([0xE2 as char, 0x84 as char, 0xAA as char] + s)[3..] == s;
  }

  /** `strings.EqualFold` against a lower-case ASCII word. */
  predicate EqualFold(s: string, word: string) {
    Fold(s) == word
  }
}
