/** The `bufio.Scanner` of `readNativeSSE` over a whole body: `bufio.ScanLines` with a buffer of at
    most `LIMIT` bytes. */
module LineScanner {
  import Sequences

  /** 8 MiB: the largest token of the scanner, and of the reader above it the largest frame. */
  const LIMIT: nat := 8 * 1024 * 1024

  /** The lines before the scanner stopped, and whether it stopped on a line that did not fit. */
  datatype Scan = Scan(lines: seq<string>, tooLong: bool)

  function IndexLf(s: string): (n: nat)
    ensures n <= |s| && '\n' !in s[..n]
    ensures n < |s| ==> s[n] == '\n'
  {
    if s == "" || s[0] == '\n' then 0
    else
      var n := 1 + IndexLf(s[1..]);
      assert s[..n] == [s[0]] + s[1..][..n - 1];
      n
  }

  function DropCr(line: string): string {
    if line != "" && line[|line| - 1] == '\r' then line[..|line| - 1] else line
  }

  /** The line feed must be found within the first `LIMIT` bytes; the last line needs none. */
  function ScanLines(body: string): Scan
    decreases |body|
  {
    if body == "" then Scan([], false)
    else
      var n := IndexLf(body);
      if n >= LIMIT then Scan([], true)
      else if n == |body| then Scan([DropCr(body)], false)
      else
        var rest := ScanLines(body[n + 1..]);
        Scan([DropCr(body[..n])] + rest.lines, rest.tooLong)
  }

  /** A line that the scanner gives back as it was written. */
  predicate Scannable(line: string) {
    && '\n' !in line
    && (line == "" || line[|line| - 1] != '\r')
    && |line| < 8 * 1024 * 1024
  }

  function Ending(crlf: bool): string {
    if crlf then "\r\n" else "\n"
  }

  /** The lines with an ending each, CRLF or LF. */
  function Encode(lines: seq<string>, crlf: seq<bool>): string
    requires |crlf| == |lines|
  {
    if lines == [] then "" else lines[0] + Ending(crlf[0]) + Encode(lines[1..], crlf[1..])
  }

  /** Every line is found within the buffer together with its ending. */
  predicate Fits(lines: seq<string>, crlf: seq<bool>)
    requires |crlf| == |lines|
  {
    forall i :: 0 <= i < |lines| ==> Scannable(lines[i]) && |lines[i]| + |Ending(crlf[i])| <= 8 * 1024 * 1024
  }

  lemma {:induction false} IndexOfFirst(raw: string, tail: string)
    requires '\n' !in raw
    ensures IndexLf(raw + "\n" + tail) == |raw|
  {
    if raw != "" {
      IndexOfFirst(raw[1..], tail);
      assert (raw + "\n" + tail)[1..] == raw[1..] + "\n" + tail;
    }
  }

  lemma ScanRaw(raw: string, tail: string)
    requires '\n' !in raw && |raw| < LIMIT
    ensures ScanLines(raw + "\n" + tail) == Scan([DropCr(raw)] + ScanLines(tail).lines, ScanLines(tail).tooLong)
  {
    hide DropCr;
    var body := raw + "\n" + tail;
    IndexOfFirst(raw, tail);
    assert body[..|raw|] == raw && body[|raw| + 1..] == tail;
  }

  lemma ScanOne(line: string, crlf: bool, tail: string)
    requires Scannable(line) && |line| + |Ending(crlf)| <= 8 * 1024 * 1024
    ensures ScanLines(line + Ending(crlf) + tail)
         == Scan([line] + ScanLines(tail).lines, ScanLines(tail).tooLong)
  {
    hide ScanLines;
    var raw := if crlf then line + "\r" else line;
    assert line + Ending(crlf) == raw + "\n";
    assert DropCr(raw) == line;
    ScanRaw(raw, tail);
  }

  lemma {:induction false} ScanEncoded(lines: seq<string>, crlf: seq<bool>, tail: string)
    requires |crlf| == |lines| && Fits(lines, crlf)
    ensures ScanLines(Encode(lines, crlf) + tail)
         == Scan(lines + ScanLines(tail).lines, ScanLines(tail).tooLong)
  {
    if lines == [] {
      Sequences.Unit(tail);
      Sequences.Unit(ScanLines(tail).lines);
    } else {
      var rest := Encode(lines[1..], crlf[1..]);
      ScanEncoded(lines[1..], crlf[1..], tail);
      Sequences.Assoc(lines[0] + Ending(crlf[0]), rest, tail);
      ScanOne(lines[0], crlf[0], rest + tail);
      Sequences.HeadTail(lines);
      Sequences.Assoc([lines[0]], lines[1..], ScanLines(tail).lines);
    }
  }

  lemma {:induction false} NoLineFeed(raw: string)
    requires '\n' !in raw
    ensures IndexLf(raw) == |raw|
  {
    if raw != "" {
      NoLineFeed(raw[1..]);
    }
  }

  lemma ScanLast(raw: string)
    requires raw != "" && '\n' !in raw && |raw| < 8 * 1024 * 1024
    ensures ScanLines(raw) == Scan([DropCr(raw)], false)
  {
    hide DropCr;
    NoLineFeed(raw);
  }

  /** A last line without an ending is a line too; a carriage return at its end goes. */
  lemma ScanUnterminated(lines: seq<string>, crlf: seq<bool>, last: string)
    requires |crlf| == |lines| && Fits(lines, crlf)
    requires Scannable(last)
    ensures last != "" ==> ScanLines(Encode(lines, crlf) + last) == Scan(lines + [last], false)
    ensures |last| + 1 < 8 * 1024 * 1024 ==>
              ScanLines(Encode(lines, crlf) + (last + "\r")) == Scan(lines + [last], false)
  {
    hide ScanLines, Encode, Fits;
    if last != "" {
      ScanLast(last);
      ScanEncoded(lines, crlf, last);
    }
    if |last| + 1 < 8 * 1024 * 1024 {
      ScanLast(last + "\r");
      Sequences.DropLast(last, '\r');
      ScanEncoded(lines, crlf, last + "\r");
    }
  }

  lemma ScanStuck(raw: string)
    requires |raw| >= 8 * 1024 * 1024 && '\n' !in raw[..8 * 1024 * 1024]
    ensures ScanLines(raw) == Scan([], true)
  {
    NotBefore(raw, 8 * 1024 * 1024);
  }

  /** A line without a line feed in its first 8 MiB stops the scanner behind the lines before it. */
  lemma ScanTooLong(lines: seq<string>, crlf: seq<bool>, raw: string)
    requires |crlf| == |lines| && Fits(lines, crlf)
    requires |raw| >= 8 * 1024 * 1024 && '\n' !in raw[..8 * 1024 * 1024]
    ensures ScanLines(Encode(lines, crlf) + raw) == Scan(lines, true)
  {
    hide ScanLines, Encode, Fits;
    ScanEncoded(lines, crlf, raw);
    ScanStuck(raw);
    Sequences.Unit(lines);
  }

  lemma NotBefore(raw: string, n: nat)
    requires n <= |raw| && '\n' !in raw[..n]
    ensures IndexLf(raw) >= n
  {
    assert forall k :: 0 <= k < n ==> raw[..n][k] == raw[k];
  }

  /** Of several carriage returns in front of a line feed one goes. */
  lemma OneReturnGoes(line: string, tail: string)
    requires '\n' !in line && |line| + 2 < LIMIT
    ensures ScanLines(line + "\r\r\n" + tail) == Scan([line + "\r"] + ScanLines(tail).lines, ScanLines(tail).tooLong)
  {
    hide ScanLines;
    var raw := line + "\r\r";
    assert line + "\r\r\n" == raw + "\n";
    assert DropCr(raw) == line + "\r";
    ScanRaw(raw, tail);
  }

  lemma DropCrKeeps(raw: string)
    requires '\n' !in raw
    ensures '\n' !in DropCr(raw) && |DropCr(raw)| <= |raw|
  {
  }

  /** What a scanner yields is free of line feeds, and fits. */
  lemma {:induction false} ScannedLines(body: string)
    ensures forall l <- ScanLines(body).lines :: '\n' !in l && |l| < LIMIT
  {
    var n := IndexLf(body);
    if body != "" && n < LIMIT {
      DropCrKeeps(body[..n]);
      if n == |body| {
        assert body[..n] == body;
      } else {
        ScannedLines(body[n + 1..]);
      }
    }
  }
}
