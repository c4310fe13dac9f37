/** The parts of Go's `strings` package and of `bufio.ScanLines` that the
    configuration parser and the diff engine rely on, over `seq<char>`. */
module Text {

  import opened Wrappers

  /** `unicode.IsSpace`: the Latin-1 spaces and the Unicode White_Space set. */
  predicate IsSpace(c: char) {
    var n := c as int;
    n == 0x09 || n == 0x0A || n == 0x0B || n == 0x0C || n == 0x0D || n == 0x20
    || n == 0x85 || n == 0xA0 || n == 0x1680 || (0x2000 <= n <= 0x200A)
    || n == 0x2028 || n == 0x2029 || n == 0x202F || n == 0x205F || n == 0x3000
  }

  predicate AllSpace(s: string) {
    forall i :: 0 <= i < |s| ==> IsSpace(s[i])
  }

  function TrimLeft(s: string): string {
    if s != [] && IsSpace(s[0]) then TrimLeft(s[1..]) else s
  }

  function TrimRight(s: string): string {
    if s != [] && IsSpace(s[|s| - 1]) then TrimRight(s[..|s| - 1]) else s
  }

  /** `strings.TrimSpace`: leading, then trailing white space removed. */
  function TrimSpace(s: string): string {
    TrimRight(TrimLeft(s))
  }

  predicate HasPrefix(s: string, p: string) {
    |p| <= |s| && s[..|p|] == p
  }

  predicate HasSuffix(s: string, p: string) {
    |p| <= |s| && s[|s| - |p|..] == p
  }

  /** `strings.Contains`: `sub` occurs in `s` at some offset. */
  predicate Contains(s: string, sub: string)
    decreases |s|
  {
    HasPrefix(s, sub) || (s != [] && Contains(s[1..], sub))
  }

  /** The index of the first `c` in `s`, or -1 (`strings.IndexByte`). */
  function FirstIndex(s: string, c: char): (r: int)
    ensures r == -1 <==> c !in s
    ensures 0 <= r ==> r < |s| && s[r] == c && c !in s[..r]
  {
    if s == [] then -1
    else if s[0] == c then 0
    else
      var k := FirstIndex(s[1..], c);
      if k < 0 then -1
      else
        assert s[..k + 1] == [s[0]] + s[1..][..k];
        k + 1
  }

  /** `strings.SplitN(s, sep, 2)` for a one-character separator: the text
      before and after the first `sep`, or None when there is none. */
  function SplitFirst(s: string, sep: char): (r: Option<(string, string)>)
    ensures r.None? <==> sep !in s
    ensures r.Some? ==> s == r.value.0 + [sep] + r.value.1 && sep !in r.value.0
  {
    var i := FirstIndex(s, sep);
    if i < 0 then None
    else
      assert s == s[..i] + [sep] + s[i + 1..];
      Some((s[..i], s[i + 1..]))
  }

  /** `strings.Join`. */
  function Join(parts: seq<string>, sep: string): string {
    if parts == [] then ""
    else if |parts| == 1 then parts[0]
    else parts[0] + sep + Join(parts[1..], sep)
  }

  /** One line of `bufio.ScanLines` loses its final carriage return. */
  function DropCR(line: string): string {
    if line != [] && line[|line| - 1] == '\r' then line[..|line| - 1] else line
  }

  /** The lines `bufio.ScanLines` yields: split at each newline, a final
      line without newline kept, a final empty line dropped. */
  function Lines(s: string): seq<string>
    decreases |s|
  {
    if s == [] then []
    else
      var i := FirstIndex(s, '\n');
      if i < 0 then [DropCR(s)]
      else [DropCR(s[..i])] + Lines(s[i + 1..])
  }

  /** The text of `lines`, each ended by a newline. */
  function JoinLines(lines: seq<string>): string {
    if lines == [] then "" else lines[0] + "\n" + JoinLines(lines[1..])
  }

  /** A line that `Lines` gives back unchanged. */
  predicate PlainLine(line: string) {
    '\n' !in line && !(line != [] && line[|line| - 1] == '\r')
  }

  /** Scanning a text written line by line gives the lines back. */
  lemma {:induction false} LinesOfJoinLines(lines: seq<string>)
    requires forall k :: 0 <= k < |lines| ==> PlainLine(lines[k])
    ensures Lines(JoinLines(lines)) == lines
  {
    if lines != [] {
      var s := JoinLines(lines);
      var rest := JoinLines(lines[1..]);
      assert s == lines[0] + "\n" + rest;
      assert FirstIndex(s, '\n') == |lines[0]| by {
        assert s[..|lines[0]|] == lines[0];
        assert s[|lines[0]|] == '\n';
        FirstIndexIs(s, '\n', |lines[0]|);
      }
      assert s[..|lines[0]|] == lines[0];
      assert s[|lines[0]| + 1..] == rest;
      LinesOfJoinLines(lines[1..]);
    }
  }

  lemma FirstIndexIs(s: string, c: char, i: nat)
    requires i < |s| && s[i] == c && c !in s[..i]
    ensures FirstIndex(s, c) == i
  {
    assert s[i] in s;
  }

  // ---- Trimming ----

  lemma {:induction false} TrimLeftSpaces(ws: string, t: string)
    requires AllSpace(ws)
    ensures TrimLeft(ws + t) == TrimLeft(t)
  {
    if ws != [] {
      assert (ws + t)[0] == ws[0];
      assert (ws + t)[1..] == ws[1..] + t;
      TrimLeftSpaces(ws[1..], t);
    } else {
      assert ws + t == t;
    }
  }

  lemma {:induction false} TrimRightSpaces(t: string, ws: string)
    requires AllSpace(ws)
    ensures TrimRight(t + ws) == TrimRight(t)
    decreases |ws|
  {
    if ws != [] {
      var u := t + ws;
      assert u[..|u| - 1] == t + ws[..|ws| - 1];
      TrimRightSpaces(t, ws[..|ws| - 1]);
    } else {
      assert t + ws == t;
    }
  }

  lemma {:induction false} TrimLeftAllSpace(s: string)
    requires AllSpace(s)
    ensures TrimLeft(s) == []
  {
    if s != [] {
      TrimLeftAllSpace(s[1..]);
    }
  }

  /** When `s` holds a non-space character, text appended after it survives
      the left trim. */
  lemma {:induction false} TrimLeftAppend(s: string, w: string)
    requires !AllSpace(s)
    ensures TrimLeft(s + w) == TrimLeft(s) + w
  {
    if IsSpace(s[0]) {
      assert (s + w)[1..] == s[1..] + w;
      TrimLeftAppend(s[1..], w);
    }
  }

  /** White space added around a text never changes its trimmed form. */
  lemma TrimSpacePadding(ws1: string, s: string, ws2: string)
    requires AllSpace(ws1) && AllSpace(ws2)
    ensures TrimSpace(ws1 + s + ws2) == TrimSpace(s)
  {
    assert ws1 + s + ws2 == ws1 + (s + ws2);
    TrimLeftSpaces(ws1, s + ws2);
    if AllSpace(s) {
      assert AllSpace(s + ws2);
      TrimLeftAllSpace(s + ws2);
      TrimLeftAllSpace(s);
    } else {
      TrimLeftAppend(s, ws2);
      TrimRightSpaces(TrimLeft(s), ws2);
    }
  }

  lemma {:induction false} TrimLeftFirst(s: string)
    requires s != [] && !IsSpace(s[0])
    ensures TrimLeft(s) == s
  {
  }

  /** The right trim keeps a non-space first character in place. */
  lemma {:induction false} TrimRightKeepsFirst(s: string)
    requires s != [] && !IsSpace(s[0])
    ensures TrimRight(s) != [] && TrimRight(s)[0] == s[0]
    ensures HasPrefix(s, TrimRight(s))
    decreases |s|
  {
    if IsSpace(s[|s| - 1]) {
      TrimRightKeepsFirst(s[..|s| - 1]);
    }
  }

  /** A text whose first character is not white space keeps it as the
      first character of its trimmed form. */
  lemma TrimSpaceFirst(s: string)
    requires s != [] && !IsSpace(s[0])
    ensures TrimSpace(s) != [] && TrimSpace(s)[0] == s[0]
  {
    TrimRightKeepsFirst(s);
  }

  /** A text that has a prefix of `p`, then a non-space: that prefix is kept
      by the right trim. */
  lemma {:induction false} TrimRightAfterPrefix(p: string, x: string)
    requires !AllSpace(x)
    ensures TrimRight(p + x) == p + TrimRight(x)
    decreases |x|
  {
    if IsSpace(x[|x| - 1]) {
      var u := p + x;
      assert u[..|u| - 1] == p + x[..|x| - 1];
      TrimRightAfterPrefix(p, x[..|x| - 1]);
    }
  }

  lemma {:induction false} TrimRightAllSpace(s: string)
    requires AllSpace(s)
    ensures TrimRight(s) == []
    decreases |s|
  {
    if s != [] {
      TrimRightAllSpace(s[..|s| - 1]);
    }
  }

  lemma {:induction false} TrimRightNotAllSpace(s: string)
    requires !AllSpace(s)
    ensures 0 < |TrimRight(s)| <= |s| && !IsSpace(TrimRight(s)[|TrimRight(s)| - 1])
    ensures TrimRight(s) == s[..|TrimRight(s)|]
    decreases |s|
  {
    if IsSpace(s[|s| - 1]) {
      TrimRightNotAllSpace(s[..|s| - 1]);
    }
  }

  lemma {:induction false} TrimLeftNotAllSpace(s: string)
    requires !AllSpace(s)
    ensures 0 < |TrimLeft(s)| <= |s| && !IsSpace(TrimLeft(s)[0])
    ensures TrimLeft(s) == s[|s| - |TrimLeft(s)|..]
  {
    if IsSpace(s[0]) {
      TrimLeftNotAllSpace(s[1..]);
    }
  }

  /** The trimmed form of a text is exactly empty when the text is all white
      space. */
  lemma TrimSpaceEmpty(s: string)
    ensures TrimSpace(s) == [] <==> AllSpace(s)
  {
    if AllSpace(s) {
      TrimLeftAllSpace(s);
    } else {
      TrimLeftNotAllSpace(s);
      TrimRightNotAllSpace(TrimLeft(s));
    }
  }

  lemma {:induction false} ContainsAt(s: string, sub: string, i: nat)
    requires i + |sub| <= |s| && s[i..i + |sub|] == sub
    ensures Contains(s, sub)
  {
    if i > 0 {
      assert s[1..][i - 1..i - 1 + |sub|] == sub;
      ContainsAt(s[1..], sub, i - 1);
    } else {
      assert s[..|sub|] == sub;
    }
  }

  /** `sub` stands in `s` at index `i`. */
  predicate OccursAt(s: string, sub: string, i: nat) {
    i + |sub| <= |s| && s[i..i + |sub|] == sub
  }

  /** Where a contained string stands. */
  lemma {:induction false} ContainsWhere(s: string, sub: string)
    requires Contains(s, sub)
    ensures exists i: nat :: OccursAt(s, sub, i)
    decreases |s|
  {
    if HasPrefix(s, sub) {
      assert OccursAt(s, sub, 0);
    } else {
      ContainsWhere(s[1..], sub);
      var i: nat :| OccursAt(s[1..], sub, i);
      assert s[i + 1..i + 1 + |sub|] == s[1..][i..i + |sub|];
      assert OccursAt(s, sub, i + 1);
    }
  }
}
