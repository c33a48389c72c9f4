/**
 * The JavaScript string operations the planning layer relies on: trim, case mapping,
 * prefix / suffix / substring tests, split on one character and join.
 * A JavaScript string is a sequence of UTF-16 code units; here it is a `string` of
 * Unicode scalar values, so lengths and cuts agree with JavaScript's for text in the
 * Basic Multilingual Plane, where one character is one unit.
 */
module JsText {

  /** WhiteSpace and LineTerminator of ECMAScript: what `trim` and `parseInt` skip. */
  predicate IsJsSpace(c: char) {
    var n := c as int;
    n == 0x09 || n == 0x0A || n == 0x0B || n == 0x0C || n == 0x0D || n == 0x20 ||
    n == 0xA0 || n == 0x1680 || (0x2000 <= n <= 0x200A) || n == 0x2028 || n == 0x2029 ||
    n == 0x202F || n == 0x205F || n == 0x3000 || n == 0xFEFF
  }

  /** `s.trimStart()`: drop the leading white space. */
  function TrimStart(s: string): (r: string)
    ensures |r| <= |s| && r == s[|s| - |r|..]
    ensures forall i :: 0 <= i < |s| - |r| ==> IsJsSpace(s[i])
    ensures r != [] ==> !IsJsSpace(r[0])
  {
    if s != [] && IsJsSpace(s[0]) then TrimStart(s[1..]) else s
  }

  /** `s.trimEnd()`: drop the trailing white space. */
  function TrimEnd(s: string): (r: string)
    ensures |r| <= |s| && r == s[..|r|]
    ensures forall i :: |r| <= i < |s| ==> IsJsSpace(s[i])
    ensures r != [] ==> !IsJsSpace(r[|r| - 1])
  {
    if s != [] && IsJsSpace(s[|s| - 1]) then TrimEnd(s[..|s| - 1]) else s
  }

  /** `s.trim()`: the slice of `s` between its leading and trailing white space. */
  function Trim(s: string): (r: string)
    ensures exists i | 0 <= i <= |s| - |r| ::
      (SliceAt(s, r, i) &&
       (forall k :: 0 <= k < i ==> IsJsSpace(s[k])) &&
       (forall k :: i + |r| <= k < |s| ==> IsJsSpace(s[k])))
    ensures r != [] ==> !IsJsSpace(r[0]) && !IsJsSpace(r[|r| - 1])
  {
    var t := TrimStart(s);
    var r := TrimEnd(t);
    var i := |s| - |t|;
    assert r == s[i..i + |r|];
    assert SliceAt(s, r, i);
    r
  }

  /** Neither the first nor the last unit of `s` is white space. */
  predicate NoEdgeSpace(s: string) {
    s == [] || (!IsJsSpace(s[0]) && !IsJsSpace(s[|s| - 1]))
  }

  /** `trim` leaves a string without edge white space as it is. */
  lemma TrimOfTrimmed(s: string)
    requires NoEdgeSpace(s)
    ensures Trim(s) == s
  {
    assert TrimStart(s) == s;
    assert TrimEnd(s) == s;
  }

  /**
   * `toLowerCase` on one unit, for the units whose lower case is a single ASCII letter:
   * 'A'..'Z' and the Kelvin sign U+212A. Every other unit is left as it is.
   */
  function LowerChar(c: char): char {
    if 'A' <= c <= 'Z' then (c as int + 32) as char
    else if c as int == 0x212A then 'k'
    else c
  }

  /**
   * `toUpperCase` on one unit, for the units whose upper case is a single ASCII letter:
   * 'a'..'z', the long s U+017F and the dotless i U+0131. Every other unit is left as it is.
   */
  function UpperChar(c: char): char {
    if 'a' <= c <= 'z' then (c as int - 32) as char
    else if c as int == 0x017F then 'S'
    else if c as int == 0x0131 then 'I'
    else c
  }

  function Lower(s: string): (r: string)
    ensures |r| == |s| && forall i :: 0 <= i < |s| ==> r[i] == LowerChar(s[i])
  {
    if s == [] then [] else [LowerChar(s[0])] + Lower(s[1..])
  }

  function Upper(s: string): (r: string)
    ensures |r| == |s| && forall i :: 0 <= i < |s| ==> r[i] == UpperChar(s[i])
  {
    if s == [] then [] else [UpperChar(s[0])] + Upper(s[1..])
  }

  /** `s.startsWith(p)` */
  predicate StartsWith(s: string, p: string) {
    |p| <= |s| && s[..|p|] == p
  }

  /** `s.endsWith(p)` */
  predicate EndsWith(s: string, p: string) {
    |p| <= |s| && s[|s| - |p|..] == p
  }

  /** `p` occurs in `s` at index `i`. */
  predicate SliceAt(s: string, p: string, i: int) {
    0 <= i <= |s| - |p| && s[i..i + |p|] == p
  }

  /** `s.includes(p)`: some slice of `s` equals `p`. */
  function Contains(s: string, p: string): (b: bool)
    ensures b <==> exists i :: SliceAt(s, p, i)
  {
    ContainsFrom(s, p, 0)
  }

  /** `Contains`, scanning left to right from index `i`. */
  function ContainsFrom(s: string, p: string, i: nat): (b: bool)
    requires i <= |s|
    ensures b <==> exists k :: i <= k && SliceAt(s, p, k)
    decreases |s| - i
  {
    if i + |p| > |s| then false
    else if s[i..i + |p|] == p then assert SliceAt(s, p, i); true
    else ContainsFrom(s, p, i + 1)
  }

  /** Index of the first `c` in `s`, or -1. */
  function IndexOf(s: string, c: char): (r: int)
    ensures -1 <= r < |s|
    ensures r == -1 ==> c !in s
    ensures r >= 0 ==> s[r] == c && c !in s[..r]
  {
    if s == [] then -1
    else if s[0] == c then 0
    else var k := IndexOf(s[1..], c); if k == -1 then -1 else k + 1
  }

  /** `s.split(sep)` for a one-unit separator: the pieces between the separators, in order. */
  function Split(s: string, sep: char): (parts: seq<string>)
    ensures |parts| >= 1
    ensures forall k :: 0 <= k < |parts| ==> sep !in parts[k]
    decreases |s|
  {
    var i := IndexOf(s, sep);
    if i < 0 then [s] else [s[..i]] + Split(s[i + 1..], sep)
  }

  /** `parts.join(sep)` */
  function Join(parts: seq<string>, sep: string): string {
    if parts == [] then ""
    else if |parts| == 1 then parts[0]
    else parts[0] + sep + Join(parts[1..], sep)
  }

  /** Every part occurs in the joined text. */
  lemma {:induction false} JoinHasPart(parts: seq<string>, sep: string, k: nat)
    requires k < |parts|
    ensures Contains(Join(parts, sep), parts[k])
    decreases |parts|
  {
    var joined := Join(parts, sep);
    if k == 0 {
      assert SliceAt(joined, parts[0], 0);
    } else {
      var rest := Join(parts[1..], sep);
      JoinHasPart(parts[1..], sep, k - 1);
      var i :| SliceAt(rest, parts[k], i);
      var at := |parts[0]| + |sep| + i;
      assert joined == parts[0] + sep + rest;
      assert joined[at..at + |parts[k]|] == rest[i..i + |parts[k]|];
      assert SliceAt(joined, parts[k], at);
    }
  }

  /** Two parts joined: the first, the separator, the second. */
  lemma JoinTwo(a: string, b: string, sep: string)
    ensures Join([a, b], sep) == a + sep + b
  {
    assert [a, b][1..] == [b];
  }

  /** Three parts joined, separated twice. */
  lemma JoinThree(a: string, b: string, c: string, sep: string)
    ensures Join([a, b, c], sep) == a + sep + b + sep + c
  {
    assert [a, b, c][1..] == [b, c];
    JoinTwo(b, c, sep);
  }

  /** Splitting `p + [sep] + rest` where `p` has no separator yields `p` first. */
  lemma {:induction false} SplitAfterPiece(p: string, sep: char, rest: string)
    requires sep !in p
    ensures Split(p + [sep] + rest, sep) == [p] + Split(rest, sep)
  {
    var s := p + [sep] + rest;
    var i := IndexOf(s, sep);
    assert s[|p|] == sep;
    assert s[..|p|] == p;
    assert forall k :: 0 <= k < |p| ==> s[k] == p[k];
    assert i == |p|;
    assert s[i + 1..] == rest;
  }
}
