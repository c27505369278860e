/**
  JavaScript strings as the ticket handler sees them: sequences of UTF-16 code
  units, with the three string operations the handler relies on for channel
  names, ticket reasons and interaction identifiers: `split` on a one-unit
  separator, `replace` of the first occurrence of a pattern, and `trim`.
 */
module JsStrings {

  datatype Option<+T> = None | Some(value: T)

  /** One UTF-16 code unit, the element of a JavaScript string. */
  newtype CodeUnit = x: int | 0 <= x < 0x1_0000

  type JsString = seq<CodeUnit>

  const DASH: CodeUnit := 0x2D
  const UNDERSCORE: CodeUnit := 0x5F

  predicate IsAscii(s: string) {
    forall i | 0 <= i < |s| :: s[i] < '\U{80}'
  }

  /** A Dafny string literal made of ASCII characters, as JavaScript code units. */
  function Ascii(s: string): (r: JsString)
    requires IsAscii(s)
    ensures |r| == |s|
    ensures forall i | 0 <= i < |s| :: r[i] as int == s[i] as int
  {
    seq(|s|, i requires 0 <= i < |s| => s[i] as int as CodeUnit)
  }

  predicate IsSurrogate(cp: int) {
    0xD800 <= cp < 0xE000
  }

  /** The UTF-16 encoding of one Unicode scalar value. */
  function EncodeCodePoint(cp: int): (r: JsString)
    requires 0 <= cp < 0x11_0000 && !IsSurrogate(cp)
    ensures cp < 0x1_0000 ==> r == [cp as CodeUnit]
    ensures cp >= 0x1_0000 ==>
      && |r| == 2
      && 0xD800 <= r[0] < 0xDC00 && 0xDC00 <= r[1] < 0xE000
      && 0x1_0000 + (r[0] as int - 0xD800) * 0x400 + (r[1] as int - 0xDC00) == cp
  {
    if cp < 0x1_0000 then [cp as CodeUnit]
    else
      var v := cp - 0x1_0000;
      [(0xD800 + v / 0x400) as CodeUnit, (0xDC00 + v % 0x400) as CodeUnit]
  }

  /** `s.startsWith(p)` */
  predicate StartsWith(s: JsString, p: JsString) {
    |p| <= |s| && s[..|p|] == p
  }

  lemma StartsWithConcat(p: JsString, t: JsString)
    ensures StartsWith(p + t, p)
  {
    assert (p + t)[..|p|] == p;
  }

  /** A prefix that disagrees with `q` at some index inside both cannot be extended to start with `q`. */
  lemma DisagreeingPrefix(p: JsString, q: JsString, i: nat, t: JsString)
    requires i < |p| && i < |q| && p[i] != q[i]
    ensures !StartsWith(p + t, q)
  {
  }

  /** The first index at or after `k` where `p` occurs in `s`. */
  function IndexOfFrom(s: JsString, p: JsString, k: nat): (r: Option<nat>)
    requires k <= |s|
    ensures r.Some? ==> k <= r.value <= |s| && StartsWith(s[r.value..], p)
    ensures r.Some? ==> forall j | k <= j < r.value :: !StartsWith(s[j..], p)
    ensures r.None? ==> forall j | k <= j <= |s| :: !StartsWith(s[j..], p)
    decreases |s| - k
  {
    if StartsWith(s[k..], p) then Some(k)
    else if k == |s| then None
    else IndexOfFrom(s, p, k + 1)
  }

  /** `s.indexOf(p)` (as an option instead of -1). */
  function IndexOf(s: JsString, p: JsString): Option<nat> {
    IndexOfFrom(s, p, 0)
  }

  /** `s.replace(p, rep)` for a string pattern: only the first occurrence is replaced. */
  function ReplaceFirst(s: JsString, p: JsString, rep: JsString): JsString {
    match IndexOf(s, p)
    case None => s
    case Some(i) => s[..i] + rep + s[i + |p|..]
  }

  lemma ReplaceFirstAtStart(s: JsString, p: JsString, rep: JsString)
    requires StartsWith(s, p)
    ensures ReplaceFirst(s, p, rep) == rep + s[|p|..]
  {
    assert s[0..] == s;
  }

  lemma ReplaceFirstAbsent(s: JsString, p: JsString, rep: JsString)
    requires forall j | 0 <= j <= |s| :: !StartsWith(s[j..], p)
    ensures ReplaceFirst(s, p, rep) == s
  {
  }

  /** `s.split(d)` for a one-code-unit separator `d`. */
  function Split(s: JsString, d: CodeUnit): (r: seq<JsString>)
    ensures |r| >= 1
    ensures forall k | 0 <= k < |r| :: d !in r[k]
    decreases |s|
  {
    if |s| == 0 then [[]]
    else if s[0] == d then [[]] + Split(s[1..], d)
    else
      var rest := Split(s[1..], d);
      [[s[0]] + rest[0]] + rest[1..]
  }

  /** `parts.join(d)` */
  function Join(parts: seq<JsString>, d: CodeUnit): JsString
    requires |parts| >= 1
    decreases |parts|
  {
    if |parts| == 1 then parts[0] else parts[0] + [d] + Join(parts[1..], d)
  }

  lemma {:induction false} SplitWithoutSeparator(s: JsString, d: CodeUnit)
    requires d !in s
    ensures Split(s, d) == [s]
    decreases |s|
  {
    if |s| > 0 {
      SplitWithoutSeparator(s[1..], d);
      assert [s[0]] + s[1..] == s;
    }
  }

  /** Splitting at one occurrence of the separator splits the two sides independently. */
  lemma {:induction false} SplitConcat(x: JsString, d: CodeUnit, y: JsString)
    ensures Split(x + [d] + y, d) == Split(x, d) + Split(y, d)
    decreases |x|
  {
    var s := x + [d] + y;
    if |x| == 0 {
      assert s[0] == d && s[1..] == y;
    } else {
      assert s[0] == x[0] && s[1..] == x[1..] + [d] + y;
      SplitConcat(x[1..], d, y);
    }
  }

  /** `split` is the inverse of `join` whenever no part holds the separator. */
  lemma {:induction false} SplitJoin(parts: seq<JsString>, d: CodeUnit)
    requires |parts| >= 1
    requires forall k | 0 <= k < |parts| :: d !in parts[k]
    ensures Split(Join(parts, d), d) == parts
    decreases |parts|
  {
    if |parts| == 1 {
      SplitWithoutSeparator(parts[0], d);
    } else {
      SplitJoin(parts[1..], d);
      SplitConcat(parts[0], d, Join(parts[1..], d));
      SplitWithoutSeparator(parts[0], d);
      assert [parts[0]] + parts[1..] == parts;
    }
  }

  /** `join` undoes `split`: no code unit of the input is lost. */
  lemma {:induction false} JoinSplit(s: JsString, d: CodeUnit)
    ensures Join(Split(s, d), d) == s
    decreases |s|
  {
    if |s| > 0 {
      JoinSplit(s[1..], d);
      var rest := Split(s[1..], d);
      if s[0] == d {
        assert Split(s, d)[1..] == rest;
        assert [d] + s[1..] == s;
      } else {
        var parts := Split(s, d);
        assert parts[1..] == rest[1..];
        if |rest| > 1 {
          assert rest == [rest[0]] + rest[1..];
          assert Join(rest, d) == rest[0] + [d] + Join(rest[1..], d);
        }
        assert [s[0]] + s[1..] == s;
      }
    }
  }

  /** WhiteSpace and LineTerminator code units, the set `String.prototype.trim` strips (ECMA-262). */
  predicate IsJsSpace(c: CodeUnit) {
    || c == 0x09 || c == 0x0A || c == 0x0B || c == 0x0C || c == 0x0D || c == 0x20
    || c == 0xA0 || c == 0x1680 || (0x2000 <= c <= 0x200A)
    || c == 0x2028 || c == 0x2029 || c == 0x202F || c == 0x205F || c == 0x3000 || c == 0xFEFF
  }

  /** The number of space code units at the front of `s`. */
  function LeadingSpaces(s: JsString): (n: nat)
    ensures n <= |s|
    ensures forall k | 0 <= k < n :: IsJsSpace(s[k])
    ensures n < |s| ==> !IsJsSpace(s[n])
    decreases |s|
  {
    if |s| > 0 && IsJsSpace(s[0]) then 1 + LeadingSpaces(s[1..]) else 0
  }

  /** The number of space code units at the back of `s`. */
  function TrailingSpaces(s: JsString): (n: nat)
    ensures n <= |s|
    ensures forall k | |s| - n <= k < |s| :: IsJsSpace(s[k])
    ensures n < |s| ==> !IsJsSpace(s[|s| - 1 - n])
    decreases |s|
  {
    if |s| > 0 && IsJsSpace(s[|s| - 1]) then 1 + TrailingSpaces(s[..|s| - 1]) else 0
  }

  /** `s.trim()` */
  function Trim(s: JsString): JsString {
    var front := s[LeadingSpaces(s)..];
    front[..|front| - TrailingSpaces(front)]
  }

  /** The trimmed string is a slice of the input with only spaces cut away, and it has no space at either end. */
  lemma TrimSpec(s: JsString)
    ensures exists i, j | 0 <= i <= j <= |s| ::
      && Trim(s) == s[i..j]
      && (forall k | 0 <= k < i :: IsJsSpace(s[k]))
      && (forall k | j <= k < |s| :: IsJsSpace(s[k]))
    ensures |Trim(s)| > 0 ==> !IsJsSpace(Trim(s)[0]) && !IsJsSpace(Trim(s)[|Trim(s)| - 1])
  {
    var i := LeadingSpaces(s);
    var front := s[i..];
    var j := i + |front| - TrailingSpaces(front);
    assert Trim(s) == s[i..j];
    forall k | j <= k < |s| ensures IsJsSpace(s[k]) {
      assert s[k] == front[k - i];
    }
    if |Trim(s)| > 0 {
      assert Trim(s)[0] == front[0];
      assert LeadingSpaces(s) < |s|;
    }
  }

  lemma {:induction false} LeadingSpacesOfTrimmed(s: JsString)
    requires |s| == 0 || !IsJsSpace(s[0])
    ensures LeadingSpaces(s) == 0
  {
  }

  /** Trimming twice is trimming once. */
  lemma TrimIdempotent(s: JsString)
    ensures Trim(Trim(s)) == Trim(s)
  {
    var t := Trim(s);
    TrimSpec(s);
    LeadingSpacesOfTrimmed(t);
    assert t[0..] == t;
    if |t| > 0 {
      assert TrailingSpaces(t) == 0;
    }
  }
}
