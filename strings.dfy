/**
  String operations the client relies on from the JavaScript runtime:
  `startsWith`, `trim`, `replace` with a string pattern (first occurrence
  only), `split` on a one-character separator, `split(..).pop()`, `join`,
  ASCII `toLowerCase`, the decimal rendering of a non-negative integer and
  `padStart(2, "0")`.
*/
module Strings {
  import opened Wrappers

  /** `s.startsWith(p)`. */
  predicate StartsWith(s: string, p: string) {
    p <= s
  }

  /** The characters `String.prototype.trim` strips, restricted to the ones
      this model knows about (space, tab, line feed, carriage return, vertical
      tab, form feed, no-break space, byte order mark, line and paragraph
      separators). */
  predicate IsWhitespace(c: char) {
    c == ' ' || c == '\t' || c == '\n' || c == '\r' || c == '\U{0B}' || c == '\U{0C}'
    || c == '\U{A0}' || c == '\U{FEFF}' || c == '\U{2028}' || c == '\U{2029}'
  }

  predicate AllWhitespace(s: string) {
    forall k :: 0 <= k < |s| ==> IsWhitespace(s[k])
  }

  /** Neither end of `s` is whitespace. */
  predicate IsTrimmed(s: string) {
    s == [] || (!IsWhitespace(s[0]) && !IsWhitespace(s[|s| - 1]))
  }

  function TrimStart(s: string): (r: string)
    ensures |r| <= |s| && r == s[|s| - |r|..]
    ensures r == [] || !IsWhitespace(r[0])
  {
    if s != [] && IsWhitespace(s[0]) then TrimStart(s[1..]) else s
  }

  /** What `TrimStart` removes is whitespace. */
  lemma {:induction false} TrimStartStrips(s: string)
    ensures AllWhitespace(s[..|s| - |TrimStart(s)|])
  {
    if s != [] && IsWhitespace(s[0]) {
      TrimStartStrips(s[1..]);
      var n := |s| - |TrimStart(s)|;
      assert forall k :: 1 <= k < n ==> s[..n][k] == s[1..][..n - 1][k - 1];
    }
  }

  function TrimEnd(s: string): (r: string)
    ensures |r| <= |s| && r == s[..|r|]
    ensures r == [] || !IsWhitespace(r[|r| - 1])
  {
    if s != [] && IsWhitespace(s[|s| - 1]) then TrimEnd(s[..|s| - 1]) else s
  }

  /** What `TrimEnd` removes is whitespace. */
  lemma {:induction false} TrimEndStrips(s: string)
    ensures AllWhitespace(s[|TrimEnd(s)|..])
  {
    if s != [] && IsWhitespace(s[|s| - 1]) {
      TrimEndStrips(s[..|s| - 1]);
      var m := |TrimEnd(s)|;
      assert forall k :: 0 <= k < |s| - 1 - m ==> s[m..][k] == s[..|s| - 1][m..][k];
    }
  }

  /** `r` is `s` with some whitespace cut from each end. */
  predicate StripsEnds(s: string, r: string) {
    exists i, j :: 0 <= i <= j <= |s| && r == s[i..j] && AllWhitespace(s[..i]) && AllWhitespace(s[j..])
  }

  /** `s.trim()`: the input with its leading and trailing whitespace cut
      off, so that neither end of what is left is whitespace. */
  function Trim(s: string): (r: string)
    ensures IsTrimmed(r)
    ensures StripsEnds(s, r)
    ensures |r| <= |s|
  {
    var t := TrimStart(s);
    var r := TrimEnd(t);
    TrimStripsEnds(s);
    if t == [] then r
    else
      TrimEndKeepsHead(t);
      r
  }

  lemma TrimStripsEnds(s: string)
    ensures StripsEnds(s, TrimEnd(TrimStart(s)))
  {
    TrimStartStrips(s);
    TrimEndStrips(TrimStart(s));
    StripsFrom(s, TrimStart(s), TrimEnd(TrimStart(s)));
  }

  /** A whitespace-led suffix, then a prefix of it followed by whitespace. */
  lemma StripsFrom(s: string, t: string, r: string)
    requires |t| <= |s| && t == s[|s| - |t|..] && AllWhitespace(s[..|s| - |t|])
    requires |r| <= |t| && r == t[..|r|] && AllWhitespace(t[|r|..])
    ensures StripsEnds(s, r)
  {
    var i := |s| - |t|;
    SuffixSlices(s, t, i, |r|);
    StripsAt(s, i, i + |r|, r);
  }

  /** Slices of a suffix are slices of the whole. */
  lemma SuffixSlices(s: string, t: string, i: nat, n: nat)
    requires i <= |s| && t == s[i..] && n <= |t|
    ensures s[i..i + n] == t[..n] && s[i + n..] == t[n..]
  {
  }

  lemma StripsAt(s: string, i: nat, j: nat, r: string)
    requires i <= j <= |s| && r == s[i..j] && AllWhitespace(s[..i]) && AllWhitespace(s[j..])
    ensures StripsEnds(s, r)
  {
  }

  /** The trimmed text is empty exactly when the input is all whitespace. */
  lemma TrimEmpty(s: string)
    ensures Trim(s) == [] <==> AllWhitespace(s)
  {
    var t := TrimStart(s);
    TrimStartStrips(s);
    if t == [] {
      assert s[..|s|] == s;
    } else {
      TrimEndKeepsHead(t);
      assert s[|s| - |t|] == t[0];
    }
  }

  lemma {:induction false} TrimEndKeepsHead(t: string)
    requires t != [] && !IsWhitespace(t[0])
    ensures TrimEnd(t) != []
  {
    if |t| > 1 {
      TrimEndKeepsHead(t[..|t| - 1]);
    }
  }

  /** Trimming only removes characters: one absent before is absent after. */
  lemma TrimKeepsAbsent(s: string, c: char)
    requires c !in s
    ensures c !in Trim(s)
  {
    var t := TrimStart(s);
    SliceKeepsAbsent(s, c, |s| - |t|, |s|);
    SliceKeepsAbsent(t, c, 0, |TrimEnd(t)|);
  }

  lemma SliceKeepsAbsent(s: string, c: char, i: nat, j: nat)
    requires i <= j <= |s| && c !in s
    ensures c !in s[i..j]
  {
  }

  lemma TrimOfTrimmed(s: string)
    requires IsTrimmed(s)
    ensures Trim(s) == s
  {
    assert TrimStart(s) == s;
    assert TrimEnd(s) == s;
  }

  lemma TrimIdempotent(s: string)
    ensures Trim(Trim(s)) == Trim(s)
  {
    TrimOfTrimmed(Trim(s));
  }

  lemma {:induction false} TrimStartPadded(pre: string, rest: string)
    requires AllWhitespace(pre)
    requires rest == [] || !IsWhitespace(rest[0])
    ensures TrimStart(pre + rest) == rest
  {
    if pre != [] {
      assert (pre + rest)[1..] == pre[1..] + rest;
      TrimStartPadded(pre[1..], rest);
    } else {
      assert pre + rest == rest;
    }
  }

  /** Trimming strips leading whitespace and nothing else: a trimmed string
      survives whitespace put in front of it. */
  lemma TrimPadded(pre: string, s: string)
    requires AllWhitespace(pre) && IsTrimmed(s)
    ensures Trim(pre + s) == s
  {
    TrimStartPadded(pre, s);
  }

  /** Index of the first occurrence of `pat` in `s` at or after `from`. */
  function IndexOfFrom(s: string, pat: string, from: nat): (r: Option<nat>)
    requires from <= |s|
    ensures r.Some? ==> from <= r.value && r.value + |pat| <= |s| && s[r.value..r.value + |pat|] == pat
    ensures r.Some? ==> forall k :: from <= k < r.value ==> !(pat <= s[k..])
    ensures r.None? ==> forall k :: from <= k <= |s| ==> !(pat <= s[k..])
    decreases |s| - from
  {
    if pat <= s[from..] then
      assert s[from..][..|pat|] == s[from..from + |pat|];
      Some(from)
    else if from == |s| then None
    else IndexOfFrom(s, pat, from + 1)
  }

  /** `s.indexOf(pat)`. */
  function IndexOf(s: string, pat: string): (r: Option<nat>)
    ensures r.Some? ==> r.value + |pat| <= |s| && s[r.value..r.value + |pat|] == pat
    ensures r.Some? ==> forall k :: 0 <= k < r.value ==> !(pat <= s[k..])
    ensures r.None? ==> forall k :: 0 <= k <= |s| ==> !(pat <= s[k..])
  {
    IndexOfFrom(s, pat, 0)
  }

  /** `s.replace(pat, rep)` for a string pattern: only the first occurrence
      is replaced. */
  function ReplaceFirst(s: string, pat: string, rep: string): (r: string)
    ensures IndexOf(s, pat).None? ==> r == s
    ensures IndexOf(s, pat).Some? ==>
      var i := IndexOf(s, pat).value;
      r == s[..i] + rep + s[i + |pat|..]
  {
    match IndexOf(s, pat)
    case None => s
    case Some(i) => s[..i] + rep + s[i + |pat|..]
  }

  /** Replacing the prefix itself removes exactly that prefix. */
  lemma ReplacePrefix(p: string, rest: string, rep: string)
    ensures ReplaceFirst(p + rest, p, rep) == rep + rest
  {
    assert p <= (p + rest)[0..];
    assert (p + rest)[|p|..] == rest;
  }

  /** Replacing the first occurrence by nothing cuts it out. */
  lemma RemoveFirst(s: string, pat: string)
    ensures IndexOf(s, pat).Some? ==>
      var i := IndexOf(s, pat).value;
      ReplaceFirst(s, pat, "") == s[..i] + s[i + |pat|..]
  {
    if IndexOf(s, pat).Some? {
      var i := IndexOf(s, pat).value;
      assert s[..i] + "" == s[..i];
    }
  }

  /** Replacing a leading pattern by nothing leaves what follows it. */
  lemma RemoveLeading(s: string, pat: string)
    ensures StartsWith(s, pat) ==> ReplaceFirst(s, pat, "") == s[|pat|..]
  {
    if StartsWith(s, pat) {
      assert s == pat + s[|pat|..];
      ReplacePrefix(pat, s[|pat|..], "");
    }
  }

  /** `s.indexOf(c)` for a single character. */
  function FindChar(s: string, c: char): (r: Option<nat>)
    ensures r.None? <==> c !in s
    ensures r.Some? ==> r.value < |s| && s[r.value] == c && c !in s[..r.value]
  {
    if s == [] then None
    else if s[0] == c then Some(0)
    else match FindChar(s[1..], c)
      case None => None
      case Some(i) =>
        assert s[..i + 1] == [s[0]] + s[1..][..i];
        Some(i + 1)
  }

  /** A separator right after a separator-free text is the first one. */
  lemma FindCharAfter(a: string, b: string, c: char)
    requires c !in a
    ensures FindChar(a + [c] + b, c) == Some(|a|)
  {
    var s := a + [c] + b;
    assert s[|a|] == c;
  }

  /** `s.split(c)` for a one-character separator: never empty, a string
      without separators is its own single piece. */
  function Split(s: string, c: char): (r: seq<string>)
    ensures |r| >= 1
    ensures forall k :: 0 <= k < |r| ==> c !in r[k]
    ensures c !in s ==> r == [s]
    decreases |s|
  {
    match FindChar(s, c)
    case None => [s]
    case Some(i) => [s[..i]] + Split(s[i + 1..], c)
  }

  /** The first piece is a prefix of the input, followed by the separator
      whenever the input holds one. */
  lemma SplitHead(s: string, c: char)
    ensures Split(s, c)[0] <= s
    ensures c in s ==> |Split(s, c)[0]| < |s| && s[|Split(s, c)[0]|] == c
  {
  }

  /** `xs.join(sep)`. */
  function Join(xs: seq<string>, sep: string): string {
    if |xs| == 0 then ""
    else if |xs| == 1 then xs[0]
    else xs[0] + sep + Join(xs[1..], sep)
  }

  /** A text with exactly one separator is its two pieces around it. */
  lemma SplitInTwo(s: string, c: char)
    requires |Split(s, c)| == 2
    ensures s == Split(s, c)[0] + [c] + Split(s, c)[1]
  {
    var p := Split(s, c);
    JoinSplit(s, c);
    assert p[1..] == [p[1]];
    assert Join(p, [c]) == p[0] + [c] + Join(p[1..], [c]);
  }

  /** Split and join with the same separator are inverse. */
  lemma {:induction false} JoinSplit(s: string, c: char)
    ensures Join(Split(s, c), [c]) == s
    decreases |s|
  {
    match FindChar(s, c)
    case None =>
    case Some(i) =>
      var a, b := s[..i], s[i + 1..];
      var rest := Split(b, c);
      assert Split(s, c) == [a] + rest;
      JoinSplit(b, c);
      JoinFront(a, rest, [c]);
      Around(s, i);
  }

  /** A text is the part before position `i`, its character and the rest. */
  lemma Around(s: string, i: nat)
    requires i < |s|
    ensures s == s[..i] + [s[i]] + s[i + 1..]
  {
  }

  /** Joining a piece in front of a non-empty list. */
  lemma JoinFront(x: string, rest: seq<string>, sep: string)
    requires |rest| >= 1
    ensures Join([x] + rest, sep) == x + sep + Join(rest, sep)
  {
    assert ([x] + rest)[0] == x && ([x] + rest)[1..] == rest;
  }

  /** Splitting a joined list of separator-free pieces gives the pieces back. */
  lemma {:induction false} SplitJoin(xs: seq<string>, c: char)
    requires |xs| >= 1
    requires forall k :: 0 <= k < |xs| ==> c !in xs[k]
    ensures Split(Join(xs, [c]), c) == xs
  {
    if |xs| > 1 {
      var j := Join(xs[1..], [c]);
      var s := xs[0] + [c] + j;
      SplitAt(xs[0], j, c);
      SplitJoin(xs[1..], c);
      assert xs == [xs[0]] + xs[1..];
    }
  }

  /** Two separator-free pieces around one separator. */
  lemma SplitTwo(s: string, a: string, b: string, c: char)
    requires c !in a && c !in b && s == a + [c] + b
    ensures Split(s, c) == [a, b]
  {
    SplitAt(a, b, c);
  }

  lemma SplitAt(a: string, b: string, c: char)
    requires c !in a
    ensures Split(a + [c] + b, c) == [a] + Split(b, c)
  {
    var s := a + [c] + b;
    FindCharAfter(a, b, c);
    assert s[..|a|] == a;
    assert s[|a| + 1..] == b;
  }

  /** `s.split(c).pop()`: the text after the last separator. */
  function LastSegment(s: string, c: char): (r: string)
    ensures c !in r
    ensures c !in s ==> r == s
  {
    var parts := Split(s, c);
    parts[|parts| - 1]
  }

  /** Whatever precedes the last separator, the last segment is what
      follows it. */
  lemma LastSegmentAfter(a: string, b: string, c: char)
    requires c !in b
    ensures LastSegment(a + [c] + b, c) == b
  {
    var s := a + [c] + b;
    var t := LastSegment(s, c);
    LastSegmentIsSuffix(s, c);
    assert s[|a|] == c;
    assert s[|a| + 1..] == b;
    assert |t| == |b|;
    assert t == s[|s| - |t|..] == b;
  }

  /** The last segment of `s` is the last segment of what follows its first
      separator. */
  lemma LastSegmentOfRest(s: string, c: char, i: nat)
    requires FindChar(s, c) == Some(i)
    ensures i < |s| && s[i] == c
    ensures LastSegment(s, c) == LastSegment(s[i + 1..], c)
  {
    var tail := Split(s[i + 1..], c);
    var parts := Split(s, c);
    assert parts == [s[..i]] + tail;
    LastOfFront(s[..i], tail);
    assert LastSegment(s, c) == parts[|parts| - 1];
  }

  lemma LastOfFront(x: string, rest: seq<string>)
    requires |rest| >= 1
    ensures ([x] + rest)[|rest|] == rest[|rest| - 1]
  {
  }

  /** `t` is a suffix of `s`, preceded by the separator whenever `s` holds
      one. */
  predicate EndsWithSegment(s: string, c: char, t: string) {
    |t| <= |s| && s[|s| - |t|..] == t &&
    (c in s ==> |t| < |s| && s[|s| - |t| - 1] == c)
  }

  /** The last segment is a suffix of the input, preceded by the separator
      whenever the input holds one. */
  lemma {:induction false} LastSegmentIsSuffix(s: string, c: char)
    ensures EndsWithSegment(s, c, LastSegment(s, c))
    decreases |s|
  {
    match FindChar(s, c)
    case None =>
    case Some(i) =>
      LastSegmentOfRest(s, c, i);
      LastSegmentIsSuffix(s[i + 1..], c);
      EndsWithSegmentOfRest(s, c, i, LastSegment(s, c));
  }

  lemma EndsWithSegmentOfRest(s: string, c: char, i: nat, t: string)
    requires i < |s| && s[i] == c
    requires EndsWithSegment(s[i + 1..], c, t)
    requires c !in s[i + 1..] ==> t == s[i + 1..]
    ensures EndsWithSegment(s, c, t)
  {
    var rest := s[i + 1..];
    assert s[|s| - |t|..] == rest[|rest| - |t|..];
    if c in rest {
      assert s[|s| - |t| - 1] == rest[|rest| - |t| - 1];
    }
  }

  function LowerChar(ch: char): char {
    if 'A' <= ch <= 'Z' then (ch as int + 32) as char else ch
  }

  /** `s.toLowerCase()` on ASCII letters. */
  function ToLowerAscii(s: string): (r: string)
    ensures |r| == |s|
    ensures forall k :: 0 <= k < |s| ==> r[k] == LowerChar(s[k])
  {
    seq(|s|, k requires 0 <= k < |s| => LowerChar(s[k]))
  }

  predicate IsDigit(ch: char) {
    '0' <= ch <= '9'
  }

  predicate AllDigits(s: string) {
    forall k :: 0 <= k < |s| ==> IsDigit(s[k])
  }

  function DigitChar(d: nat): (ch: char)
    requires d < 10
    ensures IsDigit(ch)
  {
    ('0' as int + d) as char
  }

  /** The value of a string of decimal digits. */
  function DigitsValue(s: string): nat
    requires AllDigits(s)
  {
    if s == [] then 0 else 10 * DigitsValue(s[..|s| - 1]) + (s[|s| - 1] as int - '0' as int)
  }

  /** The decimal rendering of `n`, as `${n}` produces it. */
  function NatToString(n: nat): (r: string)
    ensures |r| >= 1 && AllDigits(r)
    ensures r[0] == '0' ==> n == 0
    ensures DigitsValue(r) == n
  {
    if n < 10 then [DigitChar(n)]
    else
      var r := NatToString(n / 10) + [DigitChar(n % 10)];
      assert r[..|r| - 1] == NatToString(n / 10);
      r
  }

  /** `s.padStart(2, "0")`. */
  function PadStart2(s: string): (r: string)
    ensures |r| == if |s| >= 2 then |s| else 2
    ensures r[|r| - |s|..] == s
    ensures forall k :: 0 <= k < |r| - |s| ==> r[k] == '0'
  {
    if |s| >= 2 then s else if |s| == 1 then "0" + s else "00"
  }

  /** A padded two-digit number reads back as the number. */
  lemma PaddedNumberValue(n: nat)
    requires n < 100
    ensures |PadStart2(NatToString(n))| == 2
    ensures AllDigits(PadStart2(NatToString(n)))
    ensures DigitsValue(PadStart2(NatToString(n))) == n
  {
    var p := PadStart2(NatToString(n));
    if n < 10 {
      assert p == ['0', DigitChar(n)];
      assert p[..1] == ['0'];
      assert DigitsValue(p[..1]) == 10 * DigitsValue([]) + 0;
    } else {
      assert NatToString(n / 10) == [DigitChar(n / 10)];
      assert p == [DigitChar(n / 10), DigitChar(n % 10)];
      assert p[..1] == [DigitChar(n / 10)];
      assert DigitsValue(p[..1]) == 10 * DigitsValue([]) + n / 10;
    }
  }

}
