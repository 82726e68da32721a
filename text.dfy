/** Python string operations the core relies on (`in`, `split`, `join`,
    `strip`, `replace`, `startswith`, `*`, `str(int)`), written over
    `seq<char>`, with the facts the rest of the model needs about them. */
module Text {

  datatype Option<+T> = None | Some(value: T)

  /** Python's `str.isspace()` for one character: the characters `str.strip()`
      removes when called without arguments. */
  predicate IsSpace(c: char) {
    || c == ' ' || ('\t' <= c <= '\r') || ('\U{1c}' <= c <= '\U{1f}')
    || c == '\U{85}' || c == '\U{a0}' || c == '\U{1680}'
    || ('\U{2000}' <= c <= '\U{200a}') || c == '\U{2028}' || c == '\U{2029}'
    || c == '\U{202f}' || c == '\U{205f}' || c == '\U{3000}'
  }

  /** `p` occurs in `s` starting at index `k`. */
  predicate OccursAt(s: string, p: string, k: nat) {
    k + |p| <= |s| && s[k..k + |p|] == p
  }

  /** Index of the first occurrence of `p` in `s` (Python's `s.find(p)`). */
  function IndexOf(s: string, p: string): (r: Option<nat>)
    ensures r.Some? ==> OccursAt(s, p, r.value)
    ensures r.Some? ==> forall k: nat :: k < r.value ==> !OccursAt(s, p, k)
    ensures r.None? ==> forall k: nat :: !OccursAt(s, p, k)
    decreases |s|
  {
    if |s| < |p| then None
    else if s[..|p|] == p then Some(0)
    else
      ShiftOccurs(s, p);
      match IndexOf(s[1..], p)
      case None => None
      case Some(i) => Some(i + 1)
  }

  /** An occurrence in `s[1..]` is an occurrence in `s` one index later. */
  lemma ShiftOccurs(s: string, p: string)
    requires |s| > 0
    ensures forall k: nat :: OccursAt(s[1..], p, k) <==> OccursAt(s, p, k + 1)
    ensures forall k: nat :: 1 <= k ==> (OccursAt(s, p, k) <==> OccursAt(s[1..], p, k - 1))
  {
    forall k: nat
      ensures OccursAt(s[1..], p, k) <==> OccursAt(s, p, k + 1)
    {
      if k + |p| <= |s| - 1 {
        assert s[1..][k..k + |p|] == s[k + 1..k + 1 + |p|];
      }
    }
  }

  /** Python's `p in s`. */
  predicate Contains(s: string, p: string) {
    IndexOf(s, p).Some?
  }

  /** An occurrence of a one-character pattern is an occurrence of that character. */
  lemma OccursAtChar(s: string, c: char, k: nat)
    ensures OccursAt(s, [c], k) <==> k < |s| && s[k] == c
  {
    if k < |s| {
      assert s[k..k + 1] == [s[k]];
    }
  }

  lemma ContainsChar(s: string, c: char)
    ensures Contains(s, [c]) <==> c in s
  {
    if c in s {
      var k :| 0 <= k < |s| && s[k] == c;
      OccursAtChar(s, c, k);
    }
    if Contains(s, [c]) {
      OccursAtChar(s, c, IndexOf(s, [c]).value);
    }
  }

  /** A pattern that occurs in `s` contains only characters of `s`; in
      particular a string without `c` cannot contain a pattern holding `c`. */
  lemma ContainsChars(s: string, p: string, i: nat)
    requires i < |p| && Contains(s, p)
    ensures p[i] in s
  {
    var k := IndexOf(s, p).value;
    assert s[k..k + |p|][i] == s[k + i];
  }

  /** One occurrence is enough for `p in s`. */
  lemma OccursContains(s: string, p: string, k: nat)
    requires OccursAt(s, p, k)
    ensures Contains(s, p)
  {
  }

  /** The first occurrence of a character that `a` lacks, in `a + [c] + b`, is at `|a|`. */
  lemma IndexOfCharAfter(a: string, c: char, b: string)
    requires c !in a
    ensures IndexOf(a + [c] + b, [c]) == Some(|a|)
  {
    var s := a + [c] + b;
    OccursAtChar(s, c, |a|);
    var r := IndexOf(s, [c]);
    OccursAtChar(s, c, r.value);
    assert forall k :: 0 <= k < |a| ==> s[k] == a[k];
  }

  /** Python's `s.split(sep)` for a non-empty separator. */
  function Split(s: string, sep: string): (r: seq<string>)
    requires |sep| > 0
    ensures |r| >= 1
    decreases |s|
  {
    match IndexOf(s, sep)
    case None => [s]
    case Some(i) => [s[..i]] + Split(s[i + |sep|..], sep)
  }

  /** No piece of a split on one character holds that character. */
  lemma {:induction false} SplitPiecesLack(s: string, c: char)
    ensures forall k :: 0 <= k < |Split(s, [c])| ==> c !in Split(s, [c])[k]
    decreases |s|
  {
    match IndexOf(s, [c])
    case None =>
      ContainsChar(s, c);
    case Some(i) =>
      forall k | 0 <= k < i ensures s[k] != c {
        OccursAtChar(s, c, k);
      }
      SplitPiecesLack(s[i + 1..], c);
      assert Split(s, [c]) == [s[..i]] + Split(s[i + 1..], [c]);
  }

  /** Python's `sep.join(parts)`. */
  function Join(parts: seq<string>, sep: string): string
    decreases |parts|
  {
    if |parts| == 0 then ""
    else if |parts| == 1 then parts[0]
    else parts[0] + sep + Join(parts[1..], sep)
  }

  /** A character in neither the parts nor the separator is not in their join. */
  lemma {:induction false} JoinLacks(parts: seq<string>, sep: string, c: char)
    requires c !in sep && forall k :: 0 <= k < |parts| ==> c !in parts[k]
    ensures c !in Join(parts, sep)
    decreases |parts|
  {
    if |parts| > 1 {
      JoinLacks(parts[1..], sep, c);
    }
  }

  /** Splitting on a one-character separator undoes joining on it, provided
      no part contains that character. */
  lemma {:induction false} SplitJoin(parts: seq<string>, c: char)
    requires |parts| >= 1
    requires forall i :: 0 <= i < |parts| ==> c !in parts[i]
    ensures Split(Join(parts, [c]), [c]) == parts
    decreases |parts|
  {
    if |parts| == 1 {
      ContainsChar(parts[0], c);
    } else {
      var rest := Join(parts[1..], [c]);
      assert Join(parts, [c]) == parts[0] + [c] + rest;
      IndexOfCharAfter(parts[0], c, rest);
      assert (parts[0] + [c] + rest)[..|parts[0]|] == parts[0];
      assert (parts[0] + [c] + rest)[|parts[0]| + 1..] == rest;
      SplitJoin(parts[1..], c);
      assert [parts[0]] + parts[1..] == parts;
    }
  }

  /** The text before the first occurrence of `sep`, or all of `s`
      (Python's `s.split(sep)[0]`). */
  function Before(s: string, sep: string): (r: string)
    requires |sep| > 0
    ensures !Contains(r, sep)
    ensures Contains(s, sep) ==> |r| == IndexOf(s, sep).value && r == s[..|r|]
    ensures !Contains(s, sep) ==> r == s
  {
    match IndexOf(s, sep)
    case None => s
    case Some(i) =>
      PrefixOccurs(s, sep, i);
      s[..i]
  }

  /** An occurrence inside a prefix of `s` is an occurrence in `s`. */
  lemma PrefixOccurs(s: string, p: string, i: nat)
    requires i <= |s|
    ensures forall k: nat :: OccursAt(s[..i], p, k) ==> OccursAt(s, p, k)
  {
    forall k: nat | OccursAt(s[..i], p, k)
      ensures OccursAt(s, p, k)
    {
      assert s[..i][k..k + |p|] == s[k..k + |p|];
    }
  }

  /** The text after the first occurrence of `sep`. */
  function After(s: string, sep: string): string
    requires |sep| > 0 && Contains(s, sep)
  {
    var i := IndexOf(s, sep).value;
    s[i + |sep|..]
  }

  /** `s.split(sep)[1]` exists exactly when `sep in s`, and is the text between
      the first and the second occurrence (or the end). */
  lemma SecondField(s: string, sep: string)
    requires |sep| > 0
    ensures Split(s, sep)[0] == Before(s, sep)
    ensures |Split(s, sep)| >= 2 <==> Contains(s, sep)
    ensures Contains(s, sep) ==> Split(s, sep)[1] == Before(After(s, sep), sep)
  {
  }

  /** Cutting at the first occurrence twice is the same as cutting once. */
  lemma BeforeIdempotent(s: string, sep: string)
    requires |sep| > 0
    ensures Before(Before(s, sep), sep) == Before(s, sep)
  {
  }

  /** The first occurrence of `p` is also the first one in any prefix that holds it. */
  lemma FirstInPrefix(s: string, p: string, i: nat)
    requires Contains(s, p) && IndexOf(s, p).value + |p| <= i <= |s|
    ensures IndexOf(s[..i], p) == IndexOf(s, p)
  {
    var m := IndexOf(s, p).value;
    OccursInPrefix(s, p, i, m);
    var m' := IndexOf(s[..i], p).value;
    OccursInPrefix(s, p, i, m');
  }

  /** Below `i`, an occurrence in `s[..i]` is an occurrence in `s`. */
  lemma OccursInPrefix(s: string, p: string, i: nat, k: nat)
    requires k + |p| <= i <= |s|
    ensures OccursAt(s[..i], p, k) <==> OccursAt(s, p, k)
  {
    assert s[..i][k..k + |p|] == s[k..k + |p|];
  }

  /** Cutting at a longer pattern `q` and then at a prefix `p` of it is the
      same as cutting at `p` (`s.split(q)[0].split(p)[0] == s.split(p)[0]`),
      unless the first `p` overlaps the first `q` without starting it. */
  lemma {:induction false} BeforePrefixPattern(s: string, p: string, q: string)
    requires |p| > 0 && |p| <= |q| && q[..|p|] == p
    requires Contains(s, q) ==> |Before(s, p)| + |p| <= |Before(s, q)|
    ensures Before(Before(s, q), p) == Before(s, p)
  {
    if Contains(s, q) {
      var k := IndexOf(s, q).value;
      assert s[k..k + |p|] == s[k..k + |q|][..|p|];
      assert OccursAt(s, p, k);
      FirstInPrefix(s, p, k);
    }
  }

  /** Python's `s.startswith(p)`. */
  predicate StartsWith(s: string, p: string) {
    |p| <= |s| && s[..|p|] == p
  }

  /** Python's `s.endswith(p)`. */
  predicate EndsWith(s: string, p: string) {
    |p| <= |s| && s[|s| - |p|..] == p
  }

  /** A one-character prefix or suffix test only looks at the first or last
      character. */
  lemma EndCharacters(s: string, c: char)
    ensures StartsWith(s, [c]) <==> |s| > 0 && s[0] == c
    ensures EndsWith(s, [c]) <==> |s| > 0 && s[|s| - 1] == c
  {
    if |s| > 0 {
      assert s[..1] == [s[0]];
      assert s[|s| - 1..] == [s[|s| - 1]];
    }
  }

  /** `s.lstrip()`: `s` without its leading whitespace. */
  function StripStart(s: string): (r: string)
    ensures |r| <= |s|
    decreases |s|
  {
    if |s| > 0 && IsSpace(s[0]) then StripStart(s[1..]) else s
  }

  /** `lstrip()` keeps the longest suffix that does not start with whitespace. */
  lemma {:induction false} StripStartSpec(s: string)
    ensures var r := StripStart(s);
            r == s[|s| - |r|..] && (r == [] || !IsSpace(r[0]))
            && forall k :: 0 <= k < |s| - |r| ==> IsSpace(s[k])
    decreases |s|
  {
    if |s| > 0 && IsSpace(s[0]) {
      StripStartSpec(s[1..]);
      var r := StripStart(s);
      forall k | 0 < k < |s| - |r|
        ensures IsSpace(s[k])
      {
        assert s[k] == s[1..][k - 1];
      }
    }
  }

  /** `s.rstrip()`: `s` without its trailing whitespace. */
  function StripEnd(s: string): (r: string)
    ensures |r| <= |s|
    decreases |s|
  {
    if |s| > 0 && IsSpace(s[|s| - 1]) then StripEnd(s[..|s| - 1]) else s
  }

  /** `rstrip()` keeps the longest prefix that does not end with whitespace. */
  lemma {:induction false} StripEndSpec(s: string)
    ensures var r := StripEnd(s);
            r == s[..|r|] && (r == [] || !IsSpace(r[|r| - 1]))
            && forall k :: |r| <= k < |s| ==> IsSpace(s[k])
    decreases |s|
  {
    if |s| > 0 && IsSpace(s[|s| - 1]) {
      var t := s[..|s| - 1];
      StripEndSpec(t);
      var r := StripEnd(s);
      assert r == StripEnd(t);
      forall k | |r| <= k < |s| - 1
        ensures IsSpace(s[k])
      {
        assert s[k] == t[k];
      }
    }
  }

  /** Python's `s.strip()`. */
  function Strip(s: string): string {
    StripEnd(StripStart(s))
  }

  /** A string that `strip()` leaves unchanged. */
  predicate Stripped(s: string) {
    s == [] || (!IsSpace(s[0]) && !IsSpace(s[|s| - 1]))
  }

  /** `strip()` returns a stripped slice of its input, removing only whitespace. */
  lemma StripIsSlice(s: string)
    ensures Stripped(Strip(s))
    ensures exists i, j :: 0 <= i <= j <= |s| && Strip(s) == s[i..j]
                        && (forall k :: 0 <= k < i ==> IsSpace(s[k]))
                        && (forall k :: j <= k < |s| ==> IsSpace(s[k]))
  {
    var a := StripStart(s);
    var r := StripEnd(a);
    var i := |s| - |a|;
    var j := i + |r|;
    StripStartSpec(s);
    StripEndSpec(a);
    SpacesAfter(s, i, |r|);
    if r != [] {
      assert r[0] == a[0];
    }
    assert r == s[i..j];
  }

  /** Slicing a suffix of `s` at `n` is slicing `s`, and whitespace after
      that point in the suffix is whitespace in `s`. */
  lemma SpacesAfter(s: string, i: nat, n: nat)
    requires i + n <= |s|
    requires forall k :: n <= k < |s| - i ==> IsSpace(s[i..][k])
    ensures s[i..][..n] == s[i..i + n]
    ensures forall k :: i + n <= k < |s| ==> IsSpace(s[k])
  {
    forall k | i + n <= k < |s|
      ensures IsSpace(s[k])
    {
      assert s[k] == s[i..][k - i];
    }
  }

  /** `strip()` leaves a stripped string alone, so it is idempotent. */
  lemma StrippedFixed(s: string)
    requires Stripped(s)
    ensures Strip(s) == s
  {
  }

  lemma StripIdempotent(s: string)
    ensures Strip(Strip(s)) == Strip(s)
  {
    StripIsSlice(s);
    StrippedFixed(Strip(s));
  }

  /** Stripping a stripped string framed by single spaces gives it back. */
  lemma StripPadded(c: string)
    requires Stripped(c)
    ensures Strip(" " + c + " ") == c
  {
    var s := " " + c + " ";
    var t := c + " ";
    assert s[1..] == t;
    assert StripStart(s) == StripStart(t);
    if c == [] {
      assert t[1..] == [];
      assert StripStart(t) == StripStart([]);
    } else {
      assert t[0] == c[0];
      assert StripStart(t) == t;
      assert t[..|t| - 1] == c;
      assert StripEnd(t) == StripEnd(c);
    }
  }

  /** Python's `s.replace(old, new)` for a non-empty `old`: a single left-to-right
      pass over non-overlapping occurrences. */
  function Replace(s: string, pat: string, sub: string): string
    requires |pat| > 0
    decreases |s|
  {
    match IndexOf(s, pat)
    case None => s
    case Some(i) => s[..i] + sub + Replace(s[i + |pat|..], pat, sub)
  }

  /** Deleting every occurrence of a pattern keeps a string without that
      pattern unchanged, and removes a suffix occurrence after such a string. */
  lemma {:induction false} ReplaceSuffix(s: string, p: string)
    requires |p| > 0 && !Contains(s, p) && !Contains(s + p[..|p| - 1], p)
    ensures Replace(s, p, "") == s
    ensures Replace(s + p, p, "") == s
  {
    var t := s + p;
    assert OccursAt(t, p, |s|) by { assert t[|s|..|s| + |p|] == p; }
    var m := IndexOf(t, p).value;
    if m < |s| {
      var u := s + p[..|p| - 1];
      assert m + |p| <= |u|;
      assert u[m..m + |p|] == t[m..m + |p|];
      assert OccursAt(u, p, m);
    }
    assert m == |s|;
    assert t[..m] == s;
    assert t[m + |p|..] == [];
  }

  /** Python's `c * n` for a one-character string: empty when `n <= 0`. */
  function Repeat(c: char, n: int): (r: string)
    ensures |r| == if n > 0 then n else 0
    ensures forall k :: 0 <= k < |r| ==> r[k] == c
    decreases if n > 0 then n else 0
  {
    if n <= 0 then "" else [c] + Repeat(c, n - 1)
  }

  function DigitChar(d: nat): (c: char)
    requires d < 10
    ensures '0' <= c <= '9' && c as int - '0' as int == d
  {
    ('0' as int + d) as char
  }

  /** Decimal digits of `n` without leading zeros (Python's `str(n)` for n >= 0). */
  function NatToDecimal(n: nat): (r: string)
    ensures |r| >= 1
    ensures forall k :: 0 <= k < |r| ==> '0' <= r[k] <= '9'
  {
    if n < 10 then [DigitChar(n)] else NatToDecimal(n / 10) + [DigitChar(n % 10)]
  }

  /** Python's `str(i)` for an integer. */
  function IntToDecimal(i: int): (r: string)
    ensures |r| >= 1
    ensures forall k :: 0 <= k < |r| ==> '0' <= r[k] <= '9' || r[k] == '-'
  {
    if i < 0 then "-" + NatToDecimal(-i) else NatToDecimal(i)
  }
}
