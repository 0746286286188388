/**
 * The JavaScript string operations the core relies on, written out over
 * `seq<char>`: `startsWith`, `includes`, `indexOf`, `replace` with a string
 * pattern, `split` on a character and on `/\s+/`, `trim`, `join`, the tag
 * stripper `replace(/<[^>]*>/g, '')`, ASCII `toLowerCase` and the decimal
 * rendering of a number in a template literal.
 */
module Text {

  /** The characters JavaScript's `\s` class and `String.prototype.trim` treat as white space. */
  predicate IsSpace(c: char) {
    || c == ' ' || c == '\t' || c == '\n' || c == '\U{B}' || c == '\U{C}' || c == '\r'
    || c == '\U{A0}' || c == '\U{1680}' || ('\U{2000}' <= c <= '\U{200A}')
    || c == '\U{2028}' || c == '\U{2029}' || c == '\U{202F}' || c == '\U{205F}'
    || c == '\U{3000}' || c == '\U{FEFF}'
  }

  predicate NoSpace(s: string) {
    forall i :: 0 <= i < |s| ==> !IsSpace(s[i])
  }

  predicate StartsWith(s: string, prefix: string) {
    |prefix| <= |s| && s[..|prefix|] == prefix
  }

  /** `startsWith` holds of every string that begins with the prefix. */
  lemma PrefixOfConcat(a: string, b: string)
    ensures StartsWith(a + b, a)
  {
    assert (a + b)[..|a|] == a;
  }

  /** `pat` occurs in `s` at position `j`. */
  predicate OccursAt(s: string, pat: string, j: int) {
    0 <= j <= |s| && StartsWith(s[j..], pat)
  }

  /** `s.indexOf(pat)`: the least position where `pat` occurs, or -1. */
  function IndexOf(s: string, pat: string): (r: int)
    ensures -1 <= r <= |s|
    ensures r >= 0 ==> OccursAt(s, pat, r)
    ensures r >= 0 ==> forall j :: 0 <= j < r ==> !OccursAt(s, pat, j)
    ensures r == -1 ==> forall j :: 0 <= j <= |s| ==> !OccursAt(s, pat, j)
    decreases |s|
  {
    if StartsWith(s, pat) then 0
    else if |s| == 0 then -1
    else
      var k := IndexOf(s[1..], pat);
      assert forall j :: 1 <= j <= |s| ==> (OccursAt(s, pat, j) <==> OccursAt(s[1..], pat, j - 1)) by {
        forall j | 1 <= j <= |s| ensures s[j..] == s[1..][j - 1..] { }
      }
      assert !OccursAt(s, pat, 0);
      if k == -1 then -1 else k + 1
  }

  /** The position of the first occurrence is what `indexOf` answers. */
  lemma IndexOfFirst(s: string, pat: string, k: nat)
    requires OccursAt(s, pat, k)
    requires forall j :: 0 <= j < k ==> !OccursAt(s, pat, j)
    ensures IndexOf(s, pat) == k
  {
  }

  /** `s.includes(sub)`. */
  predicate Contains(s: string, sub: string) {
    IndexOf(s, sub) >= 0
  }

  lemma {:induction false} ContainsAt(s: string, sub: string, j: nat)
    requires OccursAt(s, sub, j)
    ensures Contains(s, sub)
  {
  }

  /** `includes` answers whether the pattern occurs anywhere. */
  lemma ContainsIff(s: string, sub: string)
    ensures Contains(s, sub) <==> exists k :: OccursAt(s, sub, k)
  {
    if Contains(s, sub) {
      assert OccursAt(s, sub, IndexOf(s, sub));
    }
  }

  lemma ContainsChar(s: string, c: char)
    ensures Contains(s, [c]) <==> c in s
  {
    if c in s {
      var j :| 0 <= j < |s| && s[j] == c;
      assert OccursAt(s, [c], j);
    }
    if Contains(s, [c]) {
      var k := IndexOf(s, [c]);
      assert OccursAt(s, [c], k);
      assert s[k] == c;
    }
  }

  lemma ContainsSelf(a: string)
    ensures Contains(a, a)
  {
    assert OccursAt(a, a, 0);
  }

  /** `pre + a + post` contains `a`: how a template literal mentions the value it interpolates. */
  lemma Mentions(pre: string, a: string, post: string)
    ensures Contains(pre + a + post, a)
  {
    ContainsSelf(a);
    ContainsInfix(pre, a, post, a);
  }

  /** A string lacking one of the characters of `pat` does not contain `pat`. */
  lemma MissingCharNotContained(s: string, pat: string, i: nat)
    requires i < |pat| && pat[i] !in s
    ensures !Contains(s, pat)
  {
    if Contains(s, pat) {
      var k := IndexOf(s, pat);
    }
  }

  /** A string that occurs in `a` also occurs in `pre + a + post`. */
  lemma {:induction false} ContainsInfix(pre: string, a: string, post: string, sub: string)
    requires Contains(a, sub)
    ensures Contains(pre + a + post, sub)
  {
    var k := IndexOf(a, sub);
    var s := pre + a + post;
    assert OccursAt(a, sub, k);
    assert s[|pre| + k..][..|sub|] == a[k..][..|sub|];
    assert OccursAt(s, sub, |pre| + k);
    ContainsAt(s, sub, |pre| + k);
  }

  lemma ContainsLeft(a: string, b: string, sub: string)
    requires Contains(a, sub)
    ensures Contains(a + b, sub)
  {
    ContainsInfix([], a, b, sub);
    assert [] + a + b == a + b;
  }

  lemma ContainsRight(a: string, b: string, sub: string)
    requires Contains(b, sub)
    ensures Contains(a + b, sub)
  {
    ContainsInfix(a, b, [], sub);
    assert a + b + [] == a + b;
  }

  lemma AppendAssoc(a: string, b: string, c: string)
    ensures a + (b + c) == a + b + c
  {
  }

  /**
   * `s.replace(pat, rep)` with a string pattern: only the FIRST occurrence
   * is replaced, wherever it stands.
   */
  function ReplaceFirst(s: string, pat: string, rep: string): (r: string)
    ensures !Contains(s, pat) ==> r == s
    ensures Contains(s, pat) ==>
      var k := IndexOf(s, pat);
      r == s[..k] + rep + s[k + |pat|..]
  {
    var k := IndexOf(s, pat);
    if k < 0 then s else s[..k] + rep + s[k + |pat|..]
  }

  // ----- split on one character and join -----

  function CountChar(s: string, c: char): nat {
    if s == [] then 0 else (if s[0] == c then 1 else 0) + CountChar(s[1..], c)
  }

  lemma {:induction false} CountCharAppend(a: string, b: string, c: char)
    ensures CountChar(a + b, c) == CountChar(a, c) + CountChar(b, c)
  {
    if a != [] {
      assert (a + b)[1..] == a[1..] + b;
      CountCharAppend(a[1..], b, c);
    } else {
      assert a + b == b;
    }
  }

  lemma {:induction false} CountCharAbsent(s: string, c: char)
    requires c !in s
    ensures CountChar(s, c) == 0
  {
    if s != [] {
      CountCharAbsent(s[1..], c);
    }
  }

  /** `s.split(c)` for a one-character separator. */
  function SplitOn(s: string, c: char): (r: seq<string>)
    ensures |r| == CountChar(s, c) + 1
    ensures forall i :: 0 <= i < |r| ==> c !in r[i]
  {
    if s == [] then [[]]
    else if s[0] == c then [[]] + SplitOn(s[1..], c)
    else
      var rest := SplitOn(s[1..], c);
      [[s[0]] + rest[0]] + rest[1..]
  }

  /** `parts.join(sep)`. */
  function Join(parts: seq<string>, sep: string): string {
    if |parts| == 0 then []
    else if |parts| == 1 then parts[0]
    else parts[0] + sep + Join(parts[1..], sep)
  }

  /** Splitting on a character and joining back with it gives the string back. */
  lemma {:induction false} JoinSplitOn(s: string, c: char)
    ensures Join(SplitOn(s, c), [c]) == s
  {
    if s == [] {
    } else if s[0] == c {
      JoinSplitOn(s[1..], c);
      var rest := SplitOn(s[1..], c);
      assert SplitOn(s, c) == [[]] + rest;
      assert ([[]] + rest)[1..] == rest;
    } else {
      JoinSplitOn(s[1..], c);
      var rest := SplitOn(s[1..], c);
      var r := [[s[0]] + rest[0]] + rest[1..];
      assert SplitOn(s, c) == r;
      if |rest| == 1 {
        assert Join(r, [c]) == [s[0]] + rest[0];
      } else {
        assert r[1..] == rest[1..];
        assert Join(rest, [c]) == rest[0] + [c] + Join(rest[1..], [c]);
      }
    }
  }

  /** The text before the first separator is the first piece; the rest is split on its own. */
  lemma {:induction false} SplitOnFirst(a: string, c: char, b: string)
    requires c !in a
    ensures SplitOn(a + [c] + b, c) == [a] + SplitOn(b, c)
  {
    var s := a + [c] + b;
    if a == [] {
      assert s == [c] + b;
      assert s[1..] == b;
    } else {
      assert s[0] == a[0];
      assert s[1..] == a[1..] + [c] + b;
      SplitOnFirst(a[1..], c, b);
      assert [a[0]] + a[1..] == a;
    }
  }

  // ----- split on runs of white space: `s.split(/\s+/)` -----

  /** The number of leading white-space characters of `s`. */
  function LeadingSpaces(s: string): (n: nat)
    ensures n <= |s|
    ensures forall i :: 0 <= i < n ==> IsSpace(s[i])
    ensures n < |s| ==> !IsSpace(s[n])
  {
    if s == [] || !IsSpace(s[0]) then 0 else 1 + LeadingSpaces(s[1..])
  }

  /**
   * `s.split(/\s+/)`: every maximal run of white space separates two pieces,
   * so a leading (trailing) run yields an empty first (last) piece and the
   * empty string yields one empty piece.
   */
  function SplitSpaces(s: string): (r: seq<string>)
    ensures |r| >= 1
    ensures forall i :: 0 <= i < |r| ==> NoSpace(r[i])
    decreases |s|
  {
    if s == [] then [[]]
    else if IsSpace(s[0]) then [[]] + SplitSpaces(s[LeadingSpaces(s)..])
    else
      var rest := SplitSpaces(s[1..]);
      [[s[0]] + rest[0]] + rest[1..]
  }

  /** `s.split(/\s+/).length`. */
  function WordCount(s: string): (n: nat)
    ensures n >= 1
  {
    |SplitSpaces(s)|
  }

  /** The number of maximal runs of white space: the positions where such a run ends. */
  function Runs(s: string): nat {
    if s == [] then 0
    else (if IsSpace(s[0]) && (|s| == 1 || !IsSpace(s[1])) then 1 else 0) + Runs(s[1..])
  }

  /** A leading run of white space is one run. */
  lemma {:induction false} RunsLeading(s: string)
    requires s != [] && IsSpace(s[0])
    ensures Runs(s) == 1 + Runs(s[LeadingSpaces(s)..])
    decreases |s|
  {
    if |s| > 1 && IsSpace(s[1]) {
      RunsLeading(s[1..]);
      assert s[1..][LeadingSpaces(s[1..])..] == s[LeadingSpaces(s)..];
    }
  }

  /** Every run of white space separates two pieces, so there is one piece more than there are runs. */
  lemma {:induction false} WordCountRuns(s: string)
    ensures WordCount(s) == Runs(s) + 1
    decreases |s|
  {
    if s == [] {
    } else if IsSpace(s[0]) {
      RunsLeading(s);
      WordCountRuns(s[LeadingSpaces(s)..]);
    } else {
      WordCountRuns(s[1..]);
    }
  }

  function Spaces(s: string): nat {
    if s == [] then 0 else (if IsSpace(s[0]) then 1 else 0) + Spaces(s[1..])
  }

  /** A string without white space is one piece; white space is what adds pieces. */
  lemma {:induction false} WordCountNoSpace(s: string)
    requires NoSpace(s)
    ensures SplitSpaces(s) == [s]
  {
    if s != [] {
      WordCountNoSpace(s[1..]);
      assert [s[0]] + s[1..] == s;
    }
  }

  /** There are never more pieces than white-space characters plus one. */
  lemma {:induction false} WordCountBound(s: string)
    ensures WordCount(s) <= Spaces(s) + 1
    decreases |s|
  {
    if s == [] {
    } else if IsSpace(s[0]) {
      var k := LeadingSpaces(s);
      WordCountBound(s[k..]);
      SpacesPrefix(s, k);
    } else {
      WordCountBound(s[1..]);
    }
  }

  lemma {:induction false} SpacesPrefix(s: string, k: nat)
    requires k <= |s| && forall i :: 0 <= i < k ==> IsSpace(s[i])
    ensures Spaces(s) == k + Spaces(s[k..])
  {
    if k > 0 {
      assert s[1..][k - 1..] == s[k..];
      SpacesPrefix(s[1..], k - 1);
    }
  }

  // ----- trim -----

  function TrailingSpaces(s: string): (n: nat)
    ensures n <= |s|
    ensures forall i :: |s| - n <= i < |s| ==> IsSpace(s[i])
    ensures n < |s| ==> !IsSpace(s[|s| - n - 1])
  {
    if s == [] || !IsSpace(s[|s| - 1]) then 0 else 1 + TrailingSpaces(s[..|s| - 1])
  }

  /** `s.trim()`: the infix of `s` left after dropping white space at both ends. */
  function Trim(s: string): (r: string)
    ensures |r| > 0 ==> !IsSpace(r[0]) && !IsSpace(r[|r| - 1])
    ensures exists i, j ::
      (0 <= i <= j <= |s| && r == s[i..j]
       && (forall k :: 0 <= k < i ==> IsSpace(s[k]))
       && (forall k :: j <= k < |s| ==> IsSpace(s[k])))
  {
    var a := LeadingSpaces(s);
    var t := s[a..];
    var b := TrailingSpaces(t);
    assert forall k :: a + |t| - b <= k < |s| ==> s[k] == t[k - a];
    s[a..a + |t| - b]
  }

  // ----- tag stripping -----

  /**
   * `s.replace(/<[^>]*>/g, '')`: from every `<` that has a `>` somewhere
   * after it, everything up to and including the first such `>` is removed;
   * a `<` with no `>` after it stays.
   */
  function StripTags(s: string): (r: string)
    ensures |r| <= |s|
    decreases |s|
  {
    if s == [] then []
    else if s[0] == '<' && IndexOf(s[1..], ">") >= 0 then
      StripTags(s[1..][IndexOf(s[1..], ">") + 1..])
    else [s[0]] + StripTags(s[1..])
  }

  /** Text free of `<` passes through the stripper unchanged. */
  lemma {:induction false} StripTagsPlain(x: string, y: string)
    requires '<' !in x
    ensures StripTags(x + y) == x + StripTags(y)
  {
    if x != [] {
      var s := x + y;
      assert s[0] == x[0] && x[0] != '<';
      assert s[1..] == x[1..] + y;
      assert StripTags(s) == [s[0]] + StripTags(s[1..]);
      StripTagsPlain(x[1..], y);
      assert [x[0]] + (x[1..] + StripTags(y)) == x + StripTags(y);
    } else {
      assert x + y == y;
    }
  }

  /** A tag `<` + body + `>` whose body holds no `>` is removed entirely. */
  lemma {:induction false} StripTagsTag(body: string, y: string)
    requires '>' !in body
    ensures StripTags("<" + body + ">" + y) == StripTags(y)
  {
    var s := "<" + body + ">" + y;
    var t := s[1..];
    assert t == body + ">" + y;
    var k := IndexOf(t, ">");
    assert OccursAt(t, ">", |body|);
    assert k <= |body|;
    assert OccursAt(t, ">", k);
    assert t[k] == '>';
    assert k == |body|;
    assert t[k + 1..] == y;
  }

  // ----- case and numbers -----

  /** `toLowerCase` on the ASCII letters; every other character is kept. */
  function ToLowerAscii(s: string): (r: string)
    ensures |r| == |s|
    ensures forall i :: 0 <= i < |s| ==> !('A' <= r[i] <= 'Z')
    ensures forall i :: 0 <= i < |s| ==> r[i] == (if 'A' <= s[i] <= 'Z' then (s[i] as int + 32) as char else s[i])
  {
    if s == [] then []
    else [if 'A' <= s[0] <= 'Z' then (s[0] as int + 32) as char else s[0]] + ToLowerAscii(s[1..])
  }

  function DigitChar(d: nat): (c: char)
    requires d < 10
  {
    ('0' as int + d) as char
  }

  predicate IsDigit(c: char) {
    '0' <= c <= '9'
  }

  /** A number as a template literal prints it: decimal, without leading zeros. */
  function NatToString(n: nat): (r: string)
    ensures |r| >= 1
    ensures forall i :: 0 <= i < |r| ==> IsDigit(r[i])
    ensures n > 0 ==> r[0] != '0'
  {
    if n < 10 then [DigitChar(n)] else NatToString(n / 10) + [DigitChar(n % 10)]
  }

  /** The value of a string of decimal digits. */
  function DigitsValue(s: string): nat
    requires forall i :: 0 <= i < |s| ==> IsDigit(s[i])
  {
    if s == [] then 0
    else
      assert IsDigit(s[|s| - 1]);
      10 * DigitsValue(s[..|s| - 1]) + (s[|s| - 1] as int - '0' as int)
  }

  /** Reading the printed digits back gives the number: the rendering loses nothing. */
  lemma {:induction false} NatToStringRoundTrip(n: nat)
    ensures DigitsValue(NatToString(n)) == n
  {
    if n >= 10 {
      NatToStringRoundTrip(n / 10);
      var r := NatToString(n);
      assert r[..|r| - 1] == NatToString(n / 10);
    }
  }

  /** Distinct numbers print differently. */
  lemma NatToStringInjective(m: nat, n: nat)
    requires NatToString(m) == NatToString(n)
    ensures m == n
  {
    NatToStringRoundTrip(m);
    NatToStringRoundTrip(n);
  }
}
