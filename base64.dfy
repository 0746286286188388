/**
 * `btoa` over a Latin-1 string (the standard Base64 alphabet and `=` padding
 * of section 4 of RFC 4648) and the project id `ProjectManager` derives from
 * a URL: the alphanumeric characters of the encoding, at most sixteen.
 */
module Base64 {

  /** Every character fits in one byte; `btoa` throws on anything else. */
  predicate Latin1(s: string) {
    forall i :: 0 <= i < |s| ==> s[i] as int < 256
  }

  /** The Base64 digit of a six-bit value: `A`-`Z`, `a`-`z`, `0`-`9`, `+`, `/`. */
  function Digit(v: nat): (c: char)
    requires v < 64
    ensures IsDigit(c) && c != '='
  {
    if v < 26 then ('A' as int + v) as char
    else if v < 52 then ('a' as int + (v - 26)) as char
    else if v < 62 then ('0' as int + (v - 52)) as char
    else if v == 62 then '+'
    else '/'
  }

  predicate IsDigit(c: char) {
    ('A' <= c <= 'Z') || ('a' <= c <= 'z') || ('0' <= c <= '9') || c == '+' || c == '/'
  }

  /** The six-bit value of a Base64 digit. */
  function DigitValue(c: char): (v: nat)
    requires IsDigit(c)
    ensures v < 64
  {
    if 'A' <= c <= 'Z' then c as int - 'A' as int
    else if 'a' <= c <= 'z' then c as int - 'a' as int + 26
    else if '0' <= c <= '9' then c as int - '0' as int + 52
    else if c == '+' then 62
    else 63
  }

  lemma DigitRoundTrip(v: nat)
    requires v < 64
    ensures IsDigit(Digit(v)) && DigitValue(Digit(v)) == v
  {
  }

  /** The four digits of three bytes. */
  function Quad(a: nat, b: nat, c: nat): (r: string)
    requires a < 256 && b < 256 && c < 256
    ensures |r| == 4 && forall i :: 0 <= i < 4 ==> IsDigit(r[i])
  {
    [Digit(a / 4), Digit((a % 4) * 16 + b / 16), Digit((b % 16) * 4 + c / 64), Digit(c % 64)]
  }

  /** The padded digits of a last group of one or two bytes. */
  function Final(s: string): (r: string)
    requires Latin1(s) && 1 <= |s| <= 2
    ensures |r| == 4
  {
    var a := s[0] as int;
    if |s| == 1 then [Digit(a / 4), Digit((a % 4) * 16), '=', '=']
    else
      var b := s[1] as int;
      [Digit(a / 4), Digit((a % 4) * 16 + b / 16), Digit((b % 16) * 4), '=']
  }

  /** `btoa(s)`: four digits per three bytes, the last group padded with `=`. */
  function Encode(s: string): (r: string)
    requires Latin1(s)
    ensures |r| == 4 * ((|s| + 2) / 3)
    decreases |s|
  {
    if |s| == 0 then []
    else if |s| < 3 then Final(s)
    else Quad(s[0] as int, s[1] as int, s[2] as int) + Encode(s[3..])
  }

  /** The three bytes of four digits. */
  function Unquad(q: string): (r: string)
    requires |q| == 4 && forall i :: 0 <= i < 4 ==> IsDigit(q[i])
  {
    var w, x, y, z := DigitValue(q[0]), DigitValue(q[1]), DigitValue(q[2]), DigitValue(q[3]);
    [(w * 4 + x / 16) as char, ((x % 16) * 16 + y / 4) as char, ((y % 4) * 64 + z) as char]
  }

  /** The inverse of `Encode` on its own output. */
  function Decode(e: string): string
    decreases |e|
  {
    if |e| < 4 then []
    else if e[2] == '=' && IsDigit(e[0]) && IsDigit(e[1]) then
      [(DigitValue(e[0]) * 4 + DigitValue(e[1]) / 16) as char]
    else if e[3] == '=' && IsDigit(e[0]) && IsDigit(e[1]) && IsDigit(e[2]) then
      var w, x, y := DigitValue(e[0]), DigitValue(e[1]), DigitValue(e[2]);
      [(w * 4 + x / 16) as char, ((x % 16) * 16 + y / 4) as char]
    else if IsDigit(e[0]) && IsDigit(e[1]) && IsDigit(e[2]) && IsDigit(e[3]) then
      Unquad(e[..4]) + Decode(e[4..])
    else []
  }

  /** A value of the form `hi * 16 + lo` splits back into `hi` and `lo`. */
  lemma Split16(hi: nat, lo: nat)
    requires lo < 16
    ensures (hi * 16 + lo) / 16 == hi && (hi * 16 + lo) % 16 == lo
  {
  }

  lemma Split4(hi: nat, lo: nat)
    requires lo < 4
    ensures (hi * 4 + lo) / 4 == hi && (hi * 4 + lo) % 4 == lo
  {
  }

  lemma QuadDigits(a: nat, b: nat, c: nat)
    requires a < 256 && b < 256 && c < 256
    ensures forall i :: 0 <= i < 4 ==> IsDigit(Quad(a, b, c)[i])
    ensures DigitValue(Quad(a, b, c)[0]) == a / 4
    ensures DigitValue(Quad(a, b, c)[1]) == (a % 4) * 16 + b / 16
    ensures DigitValue(Quad(a, b, c)[2]) == (b % 16) * 4 + c / 64
    ensures DigitValue(Quad(a, b, c)[3]) == c % 64
  {
    DigitRoundTrip(a / 4);
    DigitRoundTrip((a % 4) * 16 + b / 16);
    DigitRoundTrip((b % 16) * 4 + c / 64);
    DigitRoundTrip(c % 64);
  }

  lemma FirstByte(a: nat, b: nat)
    requires a < 256 && b < 256
    ensures (a / 4) * 4 + ((a % 4) * 16 + b / 16) / 16 == a
  {
    Split16(a % 4, b / 16);
  }

  lemma SecondByte(a: nat, b: nat, c: nat)
    requires a < 256 && b < 256 && c < 256
    ensures (((a % 4) * 16 + b / 16) % 16) * 16 + ((b % 16) * 4 + c / 64) / 4 == b
  {
    Split16(a % 4, b / 16);
    Split4(b % 16, c / 64);
  }

  lemma ThirdByte(b: nat, c: nat)
    requires b < 256 && c < 256
    ensures (((b % 16) * 4 + c / 64) % 4) * 64 + c % 64 == c
  {
    Split4(b % 16, c / 64);
  }

  lemma QuadRoundTrip(a: nat, b: nat, c: nat)
    requires a < 256 && b < 256 && c < 256
    ensures forall i :: 0 <= i < 4 ==> IsDigit(Quad(a, b, c)[i])
    ensures Unquad(Quad(a, b, c)) == [a as char, b as char, c as char]
  {
    QuadDigits(a, b, c);
    FirstByte(a, b);
    SecondByte(a, b, c);
    ThirdByte(b, c);
  }

  lemma FinalRoundTrip(s: string)
    requires Latin1(s) && 1 <= |s| <= 2
    ensures Decode(Final(s)) == s
  {
    var a := s[0] as int;
    if |s| == 1 {
      DigitRoundTrip(a / 4);
      DigitRoundTrip((a % 4) * 16);
      FirstByte(a, 0);
    } else {
      var b := s[1] as int;
      DigitRoundTrip(a / 4);
      DigitRoundTrip((a % 4) * 16 + b / 16);
      DigitRoundTrip((b % 16) * 4);
      FirstByte(a, b);
      SecondByte(a, b, 0);
    }
  }

  lemma DecodeQuad(q: string, rest: string)
    requires |q| == 4 && forall i :: 0 <= i < 4 ==> IsDigit(q[i])
    ensures Decode(q + rest) == Unquad(q) + Decode(rest)
  {
    var e := q + rest;
    assert e[..4] == q && e[4..] == rest;
    assert e[2] != '=' && e[3] != '=';
  }

  lemma EncodeStep(s: string)
    requires Latin1(s) && |s| >= 3
    ensures Encode(s) == Quad(s[0] as int, s[1] as int, s[2] as int) + Encode(s[3..])
  {
  }

  lemma QuadOfPrefix(s: string)
    requires Latin1(s) && |s| >= 3
    ensures Unquad(Quad(s[0] as int, s[1] as int, s[2] as int)) == s[..3]
  {
    QuadRoundTrip(s[0] as int, s[1] as int, s[2] as int);
  }

  /** The first group of an encoding: four digits that decode to the first three bytes. */
  lemma EncodeGroup(s: string)
    requires Latin1(s) && |s| >= 3
    ensures exists q :: && |q| == 4 && (forall i :: 0 <= i < 4 ==> IsDigit(q[i]))
                        && Unquad(q) == s[..3] && Encode(s) == q + Encode(s[3..])
  {
    EncodeStep(s);
    QuadOfPrefix(s);
  }

  lemma DecodeGroup(s: string, q: string, tail: string)
    requires |s| >= 3 && |q| == 4 && forall i :: 0 <= i < 4 ==> IsDigit(q[i])
    requires Unquad(q) == s[..3] && Decode(tail) == s[3..]
    ensures Decode(q + tail) == s
  {
    DecodeQuad(q, tail);
    assert s[..3] + s[3..] == s;
  }

  lemma DecodeEncodeGroup(s: string)
    requires Latin1(s) && |s| >= 3
    requires Decode(Encode(s[3..])) == s[3..]
    ensures Decode(Encode(s)) == s
  {
    EncodeGroup(s);
    var q :| && |q| == 4 && (forall i :: 0 <= i < 4 ==> IsDigit(q[i]))
             && Unquad(q) == s[..3] && Encode(s) == q + Encode(s[3..]);
    DecodeGroup(s, q, Encode(s[3..]));
  }

  /** Decoding the encoding gives the string back, so the encoding loses nothing. */
  lemma {:induction false} DecodeEncode(s: string)
    requires Latin1(s)
    ensures Decode(Encode(s)) == s
    decreases |s|
  {
    if 1 <= |s| <= 2 {
      FinalRoundTrip(s);
    } else if |s| >= 3 {
      DecodeEncode(s[3..]);
      DecodeEncodeGroup(s);
    }
  }

  /** Encoding whole groups of three bytes concatenates. */
  lemma {:induction false} EncodeAppend(a: string, b: string)
    requires Latin1(a) && Latin1(b) && |a| % 3 == 0
    ensures Latin1(a + b)
    ensures Encode(a + b) == Encode(a) + Encode(b)
    decreases |a|
  {
    if a != [] {
      assert (a + b)[3..] == a[3..] + b;
      EncodeAppend(a[3..], b);
    } else {
      assert a + b == b;
    }
  }

  predicate IsAlnum(c: char) {
    ('A' <= c <= 'Z') || ('a' <= c <= 'z') || ('0' <= c <= '9')
  }

  /** `replace(/[^a-zA-Z0-9]/g, '')`. */
  function KeepAlnum(s: string): (r: string)
    ensures |r| <= |s|
    ensures forall i :: 0 <= i < |r| ==> IsAlnum(r[i])
    ensures forall c :: c in r <==> c in s && IsAlnum(c)
  {
    if s == [] then []
    else if IsAlnum(s[0]) then [s[0]] + KeepAlnum(s[1..])
    else KeepAlnum(s[1..])
  }

  lemma {:induction false} KeepAlnumAppend(a: string, b: string)
    ensures KeepAlnum(a + b) == KeepAlnum(a) + KeepAlnum(b)
  {
    if a != [] {
      assert (a + b)[1..] == a[1..] + b;
      KeepAlnumAppend(a[1..], b);
    } else {
      assert a + b == b;
    }
  }

  /** A single character is kept exactly when it is a letter or a digit. */
  lemma KeepAlnumSingle(c: char)
    ensures KeepAlnum([c]) == (if IsAlnum(c) then [c] else [])
  {
    assert [c][1..] == [];
  }

  /** A string of alphanumerics is kept whole. */
  lemma {:induction false} KeepAlnumAll(s: string)
    requires forall i :: 0 <= i < |s| ==> IsAlnum(s[i])
    ensures KeepAlnum(s) == s
  {
    if s != [] {
      KeepAlnumAll(s[1..]);
    }
  }

  /** `substring(0, 16)`. */
  function Take16(s: string): (r: string)
    ensures |r| <= 16 && StartsWithAll(s, r)
    ensures |s| >= 16 ==> |r| == 16
    ensures |s| <= 16 ==> r == s
  {
    if |s| <= 16 then s else s[..16]
  }

  predicate StartsWithAll(s: string, prefix: string) {
    |prefix| <= |s| && s[..|prefix|] == prefix
  }

  /** `generateProjectId`: at most sixteen alphanumeric characters of the URL's encoding. */
  function ProjectId(url: string): (id: string)
    requires Latin1(url)
    ensures |id| <= 16
    ensures |id| == (if |KeepAlnum(Encode(url))| < 16 then |KeepAlnum(Encode(url))| else 16)
    ensures forall i :: 0 <= i < |id| ==> IsAlnum(id[i])
    ensures StartsWithAll(KeepAlnum(Encode(url)), id)
  {
    Take16(KeepAlnum(Encode(url)))
  }

  /**
   * The id only depends on a URL's first twelve characters once their
   * encoding holds sixteen alphanumerics, so URLs sharing such a beginning
   * share their id: the id does not identify a URL.
   */
  lemma SharedBeginningCollides(u: string, v: string)
    requires Latin1(u) && Latin1(v) && |u| >= 12 && |v| >= 12 && u[..12] == v[..12]
    requires |KeepAlnum(Encode(u[..12]))| == 16
    ensures ProjectId(u) == ProjectId(v)
  {
    IdOfLongBeginning(u);
    IdOfLongBeginning(v);
  }

  lemma IdOfLongBeginning(u: string)
    requires Latin1(u) && |u| >= 12
    requires |KeepAlnum(Encode(u[..12]))| == 16
    ensures ProjectId(u) == KeepAlnum(Encode(u[..12]))
  {
    assert u == u[..12] + u[12..];
    EncodeAppend(u[..12], u[12..]);
    KeepAlnumAppend(Encode(u[..12]), Encode(u[12..]));
    var head := KeepAlnum(Encode(u[..12]));
    assert KeepAlnum(Encode(u)) == head + KeepAlnum(Encode(u[12..]));
    assert (head + KeepAlnum(Encode(u[12..])))[..16] == head;
  }

  /** Twelve bytes encode to four groups of four digits. */
  lemma EncodeTwelve(s: string)
    requires Latin1(s) && |s| == 12
    ensures Encode(s) == Quad(s[0] as int, s[1] as int, s[2] as int) + Quad(s[3] as int, s[4] as int, s[5] as int)
                       + Quad(s[6] as int, s[7] as int, s[8] as int) + Quad(s[9] as int, s[10] as int, s[11] as int)
  {
    EncodeStep(s);
    EncodeStep(s[3..]);
    EncodeStep(s[6..]);
    EncodeStep(s[9..]);
    assert s[3..][3..] == s[6..] && s[6..][3..] == s[9..] && s[9..][3..] == [];
  }

  /** `https://www.` encodes to `aHR0cHM6Ly93d3cu`. */
  lemma WwwEncoding(w: string)
    requires w == "https://www."
    ensures Latin1(w) && Encode(w) == "aHR0cHM6Ly93d3cu"
  {
    assert w[0] == 'h' && w[1] == 't' && w[2] == 't' && w[3] == 'p' && w[4] == 's' && w[5] == ':';
    assert w[6] == '/' && w[7] == '/' && w[8] == 'w' && w[9] == 'w' && w[10] == 'w' && w[11] == '.';
    EncodeTwelve(w);
    WwwDigits();
  }

  /** A beginning that encodes to sixteen letters and digits is the id of every URL that starts with it. */
  lemma IdOfAlnumBeginning(u: string, id: string)
    requires Latin1(u) && |u| >= 12 && Latin1(u[..12]) && Encode(u[..12]) == id
    requires |id| == 16 && forall i :: 0 <= i < 16 ==> IsAlnum(id[i])
    ensures ProjectId(u) == id
  {
    KeepAlnumAll(id);
    IdOfLongBeginning(u);
  }

  /**
   * Every URL that begins with `https://www.` gets the id `aHR0cHM6Ly93d3cu`,
   * the encoding of that beginning, whatever follows it.
   */
  lemma WwwUrlsShareId(u: string)
    requires Latin1(u) && |u| >= 12 && u[..12] == "https://www."
    ensures ProjectId(u) == "aHR0cHM6Ly93d3cu"
  {
    var id := "aHR0cHM6Ly93d3cu";
    WwwEncoding(u[..12]);
    WwwIdAlnum(id);
    IdOfAlnumBeginning(u, id);
  }

  lemma WwwIdAlnum(id: string)
    requires id == "aHR0cHM6Ly93d3cu"
    ensures |id| == 16 && forall i :: 0 <= i < 16 ==> IsAlnum(id[i])
  {
  }

  lemma WwwDigits()
    ensures Quad(104, 116, 116) == "aHR0" && Quad(112, 115, 58) == "cHM6"
    ensures Quad(47, 47, 119) == "Ly93" && Quad(119, 119, 46) == "d3cu"
  {
  }
}
