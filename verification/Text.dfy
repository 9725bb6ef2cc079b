/** Decimal numerals, separators and line splitting: the text primitives the
    installer takes from the Rust standard library. */
module Text {

  // ---- Decimal numerals ----

  predicate IsDigit(c: char) {
    '0' <= c <= '9'
  }

  predicate AllDigits(s: string) {
    forall i :: 0 <= i < |s| ==> IsDigit(s[i])
  }

  function DigitOf(d: nat): (c: char)
    requires d < 10
    ensures IsDigit(c) && c as int - '0' as int == d
  {
    '0' + d as char
  }

  /** The number a digit string denotes, leading zeros included. */
  function NumeralValue(s: string): nat
    requires AllDigits(s)
  {
    if s == "" then 0
    else NumeralValue(s[..|s| - 1]) * 10 + (s[|s| - 1] as int - '0' as int)
  }

  /** The shortest decimal numeral, as `{n}` formats it. */
  function Decimal(n: nat): (s: string)
    ensures s != "" && AllDigits(s)
    ensures NumeralValue(s) == n
  {
    if n < 10 then
      assert [DigitOf(n)][..0] == "";
      [DigitOf(n)]
    else
      var front := Decimal(n / 10);
      var s := front + [DigitOf(n % 10)];
      assert s[..|s| - 1] == front;
      s
  }

  function Pow(base: nat, e: nat): (p: nat)
    ensures base > 0 ==> p > 0
  {
    if e == 0 then 1 else base * Pow(base, e - 1)
  }

  /** A value below 10^w prints in at most w digits. */
  lemma {:induction false} DecimalLength(n: nat, w: nat)
    requires w > 0 && n < Pow(10, w)
    ensures |Decimal(n)| <= w
  {
    if n >= 10 {
      assert w > 1;
      DecimalLength(n / 10, w - 1);
    }
  }

  function Repeat(c: char, n: nat): (s: string)
    ensures |s| == n && forall i :: 0 <= i < n ==> s[i] == c
  {
    seq(n, _ => c)
  }

  /** `{n:0>w$}`: right-aligned in `w` columns, filled with zeros. */
  function ZeroPad(n: nat, w: nat): (s: string)
    ensures |s| >= w && AllDigits(s)
  {
    var d := Decimal(n);
    if |d| < w then Repeat('0', w - |d|) + d else d
  }

  lemma {:induction false} LeadingZeros(k: nat, s: string)
    requires AllDigits(s)
    ensures AllDigits(Repeat('0', k) + s)
    ensures NumeralValue(Repeat('0', k) + s) == NumeralValue(s)
    decreases |s|, k
  {
    var t := Repeat('0', k) + s;
    if s != "" {
      assert t[..|t| - 1] == Repeat('0', k) + s[..|s| - 1];
      LeadingZeros(k, s[..|s| - 1]);
    } else if k > 0 {
      assert t[..|t| - 1] == Repeat('0', k - 1) + s;
      LeadingZeros(k - 1, s);
    }
  }

  /** Zero padding fills exactly `w` columns and can be read back. */
  lemma ZeroPadExact(n: nat, w: nat)
    requires w > 0 && n < Pow(10, w)
    ensures |ZeroPad(n, w)| == w
    ensures NumeralValue(ZeroPad(n, w)) == n
  {
    hide Decimal, Pow;
    DecimalLength(n, w);
    var d := Decimal(n);
    if |d| < w {
      LeadingZeros(w - |d|, d);
    }
  }

  // ---- Separators ----

  /** Position of the first `c`, or the length when there is none. */
  function IndexOf(s: string, c: char): (k: nat)
    ensures k <= |s|
    ensures k < |s| ==> s[k] == c
    ensures forall i :: 0 <= i < k ==> s[i] != c
  {
    if s == "" || s[0] == c then 0 else 1 + IndexOf(s[1..], c)
  }

  lemma IndexOfAppend(a: string, c: char, b: string)
    requires c !in a
    ensures IndexOf(a + [c] + b, c) == |a|
  {
    var s := a + [c] + b;
    var k := IndexOf(s, c);
    assert s[|a|] == c;
    assert s[..|a|] == a;
  }

  lemma IndexOfAbsent(a: string, c: char)
    ensures IndexOf(a, c) == |a| <==> c !in a
  {
  }

  /** `str::split(c)`: always at least one piece. */
  function Split(s: string, c: char): (parts: seq<string>)
    ensures |parts| >= 1
    ensures forall i :: 0 <= i < |parts| ==> c !in parts[i]
    decreases |s|
  {
    var k := IndexOf(s, c);
    if k == |s| then
      [s]
    else
      [s[..k]] + Split(s[k + 1..], c)
  }

  /** `[..].join(c)`. */
  function Join(parts: seq<string>, c: char): string {
    if |parts| == 0 then ""
    else if |parts| == 1 then parts[0]
    else parts[0] + [c] + Join(parts[1..], c)
  }

  lemma {:induction false} JoinSplit(s: string, c: char)
    ensures Join(Split(s, c), c) == s
    decreases |s|
  {
    var k := IndexOf(s, c);
    if k < |s| {
      JoinSplit(s[k + 1..], c);
      var rest := Split(s[k + 1..], c);
      assert Split(s, c) == [s[..k]] + rest;
      JoinCons(s[..k], rest, c);
      assert s == s[..k] + [c] + s[k + 1..];
    }
  }

  lemma JoinCons(first: string, rest: seq<string>, c: char)
    requires rest != []
    ensures Join([first] + rest, c) == first + [c] + Join(rest, c)
  {
    assert ([first] + rest)[1..] == rest;
  }

  lemma {:induction false} SplitJoin(parts: seq<string>, c: char)
    requires |parts| >= 1
    requires forall i :: 0 <= i < |parts| ==> c !in parts[i]
    ensures Split(Join(parts, c), c) == parts
  {
    var s := Join(parts, c);
    if |parts| == 1 {
      IndexOfAbsent(s, c);
    } else {
      IndexOfAppend(parts[0], c, Join(parts[1..], c));
      assert s[..|parts[0]|] == parts[0];
      assert s[|parts[0]| + 1..] == Join(parts[1..], c);
      SplitJoin(parts[1..], c);
    }
  }

  // ---- Whitespace and byte length ----

  /** The Unicode White_Space characters, which `char::is_whitespace` tests. */
  predicate IsWhitespace(c: char) {
    || '\U{9}' <= c <= '\U{D}'
    || c == ' ' || c == '\U{85}' || c == '\U{A0}' || c == '\U{1680}'
    || '\U{2000}' <= c <= '\U{200A}'
    || c == '\U{2028}' || c == '\U{2029}' || c == '\U{202F}'
    || c == '\U{205F}' || c == '\U{3000}'
  }

  function TrimStart(s: string): (t: string)
    ensures t == "" || !IsWhitespace(t[0])
    ensures |t| <= |s|
  {
    if s != "" && IsWhitespace(s[0]) then TrimStart(s[1..]) else s
  }

  function TrimEnd(s: string): (t: string)
    ensures t == "" || !IsWhitespace(t[|t| - 1])
    ensures t <= s
  {
    if s != "" && IsWhitespace(s[|s| - 1]) then TrimEnd(s[..|s| - 1]) else s
  }

  /** `str::trim`. */
  function Trim(s: string): string {
    TrimEnd(TrimStart(s))
  }

  /** Bytes of one character in UTF-8 (section 3 of RFC 3629). */
  function Utf8Width(c: char): nat {
    if c < '\U{80}' then 1 else if c < '\U{800}' then 2 else if c < '\U{10000}' then 3 else 4
  }

  /** `str::len`, which counts bytes rather than characters. */
  function ByteLen(s: string): nat {
    if s == "" then 0 else ByteLen(s[..|s| - 1]) + Utf8Width(s[|s| - 1])
  }

  predicate IsAscii(s: string) {
    forall i :: 0 <= i < |s| ==> s[i] < '\U{80}'
  }

  lemma {:induction false} AsciiByteLen(s: string)
    requires IsAscii(s)
    ensures ByteLen(s) == |s|
  {
    if s != "" {
      AsciiByteLen(s[..|s| - 1]);
    }
  }

  /** `to_ascii_lowercase` of one character. */
  function LowerChar(c: char): char {
    if 'A' <= c <= 'Z' then c - 'A' + 'a' else c
  }

  function Lower(s: string): (t: string)
    ensures |t| == |s| && forall i :: 0 <= i < |s| ==> t[i] == LowerChar(s[i])
  {
    seq(|s|, i requires 0 <= i < |s| => LowerChar(s[i]))
  }

  predicate IsLowerAlnum(c: char) {
    'a' <= c <= 'z' || IsDigit(c)
  }

  predicate IsAlnum(c: char) {
    IsLowerAlnum(c) || 'A' <= c <= 'Z'
  }
}
