/** Text and byte helpers the system relies on from Rust's standard library:
    decimal rendering (`to_string`, `format!("{}")`), UTF-8 encoding (`as_bytes`, `len`),
    `split`, `ends_with`, `trim_end_matches`, ASCII lower-casing and `{:x}` hex digests. */
module Text {

  type Byte = bv8
  type Bytes = seq<Byte>

  /** The decimal digit character for `d`. */
  function Digit(d: nat): char
    requires d < 10
  {
    (48 + d) as char
  }

  predicate IsDigit(c: char) { '0' <= c <= '9' }

  /** Decimal rendering of a natural number, most significant digit first. */
  function NatToString(n: nat): (s: string)
    ensures |s| >= 1
    ensures forall i :: 0 <= i < |s| ==> IsDigit(s[i])
    ensures n >= 10 ==> s[0] != '0'
    decreases n
  {
    if n < 10 then [Digit(n)] else NatToString(n / 10) + [Digit(n % 10)]
  }

  /** Decimal rendering of an integer, with a leading '-' when negative. */
  function IntToString(i: int): string {
    if i < 0 then "-" + NatToString(-i) else NatToString(i)
  }

  /** The UTF-8 encoding of one Unicode scalar value (RFC 3629, section 3). */
  function Utf8Char(c: char): (b: Bytes)
    ensures 1 <= |b| <= 4
    ensures (c as int < 0x80) <==> |b| == 1
  {
    var v := c as int;
    if v < 0x80 then [v as bv8]
    else if v < 0x800 then [(0xC0 + v / 0x40) as bv8, (0x80 + v % 0x40) as bv8]
    else if v < 0x10000 then
      [(0xE0 + v / 0x1000) as bv8, (0x80 + (v / 0x40) % 0x40) as bv8, (0x80 + v % 0x40) as bv8]
    else
      [(0xF0 + v / 0x40000) as bv8, (0x80 + (v / 0x1000) % 0x40) as bv8,
       (0x80 + (v / 0x40) % 0x40) as bv8, (0x80 + v % 0x40) as bv8]
  }

  /** `str::as_bytes`: the UTF-8 encoding of a string. */
  function Utf8(s: string): Bytes {
    if s == [] then [] else Utf8Char(s[0]) + Utf8(s[1..])
  }

  /** `str::len`: the length of a string in bytes, which is what Rust's size checks compare. */
  function ByteLen(s: string): nat { |Utf8(s)| }

  predicate IsAscii(s: string) { forall i :: 0 <= i < |s| ==> s[i] as int < 0x80 }

  /** A string takes at least one and at most four bytes per character, and exactly one
      per character when it is ASCII. */
  lemma {:induction false} ByteLenBounds(s: string)
    ensures |s| <= ByteLen(s) <= 4 * |s|
    ensures IsAscii(s) ==> ByteLen(s) == |s|
  {
    if s != [] {
      ByteLenBounds(s[1..]);
      assert IsAscii(s) ==> IsAscii(s[1..]) by {
        if IsAscii(s) {
          forall i | 0 <= i < |s[1..]| ensures s[1..][i] as int < 0x80 { assert s[1..][i] == s[i + 1]; }
        }
      }
    }
  }

  /** `parts.join(sep)`. */
  function Join(parts: seq<string>, sep: string): string {
    if parts == [] then ""
    else if |parts| == 1 then parts[0]
    else parts[0] + sep + Join(parts[1..], sep)
  }

  /** `str::split(c)` collected into a vector: the pieces between occurrences of `c`.
      An empty string yields one empty piece. */
  function Split(s: string, c: char): (parts: seq<string>)
    ensures |parts| >= 1
  {
    if s == [] then [""]
    else
      var rest := Split(s[1..], c);
      if s[0] == c then [""] + rest else [[s[0]] + rest[0]] + rest[1..]
  }

  /** A string without the separator is a single piece. */
  lemma {:induction false} SplitWithoutSeparator(s: string, c: char)
    requires c !in s
    ensures Split(s, c) == [s]
  {
    if s != [] {
      assert c !in s[1..];
      SplitWithoutSeparator(s[1..], c);
      assert [s[0]] + s[1..] == s;
    }
  }

  /** Splitting at the first separator: what precedes it is the first piece. */
  lemma {:induction false} SplitAtFirst(a: string, c: char, b: string)
    requires c !in a
    ensures Split(a + [c] + b, c) == [a] + Split(b, c)
  {
    if a == [] {
      assert a + [c] + b == [c] + b;
      assert ([c] + b)[1..] == b;
    } else {
      assert (a + [c] + b)[1..] == a[1..] + [c] + b;
      assert c !in a[1..];
      SplitAtFirst(a[1..], c, b);
      assert [a[0]] + a[1..] == a;
    }
  }

  /** How many times `c` occurs in `s`. */
  function Occurrences(s: string, c: char): (n: nat)
    ensures n == 0 <==> c !in s
    ensures n <= |s|
  {
    if s == [] then 0
    else
      var n := Occurrences(s[1..], c);
      assert c in s <==> s[0] == c || c in s[1..];
      (if s[0] == c then 1 else 0) + n
  }

  /** Splitting yields one piece more than there are separators. */
  lemma {:induction false} SplitLength(s: string, c: char)
    ensures |Split(s, c)| == 1 + Occurrences(s, c)
  {
    if s != [] {
      SplitLength(s[1..], c);
    }
  }

  /** Two strings without the separator, joined by it, split back into exactly themselves. */
  lemma SplitPair(a: string, c: char, b: string)
    requires c !in a && c !in b
    ensures Split(a + [c] + b, c) == [a, b]
  {
    SplitAtFirst(a, c, b);
    SplitWithoutSeparator(b, c);
  }

  const HexDigits: string := "0123456789abcdef"

  /** `format!("{:x}", digest)`: two lower-case hex digits per byte, high nibble first. */
  function LowerHex(b: Bytes): (s: string)
    ensures |s| == 2 * |b|
    ensures forall i :: 0 <= i < |s| ==> s[i] in HexDigits
  {
    if b == [] then ""
    else [HexDigits[(b[0] / 16) as int], HexDigits[(b[0] % 16) as int]] + LowerHex(b[1..])
  }

  predicate EndsWith(s: string, suffix: string) {
    |suffix| <= |s| && s[|s| - |suffix|..] == suffix
  }

  /** `pattern` written `k` times. */
  function Repeat(pattern: string, k: nat): string {
    if k == 0 then "" else Repeat(pattern, k - 1) + pattern
  }

  /** `str::trim_end_matches(pattern)`: removes every trailing repetition of `pattern`. */
  function TrimEndMatches(s: string, pattern: string): string
    decreases |s|
  {
    if pattern != "" && EndsWith(s, pattern) then TrimEndMatches(s[..|s| - |pattern|], pattern)
    else s
  }

  /** What is trimmed is a run of whole repetitions of the pattern, and all of them: the
      result no longer ends with the pattern. */
  lemma TrimEndMatchesSpec(s: string, pattern: string)
    ensures pattern != "" ==> !EndsWith(TrimEndMatches(s, pattern), pattern)
    ensures exists k: nat :: s == TrimEndMatches(s, pattern) + Repeat(pattern, k)
  {
    TrimEndMatchesAll(s, pattern);
    var k := TrimEndMatchesRemoved(s, pattern);
  }

  lemma {:induction false} TrimEndMatchesAll(s: string, pattern: string)
    ensures pattern != "" ==> !EndsWith(TrimEndMatches(s, pattern), pattern)
    decreases |s|
  {
    if pattern != "" && EndsWith(s, pattern) {
      TrimEndMatchesAll(s[..|s| - |pattern|], pattern);
    }
  }

  lemma {:induction false} TrimEndMatchesRemoved(s: string, pattern: string) returns (k: nat)
    ensures s == TrimEndMatches(s, pattern) + Repeat(pattern, k)
    decreases |s|
  {
    if pattern != "" && EndsWith(s, pattern) {
      var shorter := s[..|s| - |pattern|];
      var k' := TrimEndMatchesRemoved(shorter, pattern);
      EndsWithSplit(s, pattern);
      AppendAssoc(TrimEndMatches(shorter, pattern), Repeat(pattern, k'), pattern);
      k := k' + 1;
    } else {
      k := 0;
      assert s + "" == s;
    }
  }

  lemma EndsWithSplit(s: string, suffix: string)
    requires EndsWith(s, suffix)
    ensures s == s[..|s| - |suffix|] + suffix
  {
    assert s == s[..|s| - |suffix|] + s[|s| - |suffix|..];
  }

  lemma AppendAssoc(a: string, b: string, c: string)
    ensures (a + b) + c == a + (b + c)
  {
  }

  /** ASCII lower-casing of one character. */
  function AsciiLower(c: char): char {
    if 'A' <= c <= 'Z' then (c as int + 32) as char else c
  }

  function LowerAscii(s: string): (r: string)
    ensures |r| == |s|
  {
    seq(|s|, i requires 0 <= i < |s| => AsciiLower(s[i]))
  }

  predicate IsAlphanumeric(c: char) {
    ('A' <= c <= 'Z') || ('a' <= c <= 'z') || ('0' <= c <= '9')
  }
}
