/** The parts of Go's strings and strconv packages that the configuration loaders and request
    parsers rely on: TrimSpace, ToLower, Atoi, Itoa and ParseUint with base detection. */
module GoText {
  import opened Wrappers

  const MinInt64: int := -0x8000_0000_0000_0000
  const MaxInt64: int := 0x7FFF_FFFF_FFFF_FFFF

  /** Unicode White_Space, the set strings.TrimSpace removes: the ASCII tab, line feed, vertical
      tab, form feed, carriage return and space, and the non-ASCII spaces. */
  predicate IsSpace(c: char) {
    if c < '\U{0080}' then c == ' ' || '\t' <= c <= '\r'
    else (c == '\U{0085}' || c == '\U{00A0}' || c == '\U{1680}' || '\U{2000}' <= c <= '\U{200A}'
      || c == '\U{2028}' || c == '\U{2029}' || c == '\U{202F}' || c == '\U{205F}' || c == '\U{3000}')
  }

  function TrimLeft(s: string): (r: string)
    ensures |r| <= |s|
  {
    if s != [] && IsSpace(s[0]) then TrimLeft(s[1..]) else s
  }

  function TrimRight(s: string): (r: string)
    ensures |r| <= |s|
  {
    if s != [] && IsSpace(s[|s| - 1]) then TrimRight(s[..|s| - 1]) else s
  }

  /** TrimLeft drops a run of white space from the front and stops at the first other character. */
  lemma {:induction false} TrimLeftFacts(s: string)
    ensures TrimLeft(s) == s[|s| - |TrimLeft(s)|..]
    ensures forall i :: 0 <= i < |s| - |TrimLeft(s)| ==> IsSpace(s[i])
    ensures TrimLeft(s) != [] ==> !IsSpace(TrimLeft(s)[0])
  {
    if s != [] && IsSpace(s[0]) {
      TrimLeftFacts(s[1..]);
    }
  }

  /** TrimRight drops a run of white space from the back and stops at the last other character. */
  lemma {:induction false} TrimRightFacts(s: string)
    ensures TrimRight(s) == s[..|TrimRight(s)|]
    ensures forall i :: |TrimRight(s)| <= i < |s| ==> IsSpace(s[i])
    ensures TrimRight(s) != [] ==> !IsSpace(TrimRight(s)[|TrimRight(s)| - 1])
  {
    if s != [] && IsSpace(s[|s| - 1]) {
      TrimRightFacts(s[..|s| - 1]);
    }
  }

  /** How many characters TrimSpace drops from the front. */
  function TrimStart(s: string): nat {
    |s| - |TrimLeft(s)|
  }

  /** strings.TrimSpace. */
  function TrimSpace(s: string): (r: string)
    ensures |r| <= |s|
  {
    TrimRight(TrimLeft(s))
  }

  /** The result of TrimSpace has no white space at either end, and only white space was removed,
      from the two ends. */
  lemma TrimSpaceFacts(s: string)
    ensures var r := TrimSpace(s);
      && (r != [] ==> !IsSpace(r[0]) && !IsSpace(r[|r| - 1]))
      && TrimStart(s) + |r| <= |s| && r == s[TrimStart(s)..TrimStart(s) + |r|]
      && (forall i :: 0 <= i < TrimStart(s) ==> IsSpace(s[i]))
      && (forall i :: TrimStart(s) + |r| <= i < |s| ==> IsSpace(s[i]))
  {
    var l := TrimLeft(s);
    var r := TrimRight(l);
    var k := |s| - |l|;
    TrimLeftFacts(s);
    TrimRightFacts(l);
    assert r == s[k..k + |r|];
    assert forall i :: k + |r| <= i < |s| ==> s[i] == l[i - k];
    if r != [] {
      assert r[0] == l[0];
    }
  }

  /** Trimming is idempotent, and a string without white space at its ends is left alone. */
  lemma TrimSpaceFixed(s: string)
    requires s != [] ==> !IsSpace(s[0]) && !IsSpace(s[|s| - 1])
    ensures TrimSpace(s) == s
  {
  }

  lemma TrimSpaceIdempotent(s: string)
    ensures TrimSpace(TrimSpace(s)) == TrimSpace(s)
  {
    TrimSpaceFacts(s);
    TrimSpaceFixed(TrimSpace(s));
  }

  /** unicode.ToLower on the characters whose lower case is an ASCII letter: A-Z, the dotted
      capital I (U+0130) and the Kelvin sign (U+212A); every other character is kept. */
  function LowerChar(c: char): (d: char)
    ensures 'a' <= d <= 'z' <==> 'a' <= c <= 'z' || 'A' <= c <= 'Z' || c == '\U{0130}' || c == '\U{212A}'
    ensures IsSpace(d) <==> IsSpace(c)
  {
    if 'A' <= c <= 'Z' then (c as int + 32) as char
    else if c == '\U{0130}' then 'i'
    else if c == '\U{212A}' then 'k'
    else c
  }

  /** strings.ToLower, character by character. */
  function ToLower(s: string): (r: string)
    ensures |r| == |s| && forall i :: 0 <= i < |s| ==> r[i] == LowerChar(s[i])
  {
    if s == [] then [] else [LowerChar(s[0])] + ToLower(s[1..])
  }

  /** Lower-casing is idempotent and commutes with trimming. */
  lemma ToLowerIdempotent(s: string)
    ensures ToLower(ToLower(s)) == ToLower(s)
  {
  }

  lemma {:induction false} ToLowerTrimLeft(s: string)
    ensures ToLower(TrimLeft(s)) == TrimLeft(ToLower(s))
  {
    var t := ToLower(s);
    if s != [] {
      assert IsSpace(t[0]) <==> IsSpace(s[0]);
      if IsSpace(s[0]) {
        assert t[1..] == ToLower(s[1..]);
        ToLowerTrimLeft(s[1..]);
        assert TrimLeft(t) == TrimLeft(t[1..]);
      } else {
        assert TrimLeft(s) == s && TrimLeft(t) == t;
      }
    }
  }

  lemma {:induction false} ToLowerTrimRight(s: string)
    ensures ToLower(TrimRight(s)) == TrimRight(ToLower(s))
  {
    var t := ToLower(s);
    if s != [] {
      assert IsSpace(t[|t| - 1]) <==> IsSpace(s[|s| - 1]);
      if IsSpace(s[|s| - 1]) {
        assert t[..|t| - 1] == ToLower(s[..|s| - 1]);
        ToLowerTrimRight(s[..|s| - 1]);
        assert TrimRight(t) == TrimRight(t[..|t| - 1]);
      } else {
        assert TrimRight(s) == s && TrimRight(t) == t;
      }
    }
  }

  lemma ToLowerTrimSpace(s: string)
    ensures ToLower(TrimSpace(s)) == TrimSpace(ToLower(s))
  {
    ToLowerTrimLeft(s);
    ToLowerTrimRight(TrimLeft(s));
  }

  predicate IsDigit(c: char) {
    '0' <= c <= '9'
  }

  predicate AllDigits(s: string) {
    forall i :: 0 <= i < |s| ==> IsDigit(s[i])
  }

  /** The value of a string of decimal digits, most significant first. */
  function DecValue(s: string): nat
    requires AllDigits(s)
  {
    if s == [] then 0 else 10 * DecValue(s[..|s| - 1]) + (s[|s| - 1] as int - '0' as int)
  }

  /** strconv.Atoi on a 64-bit platform: an optional sign and at least one decimal digit, with
      the value in int64 range; None stands for both the syntax and the range error. */
  function Atoi(s: string): (r: Option<int>)
    ensures r.Some? ==> MinInt64 <= r.value <= MaxInt64
    ensures r.Some? ==> s != [] && (IsDigit(s[0]) || s[0] == '+' || s[0] == '-')
    ensures r.Some? && s[0] == '-' ==> r.value <= 0
    ensures r.Some? && s[0] != '-' ==> r.value >= 0
  {
    if s == [] then None
    else
      var body := if s[0] == '+' || s[0] == '-' then s[1..] else s;
      if body == [] || !AllDigits(body) then None
      else
        var v: int := if s[0] == '-' then -(DecValue(body) as int) else DecValue(body);
        if v < MinInt64 || v > MaxInt64 then None else Some(v)
  }

  function DigitChar(d: nat): (c: char)
    requires d < 10
    ensures IsDigit(c) && c as int - '0' as int == d
  {
    (d + '0' as int) as char
  }

  /** The decimal digits of n, without leading zeros. */
  function Digits(n: nat): (s: string)
    ensures s != [] && AllDigits(s) && DecValue(s) == n
    ensures s[0] == '0' ==> n == 0
  {
    var last := [DigitChar(n % 10)];
    if n < 10 then last
    else
      var s := Digits(n / 10) + last;
      assert s[..|s| - 1] == Digits(n / 10);
      s
  }

  /** strconv.Itoa */
  function Itoa(n: int): (s: string)
    ensures s != []
  {
    if n < 0 then "-" + Digits(-n) else Digits(n)
  }

  /** Atoi reads back what Itoa writes, for every int64. */
  lemma AtoiItoa(n: int)
    requires MinInt64 <= n <= MaxInt64
    ensures Atoi(Itoa(n)) == Some(n)
  {
    if n < 0 {
      assert Itoa(n)[1..] == Digits(-n);
    }
  }

  /** ASCII lower-casing as strconv's `lower` does it for letters. */
  function LowerAscii(c: char): char {
    if 'A' <= c <= 'Z' then (c as int + 32) as char else c
  }

  /** A digit's value in bases up to 36; 36 for anything that is not a digit or letter. */
  function DigitValue36(c: char): (d: nat)
    ensures d <= 36
  {
    if IsDigit(c) then c as int - '0' as int
    else if 'a' <= LowerAscii(c) <= 'z' then LowerAscii(c) as int - 'a' as int + 10
    else 36
  }

  /** The base selected by the prefix when base 0 is requested, and where the digits start. */
  function BaseOf(s: string): (r: (nat, nat))
    requires s != []
    ensures 2 <= r.0 <= 16 && r.1 <= |s|
  {
    if s[0] != '0' then (10, 0)
    else if |s| >= 3 && LowerAscii(s[1]) == 'b' then (2, 2)
    else if |s| >= 3 && LowerAscii(s[1]) == 'o' then (8, 2)
    else if |s| >= 3 && LowerAscii(s[1]) == 'x' then (16, 2)
    else (8, 1)
  }

  /** The digits after dropping underscores. */
  function DropUnderscores(s: string): (r: string)
    ensures |r| <= |s|
    ensures forall i :: 0 <= i < |r| ==> r[i] != '_'
  {
    if s == [] then [] else (if s[0] == '_' then [] else [s[0]]) + DropUnderscores(s[1..])
  }

  function ValueIn(s: string, base: nat): nat
    requires forall i :: 0 <= i < |s| ==> DigitValue36(s[i]) < base
  {
    if s == [] then 0 else base * ValueIn(s[..|s| - 1], base) + DigitValue36(s[|s| - 1])
  }

  /** strconv's underscoreOK: underscores only separate digits (the base prefix counts as one). */
  function UnderscoreOK(s: string): bool {
    var t := if |s| >= 1 && (s[0] == '-' || s[0] == '+') then s[1..] else s;
    var prefixed := |t| >= 2 && t[0] == '0' && LowerAscii(t[1]) in "box";
    var hex := prefixed && LowerAscii(t[1]) == 'x';
    var start := if prefixed then 2 else 0;
    assert start <= |t|;
    UnderscoreScan(t, start, hex, if prefixed then '0' else '^')
  }

  /** The loop of underscoreOK from index i, with `saw` the class of the last character. */
  function UnderscoreScan(t: string, i: nat, hex: bool, saw: char): bool
    requires i <= |t|
    decreases |t| - i
  {
    if i == |t| then saw != '_'
    else if IsDigit(t[i]) || (hex && 'a' <= LowerAscii(t[i]) <= 'f') then UnderscoreScan(t, i + 1, hex, '0')
    else if t[i] == '_' then saw == '0' && UnderscoreScan(t, i + 1, hex, '_')
    else saw != '_' && UnderscoreScan(t, i + 1, hex, '!')
  }

  /** strconv.ParseUint(s, 0, 16): prefix-selected base, underscores allowed between digits, and
      the value must fit in 16 bits. None stands for the syntax and range errors. */
  function ParseUint16Base0(s: string): (r: Option<nat>)
    ensures r.Some? ==> r.value <= 0xFFFF
  {
    if s == [] then None
    else
      var (base, start) := BaseOf(s);
      var digits := DropUnderscores(s[start..]);
      if !(forall i :: 0 <= i < |digits| ==> DigitValue36(digits[i]) < base) then None
      else if ValueIn(digits, base) > 0xFFFF then None
      else if '_' in s && !UnderscoreOK(s) then None
      else Some(ValueIn(digits, base))
  }
}
