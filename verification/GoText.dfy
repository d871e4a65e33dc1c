/** The parts of Go's strings and strconv packages that the sbatch text layer relies on. */
module GoText {
  import opened Options

  /** The text does not contain the character. */
  predicate Free(s: string, c: char) {
    forall i | 0 <= i < |s| :: s[i] != c
  }

  /** strings.IndexByte: the first position of `c`, or -1. */
  function IndexByte(s: string, c: char): (i: int)
    ensures -1 <= i < |s|
    ensures i >= 0 ==> s[i] == c && Free(s[..i], c)
    ensures i == -1 <==> Free(s, c)
  {
    if s == "" then -1
    else if s[0] == c then 0
    else
      var i := IndexByte(s[1..], c);
      assert s == [s[0]] + s[1..];
      if i == -1 then -1
      else
        assert s[..i + 1] == [s[0]] + s[1..][..i];
        i + 1
  }

  lemma {:induction false} IndexByteAt(s: string, c: char, i: nat)
    requires i < |s| && s[i] == c && Free(s[..i], c)
    ensures IndexByte(s, c) == i
  {
    if i > 0 {
      assert s[..i][0] == s[0];
      assert s[1..][..i - 1] == s[..i][1..];
      IndexByteAt(s[1..], c, i - 1);
    }
  }

  lemma IndexByteAfter(a: string, c: char, b: string)
    requires Free(a, c)
    ensures IndexByte(a + [c] + b, c) == |a|
    ensures (a + [c] + b)[..|a|] == a && (a + [c] + b)[|a| + 1..] == b
  {
    IndexByteAt(a + [c] + b, c, |a|);
  }

  /** strings.Split at a one-byte separator. */
  function Split(s: string, sep: char): (parts: seq<string>)
    ensures parts != []
    decreases |s|
  {
    var i := IndexByte(s, sep);
    if i == -1 then [s] else [s[..i]] + Split(s[i + 1..], sep)
  }

  lemma SplitCons(a: string, sep: char, b: string)
    requires Free(a, sep)
    ensures Split(a + [sep] + b, sep) == [a] + Split(b, sep)
  {
    IndexByteAfter(a, sep, b);
  }

  predicate IsSpace(c: char) {
    || c in {'\t', '\n', '\U{000B}', '\U{000C}', '\r', ' ', '\U{0085}', '\U{00A0}', '\U{1680}'}
    || '\U{2000}' <= c <= '\U{200A}'
    || c in {'\U{2028}', '\U{2029}', '\U{202F}', '\U{205F}', '\U{3000}'}
  }

  /** White space by number. Among the ASCII characters it is a tab, the four kinds of line ends, and a blank. */
  lemma SpacesByNumber(c: char)
    ensures var n := c as int;
            && (n < 128 ==> (IsSpace(c) <==> 9 <= n <= 13 || n == 32))
            && (n >= 128 ==>
                  (IsSpace(c) <==> n in {133, 160, 5760, 8232, 8233, 8239, 8287, 12288} || 8192 <= n <= 8202))
  {
  }

  predicate SpaceFree(s: string) {
    forall i | 0 <= i < |s| :: !IsSpace(s[i])
  }

  predicate StartsWithSpace(s: string) { s == "" || IsSpace(s[0]) }

  /** strings.Fields: the words between white space. */
  function Fields(s: string): (words: seq<string>)
    ensures !StartsWithSpace(s) ==> words != []
  {
    if s == "" then []
    else
      var words := Fields(s[1..]);
      if IsSpace(s[0]) then words
      else if StartsWithSpace(s[1..]) then [[s[0]]] + words
      else [[s[0]] + words[0]] + words[1..]
  }

  /** One more character in front of a text and its words. */
  function WithFirst(c: char, rest: string, words: seq<string>): seq<string>
    requires !StartsWithSpace(rest) ==> words != []
  {
    if IsSpace(c) then words
    else if StartsWithSpace(rest) then [[c]] + words
    else [[c] + words[0]] + words[1..]
  }

  lemma WithFirstOfBoth(c: char, rest: string, a: seq<string>, b: seq<string>)
    requires !StartsWithSpace(rest) ==> a != []
    ensures WithFirst(c, rest, a + b) == WithFirst(c, rest, a) + b
  {
    hide IsSpace, StartsWithSpace;
    if !StartsWithSpace(rest) {
      FirstWordOfBoth([c], a, b);
    }
  }

  /** Words do not run together over white space. */
  lemma {:induction false} FieldsAppend(a: string, b: string)
    requires StartsWithSpace(b)
    ensures Fields(a + b) == Fields(a) + Fields(b)
  {
    if a == "" {
      assert a + b == b;
    } else {
      hide IsSpace;
      var rest := a[1..];
      FieldsAppend(rest, b);
      assert (a + b)[1..] == rest + b && (a + b)[0] == a[0];
      assert StartsWithSpace(rest + b) == StartsWithSpace(rest);
      assert Fields(a) == WithFirst(a[0], rest, Fields(rest));
      assert Fields(a + b) == WithFirst(a[0], rest, Fields(rest + b));
      WithFirstOfBoth(a[0], rest, Fields(rest), Fields(b));
    }
  }

  lemma FirstWordOfBoth(c: string, a: seq<string>, b: seq<string>)
    requires a != []
    ensures [c + (a + b)[0]] + (a + b)[1..] == [c + a[0]] + a[1..] + b
  {
  }

  lemma {:induction false} FieldsWord(w: string)
    requires w != "" && SpaceFree(w)
    ensures Fields(w) == [w]
  {
    if |w| > 1 {
      FieldsWord(w[1..]);
      assert [w[0]] + w[1..] == w;
    } else {
      assert w == [w[0]];
      assert Fields(w[1..]) == [];
    }
  }

  lemma FieldsOfWord(w: string)
    requires w != "" && SpaceFree(w)
    ensures Fields(w) == [w] && Fields(" " + w) == [w]
  {
    FieldsWord(w);
    assert (" " + w)[1..] == w;
  }

  const INT64_MIN := -0x8000_0000_0000_0000
  const INT64_MAX := 0x7FFF_FFFF_FFFF_FFFF
  const TWO_TO_64 := 0x1_0000_0000_0000_0000

  predicate IsInt64(n: int) { INT64_MIN <= n <= INT64_MAX }

  /** 64-bit two's complement. */
  function Wrap64(n: int): (w: int)
    ensures IsInt64(w) && (IsInt64(n) <==> w == n)
  {
    (n - INT64_MIN) % TWO_TO_64 + INT64_MIN
  }

  lemma WrapUnique(n: int, w: int, k: int)
    requires IsInt64(w) && w == n + k * TWO_TO_64
    ensures w == Wrap64(n)
  {
    var q := (n - INT64_MIN) / TWO_TO_64;
    assert Wrap64(n) == n - q * TWO_TO_64;
    assert w - Wrap64(n) == (k + q) * TWO_TO_64;
  }

  /** Adding with wrap-around at every step is adding and wrapping once. */
  lemma WrapAdds(a: int, b: int)
    ensures Wrap64(Wrap64(a) + Wrap64(b)) == Wrap64(a + b)
  {
    var p := (a - INT64_MIN) / TWO_TO_64;
    var q := (b - INT64_MIN) / TWO_TO_64;
    var n := Wrap64(a) + Wrap64(b);
    var r := (n - INT64_MIN) / TWO_TO_64;
    WrapUnique(a + b, Wrap64(n), -p - q - r);
  }

  predicate IsDigit(c: char) { '0' <= c <= '9' }

  predicate AllDigits(s: string) {
    forall i | 0 <= i < |s| :: IsDigit(s[i])
  }

  function DigitValue(c: char): (d: nat)
    requires IsDigit(c)
    ensures d < 10
  {
    c as int - '0' as int
  }

  function Value(s: string): nat
    requires AllDigits(s)
  {
    if s == "" then 0 else 10 * Value(s[..|s| - 1]) + DigitValue(s[|s| - 1])
  }

  /** strconv.ParseInt with base 10 and 64 bits; None stands for its errors. */
  function ParseInt(s: string): (r: Option<int>)
    ensures r.Some? ==> IsInt64(r.value)
  {
    var signed := s != "" && (s[0] == '-' || s[0] == '+');
    var digits := if signed then s[1..] else s;
    if digits == "" || !AllDigits(digits) then None
    else
      var v: int := Value(digits);
      var n := if signed && s[0] == '-' then -v else v;
      if IsInt64(n) then Some(n) else None
  }

  function DigitOf(d: nat): (c: char)
    requires d < 10
    ensures IsDigit(c) && DigitValue(c) == d
  {
    ('0' as int + d) as char
  }

  /** %d of a number that is not negative. */
  function FormatNat(n: nat): (s: string)
    ensures s != "" && AllDigits(s)
  {
    if n < 10 then [DigitOf(n)] else FormatNat(n / 10) + [DigitOf(n % 10)]
  }

  function FormatInt(n: int): (s: string)
    ensures s != ""
  {
    if n < 0 then "-" + FormatNat(-n) else FormatNat(n)
  }

  lemma {:induction false} ValueOfFormat(n: nat)
    ensures Value(FormatNat(n)) == n
  {
    var s := FormatNat(n);
    if n < 10 {
      assert s[..|s| - 1] == "";
    } else {
      ValueOfFormat(n / 10);
      assert s[..|s| - 1] == FormatNat(n / 10);
    }
  }

  /** What is printed is read back. */
  lemma ParseOfFormat(n: int)
    requires IsInt64(n)
    ensures ParseInt(FormatInt(n)) == Some(n)
  {
    var s := FormatInt(n);
    if n < 0 {
      ValueOfFormat(-n);
      assert s[1..] == FormatNat(-n);
    } else {
      ValueOfFormat(n);
      assert IsDigit(s[0]);
    }
  }

  /** Numbers are printed with digits and at most a sign in front. */
  lemma FormatIsPlain(n: int)
    ensures SpaceFree(FormatInt(n)) && Free(FormatInt(n), ':') && Free(FormatInt(n), '=')
    ensures n >= 0 ==> Free(FormatInt(n), '-')
    ensures n < 0 ==> FormatInt(n)[0] == '-'
  {
    var s := FormatInt(n);
    forall i | 0 <= i < |s| ensures IsDigit(s[i]) || (n < 0 && s[i] == '-') {
      if n < 0 && i > 0 { assert s[i] == FormatNat(-n)[i - 1]; }
    }
  }

  /** Digits, with at most one sign in front, are a number if it fits 64 bits. */
  lemma ParseOfDigits(digits: string)
    requires digits != "" && AllDigits(digits)
    ensures ParseInt(digits) == if Value(digits) <= INT64_MAX then Some(Value(digits)) else None
    ensures ParseInt("+" + digits) == if Value(digits) <= INT64_MAX then Some(Value(digits)) else None
    ensures ParseInt("-" + digits) == var v: int := Value(digits); if -v >= INT64_MIN then Some(-v) else None
  {
    hide Value;
    assert ("+" + digits)[1..] == digits && ("-" + digits)[1..] == digits;
    assert IsDigit(digits[0]);
  }

  /** Nothing else is one. */
  lemma OnlyDigitsParse(s: string)
    requires ParseInt(s).Some?
    ensures s != "" && (AllDigits(s) || ((s[0] == '+' || s[0] == '-') && |s| > 1 && AllDigits(s[1..])))
  {
  }
}
