/** The pieces of Go's standard library that the controllers lean on for
    names and keys: `strings.Split` with a one-character separator,
    `fmt.Sprintf("%d", i)` and `strconv.ParseInt(s, 10, 64)`. */
module Text {
  import opened Wrappers

  const MaxInt64: int := 0x7fff_ffff_ffff_ffff
  const MinInt64: int := -0x8000_0000_0000_0000

  // ---------------------------------------------------------------------
  // strings.Split(s, string(sep))
  // ---------------------------------------------------------------------

  /** The position of the last occurrence of `c` in `s`. */
  function LastIndexOf(s: string, c: char): (i: nat)
    requires c in s
    ensures i < |s| && s[i] == c && c !in s[i + 1..]
    decreases |s|
  {
    if s[|s| - 1] == c then |s| - 1
    else
      assert s == s[..|s| - 1] + [s[|s| - 1]];
      var j := LastIndexOf(s[..|s| - 1], c);
      assert s[j + 1..] == s[..|s| - 1][j + 1..] + [s[|s| - 1]];
      j
  }

  /** `strings.Split(s, string(sep))`: the pieces between separators, in
      order; a string without the separator (the empty string included) is
      a single piece. Written from the last separator backwards, which gives
      the same pieces as scanning forwards. */
  function Split(s: string, sep: char): (parts: seq<string>)
    ensures |parts| >= 1
    decreases |s|
  {
    if sep !in s then [s]
    else
      var i := LastIndexOf(s, sep);
      Split(s[..i], sep) + [s[i + 1..]]
  }

  /** No piece of a split contains the separator. */
  lemma {:induction false} SplitPiecesLackSeparator(s: string, sep: char)
    ensures forall k | 0 <= k < |Split(s, sep)| :: sep !in Split(s, sep)[k]
    decreases |s|
  {
    if sep in s {
      var i := LastIndexOf(s, sep);
      SplitPiecesLackSeparator(s[..i], sep);
    }
  }

  /** A separator followed by separator-free text ends the split: that text
      is the last piece and everything before it splits on its own. */
  lemma SplitAtLastSeparator(a: string, sep: char, b: string)
    requires sep !in b
    ensures Split(a + [sep] + b, sep) == Split(a, sep) + [b]
  {
    var s := a + [sep] + b;
    assert s[|a|] == sep;
    var i := LastIndexOf(s, sep);
    assert s[|a| + 1..] == b;
    assert i == |a|;
    assert s[..i] == a;
  }

  /** `strings.Join(parts, string(sep))` for a non-empty list of pieces. */
  function Join(parts: seq<string>, sep: char): (s: string)
    requires |parts| >= 1
    ensures |s| >= |parts| - 1
    decreases |parts|
  {
    if |parts| == 1 then parts[0]
    else Join(parts[..|parts| - 1], sep) + [sep] + parts[|parts| - 1]
  }

  /** Joining the pieces of a split with the separator gives the string
      back: Split loses nothing but the separators. */
  lemma {:induction false} JoinSplit(s: string, sep: char)
    ensures Join(Split(s, sep), sep) == s
    decreases |s|
  {
    if sep in s {
      var i := LastIndexOf(s, sep);
      var front := Split(s[..i], sep);
      JoinSplit(s[..i], sep);
      assert (front + [s[i + 1..]])[..|front|] == front;
      assert s == s[..i] + [sep] + s[i + 1..];
    }
  }

  // ---------------------------------------------------------------------
  // Decimal notation
  // ---------------------------------------------------------------------

  predicate IsDigit(c: char)
  {
    '0' <= c <= '9'
  }

  predicate AllDigits(s: string)
  {
    forall k | 0 <= k < |s| :: IsDigit(s[k])
  }

  function DigitChar(d: nat): (c: char)
    requires d < 10
    ensures IsDigit(c) && (c as int) - ('0' as int) == d
  {
    ('0' as int + d) as char
  }

  function DigitValue(c: char): nat
    requires IsDigit(c)
  {
    (c as int) - ('0' as int)
  }

  /** `fmt.Sprintf("%d", n)` for a non-negative n: at least one digit and no
      sign. */
  function Decimal(n: nat): (s: string)
    ensures |s| >= 1 && AllDigits(s)
    decreases n
  {
    if n < 10 then [DigitChar(n)] else Decimal(n / 10) + [DigitChar(n % 10)]
  }

  /** `fmt.Sprintf("%d", i)` for any int: a leading '-' for negatives. */
  function Itoa(i: int): (s: string)
    ensures |s| >= 1
    ensures i >= 0 ==> s == Decimal(i)
    ensures i < 0 <==> s[0] == '-'
  {
    if i < 0 then "-" + Decimal(-i) else Decimal(i)
  }

  /** The number a string of decimal digits denotes. */
  function DigitsValue(s: string): nat
    requires AllDigits(s)
    decreases |s|
  {
    if s == [] then 0 else DigitsValue(s[..|s| - 1]) * 10 + DigitValue(s[|s| - 1])
  }

  /** Reading back the decimal notation of n gives n. */
  lemma {:induction false} DecimalValue(n: nat)
    ensures DigitsValue(Decimal(n)) == n
    decreases n
  {
    if n >= 10 {
      DecimalValue(n / 10);
      var s := Decimal(n);
      assert s[..|s| - 1] == Decimal(n / 10);
    }
  }

  /** Different non-negative numbers print differently. */
  lemma DecimalInjective(m: nat, n: nat)
    requires Decimal(m) == Decimal(n)
    ensures m == n
  {
    DecimalValue(m);
    DecimalValue(n);
  }

  /** Different numbers print differently, signed or not. */
  lemma ItoaInjective(i: int, j: int)
    requires Itoa(i) == Itoa(j)
    ensures i == j
  {
    if i < 0 && j < 0 {
      assert Itoa(i)[1..] == Decimal(-i);
      assert Itoa(j)[1..] == Decimal(-j);
      DecimalInjective(-i, -j);
    } else if i >= 0 && j >= 0 {
      DecimalInjective(i, j);
    }
  }

  // ---------------------------------------------------------------------
  // strconv.ParseInt(s, 10, 64)
  // ---------------------------------------------------------------------

  /** strconv reports a syntax or a range error; every caller in the model
      only tests for a non-nil error, so one failure value stands for both. */
  datatype NumError = ErrNumber

  /** `strconv.ParseInt(s, 10, 64)`: an optional '+' or '-', then one or more
      decimal digits, denoting a value that fits in an int64. */
  function ParseInt(s: string): (r: Result<int, NumError>)
    ensures r.Ok? ==> MinInt64 <= r.value <= MaxInt64
  {
    if s == [] then Err(ErrNumber)
    else
      var neg := s[0] == '-';
      var digits := if s[0] == '+' || s[0] == '-' then s[1..] else s;
      if digits == [] || !AllDigits(digits) then Err(ErrNumber)
      else
        var v: int := DigitsValue(digits);
        if !neg && v > MaxInt64 then Err(ErrNumber)
        else if neg && v > -MinInt64 then Err(ErrNumber)
        else Ok(if neg then -v else v)
  }

  /** ParseInt reads back every non-negative int64 that `%d` prints. */
  lemma ParseIntOfDecimal(n: nat)
    requires n <= MaxInt64
    ensures ParseInt(Decimal(n)) == Ok(n)
  {
    DecimalValue(n);
  }

  /** Without a '-' in the text, a parsed value is never negative. */
  lemma ParseIntWithoutMinus(s: string)
    requires '-' !in s && ParseInt(s).Ok?
    ensures ParseInt(s).value >= 0
  {
    assert s[0] in s;
  }
}
