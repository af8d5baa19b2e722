/**
 * `strconv.Atoi` on a 64-bit platform, specified by its result: an optional
 * `+` or `-` followed by one or more ASCII digits whose value fits in an
 * `int`; and `strconv.Itoa`, its inverse on that range.
 */
module GoStrconv {
  import opened GoArith
  import opened Results

  /** The two errors `strconv` reports: malformed text, or a value out of range. */
  datatype NumError = ErrSyntax | ErrRange

  predicate IsDigit(c: char) {
    '0' <= c <= '9'
  }

  predicate AllDigits(s: string) {
    forall i :: 0 <= i < |s| ==> IsDigit(s[i])
  }

  /** The value of a string of decimal digits, most significant first. */
  function DigitsValue(s: string): nat
    requires AllDigits(s)
    decreases |s|
  {
    if s == [] then 0
    else DigitsValue(s[..|s| - 1]) * 10 + (s[|s| - 1] as int - '0' as int)
  }

  /** The syntax `strconv.Atoi` accepts: an optional `+` or `-`, then one or more ASCII digits. */
  predicate SignedDigits(s: string) {
    && |s| >= 1
    && (s[0] == '+' || s[0] == '-' || IsDigit(s[0]))
    && (forall i :: 1 <= i < |s| ==> IsDigit(s[i]))
    && IsDigit(s[|s| - 1])
  }

  /**
   * `strconv.Atoi(s)`. It refuses as a syntax error exactly the strings that
   * are not an optional sign followed by at least one digit; whatever it
   * accepts is the signed value of those digits, a 64-bit integer.
   */
  function Atoi(s: string): (r: Result<int, NumError>)
    ensures r.Ok? ==> MinInt64 <= r.value <= MaxInt64
    ensures r.Ok? ==> |s| >= 1 && (s[0] == '+' || s[0] == '-' || IsDigit(s[0]))
    ensures r.Ok? ==> forall i :: 1 <= i < |s| ==> IsDigit(s[i])
    ensures r.Ok? ==> IsDigit(s[|s| - 1])
    ensures r == Err(ErrSyntax) <==> !SignedDigits(s)
    ensures r.Ok? && IsDigit(s[0]) ==> AllDigits(s) && r.value == DigitsValue(s)
    ensures r.Ok? && s[0] == '+' ==> AllDigits(s[1..]) && r.value == DigitsValue(s[1..])
    ensures r.Ok? && s[0] == '-' ==> AllDigits(s[1..]) && r.value == -(DigitsValue(s[1..]) as int)
  {
    var signed := |s| > 0 && (s[0] == '+' || s[0] == '-');
    var digits := if signed then s[1..] else s;
    if digits == [] || !AllDigits(digits) then
      Err(ErrSyntax)
    else
      var magnitude: int := DigitsValue(digits);
      var v := if signed && s[0] == '-' then -magnitude else magnitude;
      if v < MinInt64 || MaxInt64 < v then Err(ErrRange) else Ok(v)
  }

  /**
   * Every optional sign followed by one or more digits is read as the signed
   * value of the digits when that fits in 64 bits, and refused as out of
   * range otherwise; leading zeros and a `+` sign change nothing.
   */
  lemma AtoiSignedDigits(sign: string, t: string)
    requires sign == "" || sign == "+" || sign == "-"
    requires |t| >= 1 && AllDigits(t)
    ensures sign != "-" ==>
      Atoi(sign + t) == if DigitsValue(t) <= MaxInt64 then Ok(DigitsValue(t)) else Err(ErrRange)
    ensures sign == "-" ==>
      Atoi(sign + t) == if MinInt64 <= -(DigitsValue(t) as int) then Ok(-(DigitsValue(t) as int)) else Err(ErrRange)
  {
    if sign != "" {
      assert (sign + t)[1..] == t;
    } else {
      assert sign + t == t;
    }
  }

  /** The decimal digits of `n`, with no leading zero. */
  function Digits(n: nat): (s: string)
    ensures |s| >= 1 && AllDigits(s)
    ensures s[0] == '0' ==> n == 0
    decreases n
  {
    var last := ['0' + ((n % 10) as char)];
    if n < 10 then last else Digits(n / 10) + last
  }

  /** `strconv.Itoa(n)`: a `-` for a negative `n`, then the digits of its magnitude. */
  function FormatInt(n: int): string {
    if n < 0 then "-" + Digits(-n) else Digits(n)
  }

  /** Reading back the digits of `n` gives `n`. */
  lemma {:induction false} DigitsValueOfDigits(n: nat)
    ensures DigitsValue(Digits(n)) == n
    decreases n
  {
    var s := Digits(n);
    if n >= 10 {
      DigitsValueOfDigits(n / 10);
      assert s[..|s| - 1] == Digits(n / 10);
    }
  }

  /** `Atoi` accepts every 64-bit integer as `Itoa` formats it and gives back that integer. */
  lemma AtoiFormatInt(n: int)
    requires MinInt64 <= n <= MaxInt64
    ensures Atoi(FormatInt(n)) == Ok(n)
  {
    DigitsValueOfDigits(Abs(n));
    if n < 0 {
      assert FormatInt(n)[1..] == Digits(-n);
    }
  }
}
