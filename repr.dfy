/** The scalar literal formatter (`ToSqlRepr`): how a value is written into SQL text. */
module Repr {
  import opened Errors

  /** The kinds of value that implement `ToSqlRepr`: the integer types (all as `int`), `bool`,
      text (`String` and `&str` alike) and `Option` of any of these. */
  datatype Value =
    | Int(i: int)
    | Bool(b: bool)
    | Text(s: string)
    | Opt(o: Option<Value>)

  predicate IsDigit(c: char)
  {
    '0' <= c <= '9'
  }

  predicate AllDigits(s: string)
  {
    forall k :: 0 <= k < |s| ==> IsDigit(s[k])
  }

  function DigitChar(d: nat): (c: char)
    requires d < 10
    ensures IsDigit(c) && c as int - '0' as int == d
  {
    ('0' as int + d) as char
  }

  /** Decimal text of a natural number, most significant digit first. */
  function NatToDecimal(n: nat): string
  {
    if n < 10 then [DigitChar(n)] else NatToDecimal(n / 10) + [DigitChar(n % 10)]
  }

  /** `format!("{}", n)` for an integer: a minus sign for negatives, then the decimal digits. */
  function IntToDecimal(i: int): string
  {
    if i < 0 then "-" + NatToDecimal(-i) else NatToDecimal(i)
  }

  /** The value of a string of decimal digits (the reading direction of `NatToDecimal`). */
  function ParseNat(s: string): nat
    requires AllDigits(s)
  {
    if |s| == 0 then 0
    else ParseNat(s[..|s| - 1]) * 10 + (s[|s| - 1] as int - '0' as int)
  }

  /** Text of the form `digits` or `-digits`, with at least one digit. */
  predicate IsDecimal(s: string)
  {
    if |s| > 0 && s[0] == '-' then |s| > 1 && AllDigits(s[1..]) else |s| > 0 && AllDigits(s)
  }

  function ParseInt(s: string): int
    requires IsDecimal(s)
  {
    if s[0] == '-' then -(ParseNat(s[1..]) as int) else ParseNat(s)
  }

  /** The decimal text of `n` is canonical (digits only, no leading zero) and reads back as `n`. */
  lemma {:induction false} NatToDecimalRoundTrip(n: nat)
    ensures |NatToDecimal(n)| > 0 && AllDigits(NatToDecimal(n))
    ensures NatToDecimal(n)[0] == '0' ==> n == 0
    ensures ParseNat(NatToDecimal(n)) == n
  {
    if n >= 10 {
      NatToDecimalRoundTrip(n / 10);
      var s := NatToDecimal(n / 10);
      var t := s + [DigitChar(n % 10)];
      assert t[..|t| - 1] == s;
    }
  }

  /** Integers render as decimal text that reads back as the same integer. */
  lemma IntToDecimalRoundTrip(i: int)
    ensures IsDecimal(IntToDecimal(i))
    ensures ParseInt(IntToDecimal(i)) == i
  {
    if i < 0 {
      NatToDecimalRoundTrip(-i);
      assert ("-" + NatToDecimal(-i))[1..] == NatToDecimal(-i);
    } else {
      NatToDecimalRoundTrip(i);
    }
  }

  /** `v.to_sql_repr()`. */
  function ToSqlRepr(v: Value): (r: string)
    ensures v.Int? ==> IsDecimal(r) && ParseInt(r) == v.i
    ensures v.Bool? ==> r == (if v.b then "TRUE" else "FALSE")
    ensures v.Text? ==> |r| == |v.s| + 2 && r[0] == '\'' && r[|r| - 1] == '\'' && r[1..|r| - 1] == v.s
    ensures v == Opt(None) ==> r == "NULL"
    ensures v.Opt? && v.o.Some? ==> r == ToSqlRepr(v.o.value)
    ensures |r| > 0
  {
    match v
    case Int(i) => IntToDecimalRoundTrip(i); IntToDecimal(i)
    case Bool(b) => if b then "TRUE" else "FALSE"
    case Text(s) => "'" + s + "'"
    case Opt(None) => "NULL"
    case Opt(Some(x)) => ToSqlRepr(x)
  }

  /** `v` wrapped in `k` layers of `Some`. */
  function WrapSome(v: Value, k: nat): Value
  {
    if k == 0 then v else Opt(Some(WrapSome(v, k - 1)))
  }

  /** However deeply a value is wrapped in `Some`, it renders exactly as the bare value. */
  lemma {:induction false} WrapSomeTransparent(v: Value, k: nat)
    ensures ToSqlRepr(WrapSome(v, k)) == ToSqlRepr(v)
  {
    if k > 0 {
      WrapSomeTransparent(v, k - 1);
    }
  }
}
