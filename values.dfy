/** Python values as the runtime estimator meets them, and Python's str() on them. */
module Values {

  /** A value of a hyperparameter range, of an estimator's get_params(), or of a data-frame cell. */
  datatype Value = IntV(i: int) | StrV(s: string) | BoolV(b: bool) | RealV(r: real) | NoneV

  /** Python's `v == -1`: an int or a float equal to minus one (a bool never is). */
  predicate IsMinusOne(v: Value) {
    v == IntV(-1) || v == RealV(-1.0)
  }

  /** The values pandas stores in a numeric (int, bool or float) column. */
  predicate IsNumeric(v: Value) {
    v.IntV? || v.BoolV? || v.RealV?
  }

  /** The number a numeric cell contributes to an arithmetic expression (True is 1). */
  function AsReal(v: Value): real {
    match v
    case IntV(i) => i as real
    case BoolV(b) => if b then 1.0 else 0.0
    case RealV(r) => r
    case _ => 0.0  // object cells never reach arithmetic, see Encoding.ReconciledIsNumeric
  }

  function DigitChar(d: nat): (c: char)
    requires d < 10
    ensures '0' <= c <= '9' && (c as int) - ('0' as int) == d
  {
    (('0' as int) + d) as char
  }

  predicate IsDigits(s: string) {
    forall i :: 0 <= i < |s| ==> '0' <= s[i] <= '9'
  }

  /** Decimal digits of n, most significant first, as Python's str() writes a non-negative int. */
  function NatToString(n: nat): (s: string)
    ensures |s| > 0 && IsDigits(s)
  {
    if n < 10 then [DigitChar(n)] else NatToString(n / 10) + [DigitChar(n % 10)]
  }

  /** Reads a string of decimal digits back as a number (the inverse of NatToString). */
  function ParseDigits(s: string): nat
    requires IsDigits(s)
  {
    if s == [] then 0
    else
      var init := s[..|s| - 1];
      assert forall i :: 0 <= i < |init| ==> init[i] == s[i];
      ParseDigits(init) * 10 + ((s[|s| - 1] as int) - ('0' as int))
  }

  lemma {:induction false} NatToStringRoundTrip(n: nat)
    ensures ParseDigits(NatToString(n)) == n
  {
    if n >= 10 {
      var s := NatToString(n / 10);
      var t := s + [DigitChar(n % 10)];
      assert t[..|t| - 1] == s;
      NatToStringRoundTrip(n / 10);
    }
  }

  /** Python's str() of an int. */
  function IntToString(i: int): (s: string)
    ensures |s| > 0
  {
    if i < 0 then "-" + NatToString(-i) else NatToString(i)
  }

  /** Reads back what IntToString writes; other strings read as 0. */
  function ParseInt(s: string): int {
    if |s| > 0 && s[0] == '-' && IsDigits(s[1..]) then -(ParseDigits(s[1..]) as int)
    else if IsDigits(s) then ParseDigits(s)
    else 0
  }

  lemma IntToStringRoundTrip(i: int)
    ensures ParseInt(IntToString(i)) == i
  {
    if i < 0 {
      assert IntToString(i)[1..] == NatToString(-i);
      NatToStringRoundTrip(-i);
    } else {
      NatToStringRoundTrip(i);
    }
  }

  /** Distinct ints are written differently, so distinct int categories get distinct dummy columns. */
  lemma IntToStringInjective(a: int, b: int)
    ensures IntToString(a) == IntToString(b) ==> a == b
  {
    IntToStringRoundTrip(a);
    IntToStringRoundTrip(b);
  }

  /** Up to k decimal digits of a fraction 0 <= f < 1, without trailing zeros. */
  function FractionDigits(f: real, k: nat): (s: string)
    requires 0.0 <= f < 1.0
    ensures IsDigits(s)
    decreases k
  {
    if k == 0 || f == 0.0 then ""
    else
      var t := f * 10.0;
      var d := t.Floor;
      [DigitChar(d)] + FractionDigits(t - d as real, k - 1)
  }

  /** str() of a non-negative float: integral part, a point, and at least one fractional digit. */
  function UnsignedRealToString(r: real): (s: string)
    requires r >= 0.0
    ensures '.' in s
  {
    var whole := r.Floor;
    var fraction := r - whole as real;
    var s := NatToString(whole) + "." + (if fraction == 0.0 then "0" else FractionDigits(fraction, 16));
    assert s[|NatToString(whole)|] == '.';
    s
  }

  /** Python's str() of a float, for values written in fixed-point notation. */
  function RealToString(r: real): (s: string)
    ensures '.' in s
  {
    if r < 0.0 then
      var u := UnsignedRealToString(-r);
      assert forall c :: c in u ==> c in "-" + u;
      "-" + u
    else UnsignedRealToString(r)
  }

  /** Python's str() of a value, as used to name a dummy column. */
  function Show(v: Value): string {
    match v
    case IntV(i) => IntToString(i)
    case StrV(s) => s
    case BoolV(b) => if b then "True" else "False"
    case RealV(r) => RealToString(r)
    case NoneV => "None"
  }

  /** An int category and a float category never share a dummy column: str(10) is not str(10.0). */
  lemma ShowSeparatesIntFromFloat(i: int, r: real)
    ensures Show(IntV(i)) != Show(RealV(r))
  {
    var s := IntToString(i);
    assert forall k :: 0 <= k < |s| ==> s[k] != '.' by {
      if i < 0 {
        assert forall k :: 1 <= k < |s| ==> s[k] == NatToString(-i)[k - 1];
      }
    }
  }

  /** Distinct int categories of a dummy field give distinct dummy column names. */
  lemma ShowIntInjective(a: int, b: int)
    requires a != b
    ensures Show(IntV(a)) != Show(IntV(b))
  {
    IntToStringInjective(a, b);
  }
}

/** The error kinds the modelled operations raise (Python exceptions). */
module Outcomes {

  datatype Error =
    | MissingParameter(name: string)      // KeyError on get_params()[name]
    | CoefficientIndex(index: nat)        // IndexError on coefs[index]
    | ColumnCount(passed: nat, had: nat)  // ValueError of the DataFrame constructor

  datatype Result<T> = Ok(value: T) | Err(error: Error)

  datatype Option<T> = None | Some(value: T)
}

/** Python's dict(zip(keys, values)). */
module Dicts {
  import opened Values

  function Min(a: nat, b: nat): nat {
    if a <= b then a else b
  }

  /** Pairs keys with values up to the shorter of the two; a later duplicate key overrides an earlier one. */
  function ZipDict(keys: seq<string>, vals: seq<Value>): (d: map<string, Value>)
    ensures d.Keys == set i | 0 <= i < Min(|keys|, |vals|) :: keys[i]
  {
    if keys == [] || vals == [] then map[]
    else
      var rest := ZipDict(keys[1..], vals[1..]);
      assert rest.Keys == set i | 1 <= i < Min(|keys|, |vals|) :: keys[i] by {
        forall x | x in rest.Keys ensures x in set i | 1 <= i < Min(|keys|, |vals|) :: keys[i] {
          var j :| 0 <= j < Min(|keys| - 1, |vals| - 1) && keys[1..][j] == x;
          assert keys[j + 1] == x;
        }
        forall i | 1 <= i < Min(|keys|, |vals|) ensures keys[i] in rest.Keys {
          assert keys[1..][i - 1] == keys[i];
        }
      }
      map[keys[0] := vals[0]] + rest
  }

  /** A key that does not occur again later in the zipped prefix maps to its own value. */
  lemma {:induction false} ZipDictAt(keys: seq<string>, vals: seq<Value>, i: nat)
    requires i < Min(|keys|, |vals|)
    requires forall j :: i < j < Min(|keys|, |vals|) ==> keys[j] != keys[i]
    ensures keys[i] in ZipDict(keys, vals) && ZipDict(keys, vals)[keys[i]] == vals[i]
  {
    if i > 0 {
      assert forall j :: i - 1 < j < Min(|keys| - 1, |vals| - 1) ==> keys[1..][j] == keys[j + 1];
      ZipDictAt(keys[1..], vals[1..], i - 1);
    } else {
      var rest := ZipDict(keys[1..], vals[1..]);
      assert keys[0] !in rest.Keys by {
        forall j | 1 <= j < Min(|keys|, |vals|) ensures keys[j] != keys[0] { }
      }
    }
  }
}
