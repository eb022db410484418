/** Small shared vocabulary: optional values, results carrying an error text,
    and the decimal rendering Python's f-strings apply to integers. */
module Base {

  datatype Option<+T> = None | Some(value: T)

  /** The outcome of an operation that may raise; `Err` carries the text that
      `str(e)` gives for the exception raised. */
  datatype Result<+T> = Ok(value: T) | Err(message: string) {
    predicate IsFailure() { Err? }

    function PropagateFailure<U>(): Result<U>
      requires Err?
    {
      Err(message)
    }

    function Extract(): T
      requires Ok?
    {
      value
    }
  }

  predicate IsDigit(c: char) { '0' <= c <= '9' }

  function DigitChar(d: nat): (c: char)
    requires d < 10
    ensures IsDigit(c) && c as int - '0' as int == d
  {
    ['0', '1', '2', '3', '4', '5', '6', '7', '8', '9'][d]
  }

  /** The decimal text of `n`, as `f"{n}"` prints it. */
  function NatToString(n: nat): (s: string)
    ensures |s| >= 1
    ensures forall i :: 0 <= i < |s| ==> IsDigit(s[i])
    ensures n >= 10 ==> s[0] != '0'
    decreases n
  {
    if n < 10 then [DigitChar(n)] else NatToString(n / 10) + [DigitChar(n % 10)]
  }

  /** Reads a string of decimal digits back as a number. */
  function DigitsValue(s: string): nat
    requires forall i :: 0 <= i < |s| ==> IsDigit(s[i])
  {
    if s == [] then 0
    else
      assert IsDigit(s[|s| - 1]);
      DigitsValue(s[..|s| - 1]) * 10 + (s[|s| - 1] as int - '0' as int)
  }

  /** The decimal rendering loses nothing: reading it back gives the number. */
  lemma {:induction false} NatToStringRoundTrip(n: nat)
    ensures DigitsValue(NatToString(n)) == n
    decreases n
  {
    if n >= 10 {
      var s := NatToString(n);
      assert s[..|s| - 1] == NatToString(n / 10);
      NatToStringRoundTrip(n / 10);
    }
  }

  /** A digit string that does not start with `0` stands for a positive number. */
  lemma {:induction false} DigitsValuePositive(s: string)
    requires |s| >= 1 && s[0] != '0'
    requires forall i :: 0 <= i < |s| ==> IsDigit(s[i])
    ensures DigitsValue(s) >= 1
    decreases |s|
  {
    if |s| > 1 {
      DigitsValuePositive(s[..|s| - 1]);
    }
  }

  /** Every digit string without leading zeros is the decimal text of the
      number it stands for. */
  lemma {:induction false} DigitsRoundTrip(s: string)
    requires |s| >= 1 && (|s| > 1 ==> s[0] != '0')
    requires forall i :: 0 <= i < |s| ==> IsDigit(s[i])
    ensures NatToString(DigitsValue(s)) == s
    decreases |s|
  {
    var v := DigitsValue(s);
    if |s| == 1 {
      var e := s[..|s| - 1];
      assert e == [];
      assert DigitsValue(e) == 0;
      assert v == s[0] as int - '0' as int;
      assert DigitChar(v) == s[0];
      assert s == [s[0]];
    } else {
      var lead := s[..|s| - 1];
      DigitsValuePositive(lead);
      DigitsRoundTrip(lead);
      var d := s[|s| - 1] as int - '0' as int;
      assert v == DigitsValue(lead) * 10 + d && 0 <= d < 10;
      assert v / 10 == DigitsValue(lead) && v % 10 == d;
      assert DigitChar(d) == s[|s| - 1];
      assert s == lead + [s[|s| - 1]];
    }
  }

  /** `s` starts with `prefix`. */
  predicate StartsWith(s: string, prefix: string) {
    |prefix| <= |s| && s[..|prefix|] == prefix
  }

  /** The rest of `s` after `prefix`, when `s` starts with it. */
  function StripPrefix(prefix: string, s: string): (r: Option<string>)
    ensures r.Some? <==> StartsWith(s, prefix)
    ensures r.Some? ==> s == prefix + r.value
  {
    if StartsWith(s, prefix) then Some(s[|prefix|..]) else None
  }

  lemma StripPrefixOfConcat(prefix: string, rest: string)
    ensures StripPrefix(prefix, prefix + rest) == Some(rest)
  {
    assert (prefix + rest)[..|prefix|] == prefix;
    assert (prefix + rest)[|prefix|..] == rest;
  }
}
