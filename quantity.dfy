/** Kubernetes quantity strings as the analysers read them: the `parseFloat`
    prefix reader, the `<digits><unit>` match with binary multipliers, and the two
    parsers built from them (`parseResourceValue` of src/health.js and
    src/resource.js, `parseStorageCapacity` of src/storage.js). */
module Quantity {
  import opened Js

  /** A JS number: finite (as an exact rational) or NaN. */
  datatype Number = Finite(v: real) | NotANumber

  /** `a + b` on JS numbers: NaN absorbs. */
  function Add(a: Number, b: Number): Number {
    if a.NotANumber? || b.NotANumber? then NotANumber else Finite(a.v + b.v)
  }

  function Pow10(k: nat): (r: nat)
    ensures r >= 1
  {
    if k == 0 then 1 else 10 * Pow10(k - 1)
  }

  function Pow1024(k: nat): (r: nat)
    ensures r >= 1
  {
    if k == 0 then 1 else 1024 * Pow1024(k - 1)
  }

  /** Length of the longest all-digit prefix of `s`. */
  function DigitRun(s: string): (n: nat)
    ensures n <= |s| && AllDigits(s[..n])
    ensures n < |s| ==> !IsDigit(s[n])
    decreases |s|
  {
    if |s| == 0 || !IsDigit(s[0]) then 0
    else
      var n := 1 + DigitRun(s[1..]);
      assert s[..n] == [s[0]] + s[1..][..n - 1];
      n
  }

  lemma {:induction false} DigitRunOfDigits(d: string, rest: string)
    requires AllDigits(d)
    requires |rest| == 0 || !IsDigit(rest[0])
    ensures DigitRun(d + rest) == |d|
    decreases |d|
  {
    if |d| > 0 {
      assert (d + rest)[1..] == d[1..] + rest;
      DigitRunOfDigits(d[1..], rest);
    }
  }

  /** `parseFloat(s)` for the decimal forms: an optional sign, digits, and an optional
      fraction after a point; whatever follows the longest such prefix is ignored, and
      NaN comes back when there is no digit. */
  function ParseFloat(s: string): Number {
    var signed := |s| > 0 && (s[0] == '-' || s[0] == '+');
    var body := if signed then s[1..] else s;
    var n := DigitRun(body);
    var frac := if n < |body| && body[n] == '.' then body[n + 1..][..DigitRun(body[n + 1..])] else "";
    if n == 0 && |frac| == 0 then NotANumber
    else
      var magnitude := DigitsValue(body[..n]) as real + DigitsValue(frac) as real / Pow10(|frac|) as real;
      Finite(if |s| > 0 && s[0] == '-' then -magnitude else magnitude)
  }

  /** A run of digits followed by anything that is neither a digit nor a point reads
      as the integer the digits spell. */
  lemma {:induction false} ParseFloatDigits(d: string, rest: string)
    requires |d| > 0 && AllDigits(d)
    requires |rest| == 0 || (!IsDigit(rest[0]) && rest[0] != '.')
    ensures ParseFloat(d + rest) == Finite(DigitsValue(d) as real)
  {
    var s := d + rest;
    assert s[0] == d[0] && IsDigit(d[0]);
    DigitRunOfDigits(d, rest);
    assert DigitRun(s) == |d|;
    assert s[..|d|] == d;
    assert |d| < |s| ==> s[|d|] == rest[0];
    assert DigitsValue("") == 0;
  }

  /** The power of 1024 a unit suffix stands for: K/Ki 1, M/Mi 2, G/Gi 3, T/Ti 4, P/Pi 5. */
  function UnitPower(u: string): Option<nat> {
    if u == "K" || u == "Ki" then Some(1)
    else if u == "M" || u == "Mi" then Some(2)
    else if u == "G" || u == "Gi" then Some(3)
    else if u == "T" || u == "Ti" then Some(4)
    else if u == "P" || u == "Pi" then Some(5)
    else None
  }

  /** `s` is one or more digits `d` followed by a unit `u` of power at most `maxPower`. */
  predicate IsQuantity(s: string, d: string, u: string, maxPower: nat) {
    s == d + u && |d| > 0 && AllDigits(d) && UnitPower(u).Some? && UnitPower(u).value <= maxPower
  }

  /** `s.match(/^(\d+)([KMGT…]i?)$/)`, the letters being those of power at most
      `maxPower`: the digits and the unit's power. */
  function UnitMatch(s: string, maxPower: nat): Option<(string, nat)> {
    var unitLength := if |s| >= 2 && s[|s| - 1] == 'i' then 2 else 1;
    if |s| <= unitLength then None
    else
      var d := s[..|s| - unitLength];
      var u := s[|s| - unitLength..];
      if AllDigits(d) && UnitPower(u).Some? && UnitPower(u).value <= maxPower then Some((d, UnitPower(u).value))
      else None
  }

  /** The match succeeds exactly on `<digits><unit>`, and then yields those digits and
      the unit's power. */
  lemma {:induction false} UnitMatchLaws(s: string, d: string, u: string, maxPower: nat)
    ensures UnitMatch(s, maxPower).Some? ==>
      IsQuantity(s, UnitMatch(s, maxPower).value.0, s[|UnitMatch(s, maxPower).value.0|..], maxPower) &&
      UnitPower(s[|UnitMatch(s, maxPower).value.0|..]) == Some(UnitMatch(s, maxPower).value.1)
    ensures IsQuantity(s, d, u, maxPower) ==> UnitMatch(s, maxPower) == Some((d, UnitPower(u).value))
  {
    if UnitMatch(s, maxPower).Some? {
      var unitLength := if |s| >= 2 && s[|s| - 1] == 'i' then 2 else 1;
      assert s == s[..|s| - unitLength] + s[|s| - unitLength..];
    }
    if IsQuantity(s, d, u, maxPower) {
      assert s[..|d|] == d && s[|d|..] == u;
      assert |u| == 2 <==> s[|s| - 1] == 'i';
    }
  }

  /** `parseResourceValue(value)`: 0 for a non-string; `parseFloat(value) / 1000` for a
      value ending in `m`; digits times 1024^k for `<digits><K…Pi>`; otherwise
      `parseFloat(value)`, with NaN read as 0. Only the milli branch can yield NaN. */
  function ParseResourceValue(value: JsVal): Number {
    if !value.Str? then Finite(0.0)
    else
      var s := value.s;
      if EndsWith(s, "m") then
        (match ParseFloat(s)
         case Finite(x) => Finite(x / 1000.0)
         case NotANumber => NotANumber)
      else
        var m := UnitMatch(s, 5);
        if m.Some? then Finite((DigitsValue(m.value.0) * Pow1024(m.value.1)) as real)
        else
          var parsed := ParseFloat(s);
          if parsed.NotANumber? then Finite(0.0) else parsed
  }

  /** Non-strings read as 0, and only a value ending in `m` can read as NaN. */
  lemma {:induction false} ParseResourceValueLaws(value: JsVal)
    ensures !value.Str? ==> ParseResourceValue(value) == Finite(0.0)
    ensures value.Str? && !EndsWith(value.s, "m") ==> ParseResourceValue(value).Finite?
  {
  }

  /** `<digits>m` is a thousandth of the digits' value (millicores). */
  lemma {:induction false} ParseMilli(d: string)
    requires |d| > 0 && AllDigits(d)
    ensures ParseResourceValue(Str(d + "m")) == Finite(DigitsValue(d) as real / 1000.0)
  {
    ParseFloatDigits(d, "m");
    var s := d + "m";
    assert EndsWith(s, "m") by { assert s[|s| - 1..] == "m"; }
  }

  /** A bare run of digits is its integer value. */
  lemma {:induction false} ParsePlain(d: string)
    requires |d| > 0 && AllDigits(d)
    ensures ParseResourceValue(Str(d)) == Finite(DigitsValue(d) as real)
  {
    ParseFloatDigits(d, "");
    assert d + "" == d;
    assert IsDigit(d[|d| - 1]);
    assert !EndsWith(d, "m");
  }

  /** `<digits><unit>` with a unit K…Pi is the digits' value times 1024^k. */
  lemma {:induction false} ParseWithUnit(d: string, u: string)
    requires IsQuantity(d + u, d, u, 5)
    ensures ParseResourceValue(Str(d + u)) == Finite((DigitsValue(d) * Pow1024(UnitPower(u).value)) as real)
  {
    UnitMatchLaws(d + u, d, u, 5);
    var s := d + u;
    assert s[|s| - 1] == u[|u| - 1];
    assert !EndsWith(s, "m");
  }

  /** `parseStorageCapacity(capacityStr)`: `<digits><K…Ti>` gives the digits times
      1024^k (the SI letters count as binary ones), anything else 0. */
  function ParseStorageCapacity(s: string): nat {
    var m := UnitMatch(s, 4);
    if m.None? then 0 else DigitsValue(m.value.0) * Pow1024(m.value.1)
  }

  /** The storage parser accepts exactly `<digits><K…Ti>`: its value then is the digits'
      value times 1024^k, and any string it gives a non-zero value is of that form. */
  lemma {:induction false} ParseStorageCapacityLaws(s: string, d: string, u: string)
    ensures IsQuantity(s, d, u, 4) ==> ParseStorageCapacity(s) == DigitsValue(d) * Pow1024(UnitPower(u).value)
    ensures ParseStorageCapacity(s) != 0 ==> exists d', u' :: IsQuantity(s, d', u', 4)
  {
    UnitMatchLaws(s, d, u, 4);
    if UnitMatch(s, 4).Some? {
      var e := UnitMatch(s, 4).value.0;
      assert IsQuantity(s, e, s[|e|..], 4);
    }
  }

  /** Peta units, which the resource parser knows, are not storage quantities. */
  lemma {:induction false} StorageRejectsPeta(d: string, u: string)
    requires UnitPower(u) == Some(5)
    ensures ParseStorageCapacity(d + u) == 0
  {
    var s := d + u;
    assert s[|s| - 1] == u[|u| - 1];
    assert s[|s| - |u|..] == u;
  }

  /** Neither are bare numbers. */
  lemma {:induction false} StorageRejectsBareNumbers(d: string)
    requires AllDigits(d)
    ensures ParseStorageCapacity(d) == 0
  {
    if |d| > 0 {
      assert IsDigit(d[|d| - 1]);
      var unitLength := if |d| >= 2 && d[|d| - 1] == 'i' then 2 else 1;
      if |d| > unitLength {
        assert d[|d| - unitLength..] == [d[|d| - 1]];
      }
    }
  }

  /** Nor lower-case units or fractions. */
  lemma {:induction false} StorageRejectsOtherForms()
    ensures ParseStorageCapacity("10gi") == 0
    ensures ParseStorageCapacity("1.5Gi") == 0
  {
    assert "10gi"[2..] == "gi";
    assert "1.5Gi"[..3] == "1.5" && !IsDigit("1.5"[1]);
  }
}
