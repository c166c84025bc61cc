/** Store-assigned document identifiers and their text form, the string that
    `doc._id + ''` yields and that callers pass back as an `id` argument. */
module ObjectIds {
  import opened Js

  datatype ObjectId = ObjectId(n: nat)

  predicate IsDigit(c: char)
  {
    '0' <= c <= '9'
  }

  predicate AllDigits(s: string)
  {
    forall i :: 0 <= i < |s| ==> IsDigit(s[i])
  }

  /** The text form of an identifier: decimal digits without a leading zero. */
  predicate Canonical(s: string)
  {
    |s| >= 1 && AllDigits(s) && (s[0] == '0' ==> |s| == 1)
  }

  function DigitChar(d: nat): (c: char)
    requires d < 10
    ensures IsDigit(c)
  {
    ('0' as int + d) as char
  }

  function DigitValue(c: char): (d: nat)
    requires IsDigit(c)
    ensures d < 10
  {
    c as int - '0' as int
  }

  /** The decimal digits of `n`; only 0 is written with a leading '0'. */
  function Decimal(n: nat): (s: string)
    ensures Canonical(s)
    ensures s[0] == '0' <==> n == 0
    decreases n
  {
    if n < 10 then [DigitChar(n)] else Decimal(n / 10) + [DigitChar(n % 10)]
  }

  /** The number a string of decimal digits denotes. */
  function DigitsValue(s: string): nat
    requires AllDigits(s)
    decreases |s|
  {
    if s == [] then 0 else DigitsValue(s[..|s| - 1]) * 10 + DigitValue(s[|s| - 1])
  }

  /** `doc._id + ''`: the text form of an identifier. */
  function IdToString(id: ObjectId): (s: string)
    ensures Canonical(s)
  {
    Decimal(id.n)
  }

  /** The store's cast of a text argument to an identifier; anything that is
      not the text form of an identifier fails to cast. */
  function ParseId(s: string): (r: Option<ObjectId>)
    ensures r.Some? <==> Canonical(s)
  {
    if Canonical(s) then Some(ObjectId(DigitsValue(s))) else None
  }

  lemma {:induction false} DecimalValue(n: nat)
    ensures DigitsValue(Decimal(n)) == n
    decreases n
  {
    if n >= 10 {
      var s := Decimal(n);
      assert s[..|s| - 1] == Decimal(n / 10);
      DecimalValue(n / 10);
    }
  }

  lemma DivModTen(a: nat, d: nat)
    requires d < 10
    ensures (a * 10 + d) / 10 == a && (a * 10 + d) % 10 == d
  {
  }

  lemma {:induction false} ValueDecimal(s: string)
    requires Canonical(s)
    ensures Decimal(DigitsValue(s)) == s
    decreases |s|
  {
    var last := s[|s| - 1];
    var d := DigitValue(last);
    assert DigitChar(d) == last;
    if |s| == 1 {
      assert s == [last];
    } else {
      var p := s[..|s| - 1];
      assert p[0] == s[0];
      assert forall i :: 0 <= i < |p| ==> p[i] == s[i];
      ValueDecimal(p);
      var a := DigitsValue(p);
      assert a != 0;
      assert DigitsValue(s) == a * 10 + d;
      DivModTen(a, d);
      assert Decimal(a * 10 + d) == Decimal(a) + [DigitChar(d)];
      assert s == p + [last];
    }
  }

  /** Parsing the text form of an identifier gives that identifier back. */
  lemma IdRoundTrip(id: ObjectId)
    ensures ParseId(IdToString(id)) == Some(id)
  {
    DecimalValue(id.n);
  }

  /** In this decimal stand-in for identifiers, every text that parses is the text
      form of what it parses to, so distinct texts never name the same identifier. */
  lemma IdCanonical(s: string)
    requires ParseId(s).Some?
    ensures IdToString(ParseId(s).value) == s
  {
    ValueDecimal(s);
  }
}
