// ParseIOTVersion of func.go:76-100 and the "IOT/%d.%d" that request.go:320 prints.
module Version {
  import opened Basics

  const BIG: int := 1000000

  // request.go:218-220
  predicate AtLeast(version: (int, int), major: int, minor: int) {
    version.0 > major || (version.0 == major && version.1 >= minor)
  }

  predicate IsDigit(c: char) {
    '0' <= c <= '9'
  }

  predicate AllDigits(s: string) {
    forall i :: 0 <= i < |s| ==> IsDigit(s[i])
  }

  function DigitsValue(s: string): (n: nat)
    requires AllDigits(s)
  {
    if s == [] then 0 else DigitsValue(s[..|s| - 1]) * 10 + (s[|s| - 1] as int - '0' as int)
  }

  // strconv.Atoi: an optional sign and at least one digit.  A value too large for an
  // int is an error there and out of bounds here, so both end in a refusal.
  function Atoi(s: string): Option<int> {
    var signed := s != [] && (s[0] == '+' || s[0] == '-');
    var d := if signed then s[1..] else s;
    if d == [] || !AllDigits(d) then None
    else
      var n: int := DigitsValue(d);
      Some(if signed && s[0] == '-' then -n else n)
  }

  const PREFIX: string := "IOT/"

  function InBounds(n: Option<int>): bool {
    n.Some? && 0 <= n.value <= BIG
  }

  // func.go:84-99, what follows the two shortcuts.
  function ParseNumbers(vers: string): (r: Option<(int, int)>)
    ensures r.Some? ==> 0 <= r.value.0 <= BIG && 0 <= r.value.1 <= BIG
  {
    if !(PREFIX <= vers) then None
    else
      var dot := IndexOf(vers, '.');
      if dot == |vers| then None
      else
        assert vers[..4] == PREFIX && dot >= 4;
        var major := Atoi(vers[4..dot]);
        var minor := Atoi(vers[dot + 1..]);
        if !InBounds(major) || !InBounds(minor) then None
        else Some((major.value, minor.value))
  }

  function ParseIOTVersion(vers: string): (r: Option<(int, int)>)
    ensures r.Some? ==> 0 <= r.value.0 <= BIG && 0 <= r.value.1 <= BIG
  {
    if vers == "IOT/1.1" then Some((1, 1))
    else if vers == "IOT/1.0" then Some((1, 0))
    else ParseNumbers(vers)
  }

  // ---- printing, %d ----

  function NatText(n: nat): (s: string)
    ensures s != [] && AllDigits(s) && DigitsValue(s) == n
    decreases n
  {
    var last := [('0' as int + n % 10) as char];
    if n < 10 then last
    else
      var s := NatText(n / 10) + last;
      assert s[..|s| - 1] == NatText(n / 10);
      s
  }

  function IntText(n: int): string {
    if n < 0 then "-" + NatText(-n) else NatText(n)
  }

  function VersionText(major: int, minor: int): string {
    PREFIX + IntText(major) + "." + IntText(minor)
  }

  lemma AtoiOfText(n: int)
    ensures Atoi(IntText(n)) == Some(n) && '.' !in IntText(n)
  {
    if n < 0 {
      assert IntText(n)[1..] == NatText(-n);
    }
  }

  lemma ParseSplit(a: string, b: string)
    requires '.' !in a
    ensures ParseNumbers(PREFIX + a + "." + b) ==
      if InBounds(Atoi(a)) && InBounds(Atoi(b)) then Some((Atoi(a).value, Atoi(b).value)) else None
  {
    var v := PREFIX + a + "." + b;
    assert v == (PREFIX + a) + ['.'] + b;
    IndexOfFirst(PREFIX + a, '.', b);
    assert v[4..|PREFIX + a|] == a && v[|PREFIX + a| + 1..] == b;
  }

  lemma OneDigit(c: char)
    requires IsDigit(c)
    ensures Atoi([c]) == Some(c as int - '0' as int) && '.' !in [c]
  {
    assert AllDigits([c]) && [c][..0] == [];
    assert DigitsValue([c]) == DigitsValue([]) * 10 + (c as int - '0' as int);
  }

  // A number may have a sign and leading zeros.
  function Zeros(k: nat): string {
    if k == 0 then "" else Zeros(k - 1) + "0"
  }

  lemma {:induction false} ZerosCountNothing(k: nat, s: string)
    requires AllDigits(s)
    ensures AllDigits(Zeros(k) + s) && DigitsValue(Zeros(k) + s) == DigitsValue(s)
    decreases |s|, k
  {
    var v := Zeros(k) + s;
    if s != "" {
      ZerosCountNothing(k, s[..|s| - 1]);
      assert v[..|v| - 1] == Zeros(k) + s[..|s| - 1];
    } else if k > 0 {
      ZerosCountNothing(k - 1, "");
      assert Zeros(k) + s == Zeros(k - 1) + "" + "0";
      assert v[..|v| - 1] == Zeros(k - 1) + "";
    }
  }

  lemma AtoiOfDigits(d: string)
    requires d != "" && AllDigits(d)
    ensures Atoi(d) == Some(DigitsValue(d)) && Atoi("+" + d) == Some(DigitsValue(d))
    ensures Atoi("-" + d) == Some(0 - DigitsValue(d))
  {
    assert IsDigit(d[0]);
    assert ("+" + d)[1..] == d && ("-" + d)[1..] == d;
  }

  lemma AtoiReads(n: nat, k: nat)
    ensures Atoi(Zeros(k) + NatText(n)) == Some(n)
    ensures Atoi("+" + (Zeros(k) + NatText(n))) == Some(n)
    ensures Atoi("-" + (Zeros(k) + NatText(n))) == Some(0 - n)
  {
    ZerosCountNothing(k, NatText(n));
    AtoiOfDigits(Zeros(k) + NatText(n));
  }

  // Anything else is refused: what is accepted is an optional sign and at least one digit.
  lemma AtoiAcceptsOnly(s: string)
    ensures Atoi(s).Some? <==>
      exists d :: d != "" && AllDigits(d) && (s == d || s == "+" + d || s == "-" + d)
  {
    if Atoi(s).Some? {
      var d := if s[0] == '+' || s[0] == '-' then s[1..] else s;
      assert s == d || s == [s[0]] + d;
    }
    if d :| d != "" && AllDigits(d) && (s == d || s == "+" + d || s == "-" + d) {
      assert IsDigit(d[0]);
      assert s != d ==> s[1..] == d;
    }
  }

  // The two shortcuts answer what the general parse would.
  lemma ShortcutsAgree(v: string)
    ensures ParseIOTVersion(v) == ParseNumbers(v)
  {
    OneDigit('1');
    OneDigit('0');
    if v == "IOT/1.1" {
      assert v == PREFIX + ['1'] + "." + ['1'];
      ParseSplit(['1'], ['1']);
    } else if v == "IOT/1.0" {
      assert v == PREFIX + ['1'] + "." + ['0'];
      ParseSplit(['1'], ['0']);
    }
  }

  // Printed versions come back exactly when both numbers are from 0 to 1000000.
  lemma VersionRoundTrip(major: int, minor: int)
    ensures ParseIOTVersion(VersionText(major, minor)) ==
      if 0 <= major <= 1000000 && 0 <= minor <= 1000000 then Some((major, minor)) else None
  {
    AtoiOfText(major);
    AtoiOfText(minor);
    ParseSplit(IntText(major), IntText(minor));
    ShortcutsAgree(VersionText(major, minor));
  }
}
