// Printing amounts in Korean units, and reading them back.
module Currency {
  import opened Options

  const WON := '\U{C6D0}'       // 1
  const MAN := '\U{B9CC}'       // ten thousand
  const EOK := '\U{C5B5}'       // a hundred million
  const JO := '\U{C870}'        // a trillion

  // ---------------------------------------------------------------------
  // Numbers
  // ---------------------------------------------------------------------

  // Python's round: to the nearest, halves to the even neighbour.
  function Round(x: real): (n: nat)
    requires x >= 0.0
    ensures x - 0.5 <= n as real <= x + 0.5
  {
    var f := x.Floor;
    var rest := x - f as real;
    if rest < 0.5 || (rest == 0.5 && f % 2 == 0) then f else f + 1
  }

  function Abs(x: real): real {
    if x < 0.0 then -x else x
  }

  function Digit(d: nat): char
    requires d < 10
  {
    ('0' as int + d) as char
  }

  function Digits(n: nat): string {
    if n < 10 then [Digit(n)] else Digits(n / 10) + [Digit(n % 10)]
  }

  function Padded(n: nat): string
    requires n < 1000
  {
    [Digit(n / 100), Digit(n / 10 % 10), Digit(n % 10)]
  }

  // {n:,}
  function Grouped(n: nat): string {
    if n < 1000 then Digits(n) else Grouped(n / 1000) + "," + Padded(n % 1000)
  }

  // ---------------------------------------------------------------------
  // Printing
  // ---------------------------------------------------------------------

  function FormatMagnitude(m: nat): string {
    if m >= 1_000_000_000_000 then
      var jo, eok := m / 1_000_000_000_000, m % 1_000_000_000_000 / 100_000_000;
      if eok != 0 then Digits(jo) + [JO, ' '] + Grouped(eok) + [EOK, WON] else Digits(jo) + [JO, WON]
    else if m >= 100_000_000 then
      var eok, man := m / 100_000_000, m % 100_000_000 / 10_000;
      if man != 0 then Grouped(eok) + [EOK, ' '] + Grouped(man) + [MAN, WON] else Grouped(eok) + [EOK, WON]
    else if m >= 10_000 then Grouped(m / 10_000) + [MAN, WON]
    else Grouped(m) + [WON]
  }

  function FormatCurrency(value: real): string {
    var m := Round(Abs(value));
    (if value < 0.0 && m > 0 then "-" else "") + FormatMagnitude(m)
  }

  // ---------------------------------------------------------------------
  // Reading
  // ---------------------------------------------------------------------

  // The number being read, the total of the units read, whether the won ended the text.
  datatype Reading = Reading(number: nat, total: nat, ended: bool) | Garbled

  function Read(r: Reading, c: char): Reading {
    if r.Garbled? || r.ended then Garbled
    else if '0' <= c <= '9' then r.(number := 10 * r.number + (c as int - '0' as int))
    else if c == ',' || c == ' ' then r
    else if c == JO then Reading(0, r.total + r.number * 1_000_000_000_000, false)
    else if c == EOK then Reading(0, r.total + r.number * 100_000_000, false)
    else if c == MAN then Reading(0, r.total + r.number * 10_000, false)
    else if c == WON then Reading(0, r.total + r.number, true)
    else Garbled
  }

  function ReadAll(r: Reading, s: string): Reading {
    if s == "" then r else Read(ReadAll(r, s[..|s| - 1]), s[|s| - 1])
  }

  function ParseMagnitude(s: string): Option<int> {
    var r := ReadAll(Reading(0, 0, false), s);
    if r.Reading? && r.ended then Some(r.total) else None
  }

  function ParseCurrency(s: string): Option<int> {
    var negative := s != "" && s[0] == '-';
    var m := ParseMagnitude(if negative then s[1..] else s);
    if m.None? then None else Some(if negative then -m.value else m.value)
  }

  // ---------------------------------------------------------------------
  // What survives
  // ---------------------------------------------------------------------

  // The smallest unit printed for a magnitude.
  function Unit(m: nat): (u: nat)
    ensures u > 0
  {
    if m >= 1_000_000_000_000 then 100_000_000 else if m >= 10_000 then 10_000 else 1
  }

  function Truncated(value: real): int {
    var m := Round(Abs(value));
    var kept := m - m % Unit(m);
    if value < 0.0 then -kept else kept
  }

  lemma {:induction false} ReadAllConcat(r: Reading, a: string, b: string)
    ensures ReadAll(r, a + b) == ReadAll(ReadAll(r, a), b)
    decreases |b|
  {
    if b == "" {
      assert a + b == a;
    } else {
      ReadAllConcat(r, a, b[..|b| - 1]);
      assert (a + b)[..|a + b| - 1] == a + b[..|b| - 1];
    }
  }

  lemma ReadPush(r: Reading, a: string, c: char)
    ensures ReadAll(r, a + [c]) == Read(ReadAll(r, a), c)
  {
    assert (a + [c])[..|a|] == a;
  }

  lemma ReadDigit(n: nat, total: nat, d: nat)
    requires d < 10
    ensures Read(Reading(n, total, false), Digit(d)) == Reading(10 * n + d, total, false)
  {
  }

  lemma ReadNothing(r: Reading)
    ensures ReadAll(r, "") == r
  {
  }

  lemma {:induction false} ReadDigits(n: nat, total: nat)
    ensures ReadAll(Reading(0, total, false), Digits(n)) == Reading(n, total, false)
  {
    hide Read, ReadAll;
    var r := Reading(0, total, false);
    if n < 10 {
      assert Digits(n) == "" + [Digit(n)];
      ReadPush(r, "", Digit(n));
      ReadNothing(r);
      ReadDigit(0, total, n);
    } else {
      ReadDigits(n / 10, total);
      ReadPush(r, Digits(n / 10), Digit(n % 10));
      ReadDigit(n / 10, total, n % 10);
    }
  }

  lemma ReadThree(r: Reading, s: string, q: nat, total: nat, m: nat)
    requires ReadAll(r, s) == Reading(q, total, false) && m < 1000
    ensures ReadAll(r, s + Padded(m)) == Reading(1000 * q + m, total, false)
  {
    hide Read, ReadAll;
    var a, b, c := m / 100, m / 10 % 10, m % 10;
    ReadPush(r, s, Digit(a));
    ReadPush(r, s + [Digit(a)], Digit(b));
    ReadPush(r, s + [Digit(a)] + [Digit(b)], Digit(c));
    assert s + Padded(m) == s + [Digit(a)] + [Digit(b)] + [Digit(c)];
    ReadDigit(q, total, a);
    ReadDigit(10 * q + a, total, b);
    ReadDigit(10 * (10 * q + a) + b, total, c);
  }

  lemma {:induction false} ReadGrouped(n: nat, total: nat)
    ensures ReadAll(Reading(0, total, false), Grouped(n)) == Reading(n, total, false)
  {
    hide ReadAll;
    if n < 1000 {
      ReadDigits(n, total);
    } else {
      var r, q := Reading(0, total, false), n / 1000;
      ReadGrouped(q, total);
      ReadPush(r, Grouped(q), ',');
      ReadThree(r, Grouped(q) + ",", q, total, n % 1000);
    }
  }

  // A unit, and what is read after it.
  lemma ReadTwo(r: Reading, s: string, c: char, d: char)
    ensures ReadAll(r, s + [c, d]) == Read(Read(ReadAll(r, s), c), d)
  {
    hide Read, ReadAll;
    ReadPush(r, s, c);
    ReadPush(r, s + [c], d);
    assert s + [c, d] == s + [c] + [d];
  }

  lemma ReadTrillions(m: nat)
    requires m >= 1_000_000_000_000
    ensures ParseMagnitude(FormatMagnitude(m)) == Some(m / 1_000_000_000_000 * 1_000_000_000_000 +
      m % 1_000_000_000_000 / 100_000_000 * 100_000_000)
  {
    hide ReadAll, Digits, Grouped;
    var r := Reading(0, 0, false);
    var jo, eok := m / 1_000_000_000_000, m % 1_000_000_000_000 / 100_000_000;
    ReadDigits(jo, 0);
    if eok != 0 {
      ReadTwo(r, Digits(jo), JO, ' ');
      ReadAllConcat(r, Digits(jo) + [JO, ' '], Grouped(eok));
      ReadGrouped(eok, jo * 1_000_000_000_000);
      ReadTwo(r, Digits(jo) + [JO, ' '] + Grouped(eok), EOK, WON);
    } else {
      ReadTwo(r, Digits(jo), JO, WON);
    }
  }

  lemma ReadMillions(m: nat)
    requires 100_000_000 <= m < 1_000_000_000_000
    ensures ParseMagnitude(FormatMagnitude(m)) == Some(m / 100_000_000 * 100_000_000 +
      m % 100_000_000 / 10_000 * 10_000)
  {
    hide ReadAll, Digits, Grouped;
    var r := Reading(0, 0, false);
    var eok, man := m / 100_000_000, m % 100_000_000 / 10_000;
    ReadGrouped(eok, 0);
    if man != 0 {
      ReadTwo(r, Grouped(eok), EOK, ' ');
      ReadAllConcat(r, Grouped(eok) + [EOK, ' '], Grouped(man));
      ReadGrouped(man, eok * 100_000_000);
      ReadTwo(r, Grouped(eok) + [EOK, ' '] + Grouped(man), MAN, WON);
    } else {
      ReadTwo(r, Grouped(eok), EOK, WON);
    }
  }

  // Counting in the small unit determines what is printed.
  lemma NestedUnits(m: nat)
    ensures m / 1_000_000_000_000 == m / 100_000_000 / 10_000
    ensures m % 1_000_000_000_000 / 100_000_000 == m / 100_000_000 % 10_000
    ensures m / 100_000_000 == m / 10_000 / 10_000
    ensures m % 100_000_000 / 10_000 == m / 10_000 % 10_000
  {
  }

  // A larger unit and a smaller one together count the smaller one.
  lemma UnitsNest(m: nat)
    ensures m / 1_000_000_000_000 * 1_000_000_000_000 + m % 1_000_000_000_000 / 100_000_000 * 100_000_000 ==
      m - m % 100_000_000
    ensures m / 100_000_000 * 100_000_000 + m % 100_000_000 / 10_000 * 10_000 == m - m % 10_000
  {
    NestedUnits(m);
    var q, p := m / 100_000_000, m / 10_000;
    assert q / 10_000 * 10_000 + q % 10_000 == q && p / 10_000 * 10_000 + p % 10_000 == p;
    assert m - m % 100_000_000 == q * 100_000_000 && m - m % 10_000 == p * 10_000;
  }

  lemma ReadMagnitude(m: nat)
    ensures ParseMagnitude(FormatMagnitude(m)) == Some(m - m % Unit(m))
  {
    hide ReadAll, Digits, Grouped;
    var r := Reading(0, 0, false);
    UnitsNest(m);
    if m >= 1_000_000_000_000 {
      ReadTrillions(m);
    } else if m >= 100_000_000 {
      ReadMillions(m);
    } else if m >= 10_000 {
      ReadGrouped(m / 10_000, 0);
      ReadTwo(r, Grouped(m / 10_000), MAN, WON);
    } else {
      ReadGrouped(m, 0);
      ReadPush(r, Grouped(m), WON);
    }
  }

  lemma {:induction false} GroupedStarts(n: nat)
    ensures Grouped(n) != "" && Grouped(n)[0] != '-'
    ensures Digits(n) != "" && Digits(n)[0] != '-'
  {
    DigitsStart(n);
    if n >= 1000 {
      GroupedStarts(n / 1000);
    }
  }

  lemma {:induction false} DigitsStart(n: nat)
    ensures Digits(n) != "" && Digits(n)[0] != '-'
  {
    if n >= 10 {
      DigitsStart(n / 10);
    }
  }

  lemma MagnitudeStarts(m: nat)
    ensures FormatMagnitude(m) != "" && FormatMagnitude(m)[0] != '-'
  {
    GroupedStarts(m / 1_000_000_000_000);
    GroupedStarts(m / 100_000_000);
    GroupedStarts(m / 10_000);
    GroupedStarts(m);
  }

  // Reading a printed amount gives the amount rounded to a whole number and truncated
  // toward zero to the unit.
  lemma PrintedAmount(value: real)
    ensures ParseCurrency(FormatCurrency(value)) == Some(Truncated(value))
  {
    var m := Round(Abs(value));
    ReadMagnitude(m);
    MagnitudeStarts(m);
    assert ("-" + FormatMagnitude(m))[1..] == FormatMagnitude(m);
    assert "" + FormatMagnitude(m) == FormatMagnitude(m);
  }

  // A whole amount is never overstated and loses less than its unit.
  lemma ErrorBound(v: int)
    ensures
      var t, m := Truncated(v as real), if v < 0 then -v else v;
      && (v >= 0 ==> 0 <= t <= v && v - t < Unit(m))
      && (v <= 0 ==> v <= t <= 0 && t - v < Unit(m))
      && (t == v <==> m % Unit(m) == 0)
  {
    var m := if v < 0 then -v else v;
    assert Abs(v as real) == m as real;
    assert Round(m as real) == m;
    assert m % Unit(m) < Unit(m);
  }

  lemma RoundGrows(x: real, y: real)
    requires 0.0 <= x <= y
    ensures Round(x) <= Round(y)
  {
    if x.Floor == y.Floor {
    } else {
      assert x.Floor < y.Floor;
    }
  }

  lemma TruncationGrows(m: nat, n: nat)
    requires m <= n
    ensures m - m % Unit(m) <= n - n % Unit(n)
  {
    assert m - m % Unit(m) <= m;
    if Unit(m) == Unit(n) {
      var u := Unit(m);
      assert m == u * (m / u) + m % u && n == u * (n / u) + n % u;
      DivGrows(m, n, u);
    } else if Unit(n) == 100_000_000 {
      assert n - n % 100_000_000 >= 1_000_000_000_000;
    } else {
      assert n - n % 10_000 >= 10_000;
    }
  }

  lemma DivGrows(m: nat, n: nat, u: nat)
    requires m <= n && u > 0
    ensures u * (m / u) <= u * (n / u)
  {
    var a, b := m / u, n / u;
    assert u * a <= m && n < u * b + u;
    assert a > b ==> u * a >= u * (b + 1) == u * b + u;
  }

  // Larger amounts never print smaller, across all units, signs and halves.
  lemma PrintingIsMonotone(v: real, w: real)
    requires v <= w
    ensures Truncated(v) <= Truncated(w)
  {
    var m, n := Round(Abs(v)), Round(Abs(w));
    if v >= 0.0 {
      RoundGrows(v, w);
      TruncationGrows(m, n);
    } else if w < 0.0 {
      RoundGrows(-w, -v);
      TruncationGrows(n, m);
    } else {
      assert m - m % Unit(m) >= 0 && n - n % Unit(n) >= 0 by {
        assert m % Unit(m) <= m && n % Unit(n) <= n;
      }
    }
  }

  // The text depends on the kept amount only: two amounts print alike exactly if they
  // truncate to the same.
  lemma SamePrint(v: real, w: real)
    ensures FormatCurrency(v) == FormatCurrency(w) <==> Truncated(v) == Truncated(w)
  {
    hide FormatMagnitude, Round, Unit, ParseCurrency;
    PrintedAmount(v);
    PrintedAmount(w);
    KeptPrintsAlike(Round(Abs(v)));
    KeptPrintsAlike(Round(Abs(w)));
  }

  lemma KeptPrintsAlike(m: nat)
    ensures FormatMagnitude(m - m % Unit(m)) == FormatMagnitude(m)
    ensures 0 <= m - m % Unit(m) && (m - m % Unit(m) == 0 <==> m == 0)
  {
    hide Digits, Grouped;
    var k := m - m % Unit(m);
    NestedUnits(m);
    NestedUnits(k);
    if m >= 1_000_000_000_000 {
      assert k / 100_000_000 == m / 100_000_000 && k >= 1_000_000_000_000;
    } else if m >= 10_000 {
      assert k / 10_000 == m / 10_000 && k >= 10_000;
      assert m >= 100_000_000 ==> k >= 100_000_000;
    }
  }

  // ---------------------------------------------------------------------
  // How it looks
  // ---------------------------------------------------------------------

  // A comma stands exactly before each further three digits, everything else is a digit,
  // and only a single zero starts with one.
  predicate WellGrouped(g: string) {
    && g != "" && |g| % 4 != 0
    && (forall i :: 0 <= i < |g| ==> if (|g| - i) % 4 == 0 then g[i] == ',' else '0' <= g[i] <= '9')
    && (|g| > 1 ==> g[0] != '0')
  }

  lemma ShortDigits(n: nat)
    requires n < 1000
    ensures WellGrouped(Digits(n)) && (n > 0 ==> Digits(n)[0] != '0')
  {
    if n >= 100 {
      assert Digits(n) == Digits(n / 10) + [Digit(n % 10)];
      assert Digits(n / 10) == Digits(n / 10 / 10) + [Digit(n / 10 % 10)];
    } else if n >= 10 {
      assert Digits(n) == Digits(n / 10) + [Digit(n % 10)];
    }
  }

  lemma {:induction false} GroupedWell(n: nat)
    ensures WellGrouped(Grouped(n)) && (n > 0 ==> Grouped(n)[0] != '0')
  {
    hide Digits;
    if n < 1000 {
      ShortDigits(n);
    } else {
      GroupedWell(n / 1000);
      var g, p := Grouped(n / 1000), Padded(n % 1000);
      assert n / 1000 > 0;
      GroupBehind(g, p);
      assert Grouped(n) == g + "," + p;
    }
  }

  lemma GroupBehind(g: string, p: string)
    requires WellGrouped(g) && g[0] != '0' && |p| == 3 && forall i :: 0 <= i < 3 ==> '0' <= p[i] <= '9'
    ensures WellGrouped(g + "," + p) && (g + "," + p)[0] != '0'
  {
    var t := g + "," + p;
    assert |t| == |g| + 4;
    forall i | 0 <= i < |t| ensures if (|t| - i) % 4 == 0 then t[i] == ',' else '0' <= t[i] <= '9' {
      if i < |g| {
        assert (|t| - i) % 4 == (|g| - i) % 4 && t[i] == g[i];
      } else if i > |g| {
        assert t[i] == p[i - |g| - 1];
      }
    }
  }

  // The sign shows exactly if the magnitude does not round to zero.
  lemma SignShows(value: real)
    ensures FormatCurrency(value)[..1] == "-" <==> value < -0.5
  {
    var m := Round(Abs(value));
    MagnitudeStarts(m);
    hide FormatMagnitude;
    var s := FormatMagnitude(m);
    assert ("-" + s)[..1] == "-" && ("" + s)[..1] == [s[0]];
  }

  // As printed by way of example, at every border between the units.
  lemma PrintedSmall()
    ensures FormatMagnitude(0) == "0\U{C6D0}" && FormatMagnitude(9_999) == "9,999\U{C6D0}"
    ensures FormatMagnitude(10_000) == "1\U{B9CC}\U{C6D0}" && FormatMagnitude(12_345_678) == "1,234\U{B9CC}\U{C6D0}"
  {
    hide Grouped, Digits;
    Small();
    Thousands();
  }

  lemma PrintedMillions()
    ensures FormatMagnitude(100_000_000) == "1\U{C5B5}\U{C6D0}"
    ensures FormatMagnitude(1_234_567_890) == "12\U{C5B5} 3,456\U{B9CC}\U{C6D0}"
  {
    hide Grouped, Digits;
    Small();
    Thousands();
    assert "12" + [EOK, ' '] + "3,456" + [MAN, WON] == "12\U{C5B5} 3,456\U{B9CC}\U{C6D0}";
  }

  lemma PrintedTrillions()
    ensures FormatMagnitude(1_000_000_000_000) == "1\U{C870}\U{C6D0}"
    ensures FormatMagnitude(1_500_000_000_000) == "1\U{C870} 5,000\U{C5B5}\U{C6D0}"
  {
    hide Grouped, Digits;
    Small();
    Thousands();
    assert "1" + [JO, ' '] + "5,000" + [EOK, WON] == "1\U{C870} 5,000\U{C5B5}\U{C6D0}";
  }

  lemma Small()
    ensures Digits(1) == "1" && Grouped(0) == "0" && Grouped(1) == "1"
  {
  }

  lemma Thousands()
    ensures Grouped(9_999) == "9,999" && Grouped(1_234) == "1,234" && Grouped(3_456) == "3,456"
    ensures Grouped(12) == "12" && Grouped(5_000) == "5,000"
  {
    assert Digits(9) == "9" && Digits(1) == "1" && Digits(3) == "3" && Digits(5) == "5";
    assert Digits(12) == Digits(1) + "2";
    assert Grouped(9) == "9" && Grouped(1) == "1" && Grouped(3) == "3" && Grouped(5) == "5";
    assert Padded(999) == "999" && Padded(234) == "234" && Padded(456) == "456" && Padded(0) == "000";
  }

  // Halves round to the even neighbour.
  lemma Halves()
    ensures Round(0.5) == 0 && Round(1.5) == 2 && Round(2.5) == 2 && Round(99999.7) == 100_000
  {
  }
}
