/** Printing and parsing LX200 coordinate texts, over exact reals. */
module Coordinates {
  import opened Common
  import opened Angles

  // ---- numbers in text -----------------------------------------------------------------------

  function Digit(n: int): char
    requires 0 <= n < 10
  {
    ('0' as int + n) as char
  }

  function Digits(n: nat): string { if n < 10 then [Digit(n)] else Digits(n / 10) + [Digit(n % 10)] }

  function Zeros(n: nat): string { if n == 0 then "" else "0" + Zeros(n - 1) }

  /** `n` in decimal, padded with zeros to at least `width` characters. */
  function Pad(n: nat, width: nat): string {
    var d := Digits(n);
    if |d| < width then Zeros(width - |d|) + d else d
  }

  predicate IsDigit(c: char) { '0' <= c <= '9' }

  /** The number a text of digits stands for. Other spellings of numbers are not modelled. */
  function Number(s: string): Option<nat> {
    if s == "" || !IsDigit(s[|s| - 1]) then None
    else
      var d := s[|s| - 1] as int - '0' as int;
      if |s| == 1 then Some(d)
      else
        var init := Number(s[..|s| - 1]);
        if init.None? then None else Some(10 * init.value + d)
  }

  // ---- taking texts apart --------------------------------------------------------------------

  predicate Blank(c: char) { c in {' ', '\t', '\n', '\r', '\U{000B}', '\U{000C}'} }

  function Strip(s: string): string
    decreases |s|
  {
    if s != "" && Blank(s[0]) then Strip(s[1..])
    else if s != "" && Blank(s[|s| - 1]) then Strip(s[..|s| - 1])
    else s
  }

  function WithoutSigns(s: string): string { if s != "" && (s[0] == '+' || s[0] == '-') then WithoutSigns(s[1..]) else s }

  function WithoutEnd(s: string): string
    decreases |s|
  {
    if s != "" && s[|s| - 1] == '#' then WithoutEnd(s[..|s| - 1]) else s
  }

  /** Degree and minute marks count as separators. */
  function Colons(s: string): string {
    if s == "" then "" else (if s[0] == '*' || s[0] == '\'' then ":" else [s[0]]) + Colons(s[1..])
  }

  function Fields(s: string): (f: seq<string>)
    ensures f != []
  {
    if s == "" then [""]
    else
      var rest := Fields(s[1..]);
      if s[0] == ':' then [""] + rest else [[s[0]] + rest[0]] + rest[1..]
  }

  function NonEmpty(f: seq<string>): seq<string> {
    if f == [] then [] else (if f[0] == "" then [] else [f[0]]) + NonEmpty(f[1..])
  }

  /** Degrees or hours, minutes and seconds; fields after the third are ignored. */
  function Sexagesimal(f: seq<string>): Option<real> {
    if |f| < 3 then None
    else
      var a, b, c := Number(f[0]), Number(f[1]), Number(f[2]);
      if a.None? || b.None? || c.None? then None
      else Some(a.value as real + b.value as real / 60.0 + c.value as real / 3600.0)
  }

  function Signed(s: string, value: Option<real>): Option<real> {
    if value.None? then None else Some(if s != "" && s[0] == '-' then -value.value else value.value)
  }

  function ParseRa(s: string): Option<real> { Sexagesimal(Fields(Strip(s))) }

  function ParseDec(s: string): Option<real> { Signed(Strip(s), Sexagesimal(Fields(Colons(WithoutSigns(Strip(s)))))) }

  function ParseDegrees(s: string): Option<real> {
    var t := WithoutEnd(Strip(s));
    var f := NonEmpty(Fields(Colons(WithoutSigns(t))));
    if f == [] then None
    else
      Signed(t, Sexagesimal(if |f| == 1 then f + ["0", "0"] else if |f| == 2 then f + ["0"] else f))
  }

  // ---- printing ------------------------------------------------------------------------------

  /** Whole units, minutes and seconds of a non-negative value, each cut off, not rounded. */
  function Units(x: real): (int, int, int) {
    var h := x.Floor;
    var rem := (x - h as real) * 60.0;
    var m := rem.Floor;
    (h, m, ((rem - m as real) * 60.0).Floor)
  }

  lemma UnitsFit(x: real)
    requires x >= 0.0
    ensures var (h, m, s) := Units(x);
      && 0 <= h && 0 <= m < 60 && 0 <= s < 60
      && h as real + m as real / 60.0 + s as real / 3600.0 <= x
      && x < h as real + m as real / 60.0 + s as real / 3600.0 + 1.0 / 3600.0
  {
    var h := x.Floor;
    var rem := (x - h as real) * 60.0;
    var m := rem.Floor;
    var t := (rem - m as real) * 60.0;
    assert 0.0 <= rem < 60.0 && 0.0 <= t < 60.0;
    assert x == h as real + m as real / 60.0 + t / 3600.0;
  }

  function FormatRa(ra: real): string {
    ModRange(ra, 24.0);
    UnitsFit(Mod(ra, 24.0));
    var (h, m, s) := Units(Mod(ra, 24.0));
    Pad(h, 2) + ":" + Pad(m, 2) + ":" + Pad(s, 2)
  }

  function Sign(x: real): string { if x >= 0.0 then "+" else "-" }

  function FormatDec(dec: real): string {
    UnitsFit(Abs(dec));
    var (d, m, s) := Units(Abs(dec));
    Sign(dec) + Pad(d, 2) + "*" + Pad(m, 2) + ":" + Pad(s, 2)
  }

  /** Rounds to the nearest whole number, halves to the even one. */
  function RoundEven(x: real): int {
    var f := x.Floor;
    if x - f as real < 0.5 || (x - f as real == 0.5 && f % 2 == 0) then f else f + 1
  }

  lemma RoundEvenIff(x: real, n: int)
    ensures RoundEven(x) == n <==>
      -1.0 < 2.0 * (x - n as real) < 1.0 || (n % 2 == 0 && (2.0 * (x - n as real) == 1.0 || 2.0 * (x - n as real) == -1.0))
  {
    var f := x.Floor;
    assert x - f as real == 0.5 ==> (n as real - x == 0.5 <==> n == f + 1) && (x - n as real == 0.5 <==> n == f);
  }

  /** Degrees and rounded minutes, with the carry at 60. */
  function SiteUnits(x: real): (int, int) {
    var d, m := x.Floor, RoundEven((x - x.Floor as real) * 60.0);
    if m >= 60 then (d + 1, m - 60) else (d, m)
  }

  lemma SiteUnitsFit(x: real)
    requires x >= 0.0
    ensures var (d, m) := SiteUnits(x);
      && 0 <= d && 0 <= m < 60 && Abs(d as real + m as real / 60.0 - x) <= 1.0 / 120.0
  {
    var y := (x - x.Floor as real) * 60.0;
    assert 0.0 <= y < 60.0;
    assert Abs(RoundEven(y) as real - y) <= 0.5 && 0 <= RoundEven(y) <= 60;
  }

  function FormatSite(value: real, width: nat): string {
    SiteUnitsFit(Abs(value));
    var (d, m) := SiteUnits(Abs(value));
    Sign(value) + Pad(d, width) + "*" + Pad(m, 2)
  }

  // ---- texts and numbers agree ---------------------------------------------------------------

  predicate AllDigits(s: string) { s != "" && forall c :: c in s ==> IsDigit(c) }

  lemma {:induction false} DigitsParse(n: nat)
    ensures AllDigits(Digits(n)) && Number(Digits(n)) == Some(n)
  {
    if n >= 10 {
      DigitsParse(n / 10);
      assert (Digits(n / 10) + [Digit(n % 10)])[..|Digits(n / 10)|] == Digits(n / 10);
    }
  }

  lemma {:induction false} ZerosParse(s: string, k: nat)
    requires AllDigits(s)
    ensures AllDigits(Zeros(k) + s) && Number(Zeros(k) + s) == Number(s) && Number(s).Some?
    decreases k + |s|
  {
    if k > 0 {
      ZerosParse(s, k - 1);
      assert Zeros(k) + s == "0" + (Zeros(k - 1) + s);
      ZeroParse(Zeros(k - 1) + s);
    } else {
      assert Zeros(0) + s == s;
      ZeroParse(s);
    }
  }

  lemma {:induction false} ZeroParse(s: string)
    requires AllDigits(s)
    ensures AllDigits("0" + s) && Number("0" + s) == Number(s) && Number(s).Some?
  {
    assert ("0" + s)[..|s|] == "0" + s[..|s| - 1];
    if |s| > 1 {
      ZeroParse(s[..|s| - 1]);
    }
  }

  lemma PadParses(n: nat, width: nat)
    ensures AllDigits(Pad(n, width)) && Number(Pad(n, width)) == Some(n)
  {
    DigitsParse(n);
    if |Digits(n)| < width {
      ZerosParse(Digits(n), width - |Digits(n)|);
    }
  }

  lemma FieldsStep(c: char, s: string)
    ensures Fields("") == [""]
    ensures c == ':' ==> Fields([c] + s) == [""] + Fields(s)
    ensures c != ':' ==> Fields([c] + s) == [[c] + Fields(s)[0]] + Fields(s)[1..]
  {
    assert ([c] + s)[1..] == s;
  }

  lemma {:induction false} FieldsSplit(a: string, rest: string)
    requires AllDigits(a)
    ensures Fields(a + ":" + rest) == [a] + Fields(rest) && Fields(a) == [a]
  {
    hide Fields;
    var first, others := a[0], a[1..];
    assert IsDigit(first) && a == [first] + others;
    FieldsStep(first, others);
    FieldsStep(first, others + ":" + rest);
    assert a + ":" + rest == [first] + (others + ":" + rest);
    if others == "" {
      FieldsStep(':', rest);
      assert others + ":" + rest == [':'] + rest;
      assert ([""] + Fields(rest))[1..] == Fields(rest) && [""][1..] == [] && [first] + "" == a;
    } else {
      FieldsSplit(others, rest);
      assert ([others] + Fields(rest))[1..] == Fields(rest) && [others][1..] == [];
    }
  }

  lemma {:induction false} ColonsSplit(a: string, b: string)
    ensures Colons(a + b) == Colons(a) + Colons(b)
  {
    if a == "" {
      assert a + b == b;
    } else {
      assert (a + b)[1..] == a[1..] + b;
      ColonsSplit(a[1..], b);
    }
  }

  lemma {:induction false} ColonsKeep(a: string)
    requires forall c :: c in a ==> IsDigit(c) || c == ':'
    ensures Colons(a) == a
  {
    if a != "" {
      assert IsDigit(a[0]) || a[0] == ':';
      ColonsKeep(a[1..]);
      assert a == [a[0]] + a[1..];
    }
  }

  lemma StripKeeps(s: string)
    requires s != "" && !Blank(s[0]) && !Blank(s[|s| - 1])
    ensures Strip(s) == s
  {}

  /** A printed triple reads back as its fields. */
  lemma TripleParses(a: nat, b: nat, c: nat)
    ensures var s := Pad(a, 2) + ":" + Pad(b, 2) + ":" + Pad(c, 2);
      && s != "" && IsDigit(s[0]) && IsDigit(s[|s| - 1]) && (forall x :: x in s ==> IsDigit(x) || x == ':')
      && Sexagesimal(Fields(s)) == Some(a as real + b as real / 60.0 + c as real / 3600.0)
  {
    hide Pad, Fields, Number;
    PadParses(a, 2);
    PadParses(b, 2);
    PadParses(c, 2);
    var s := Pad(a, 2) + ":" + Pad(b, 2) + ":" + Pad(c, 2);
    assert s == Pad(a, 2) + ":" + (Pad(b, 2) + ":" + Pad(c, 2));
    FieldsSplit(Pad(a, 2), Pad(b, 2) + ":" + Pad(c, 2));
    FieldsSplit(Pad(b, 2), Pad(c, 2));
    FieldsSplit(Pad(c, 2), "");
    assert s[0] == Pad(a, 2)[0] && s[|s| - 1] == Pad(c, 2)[|Pad(c, 2)| - 1];
  }

  /** A printed right ascension reads back less than a second below the value modulo 24, and its
      minutes and seconds stay below 60. */
  lemma RaRoundTrip(ra: real)
    ensures var p := ParseRa(FormatRa(ra));
      && p.Some? && 0.0 <= p.value <= Mod(ra, 24.0) < p.value + 1.0 / 3600.0
      && var (h, m, s) := Units(Mod(ra, 24.0)); 0 <= h < 24 && 0 <= m < 60 && 0 <= s < 60
  {
    hide Pad, Fields, Sexagesimal, Mod, Units, Strip;
    ModRange(ra, 24.0);
    UnitsFit(Mod(ra, 24.0));
    var (h, m, s) := Units(Mod(ra, 24.0));
    TripleParses(h, m, s);
    StripKeeps(FormatRa(ra));
  }

  /** The units of a value put together from proper fields are those fields. */
  lemma UnitsOfFields(h: nat, m: nat, s: nat)
    requires m < 60 && s < 60
    ensures Units(h as real + m as real / 60.0 + s as real / 3600.0) == (h, m, s)
  {
    var x := h as real + m as real / 60.0 + s as real / 3600.0;
    assert x.Floor == h;
    var rem := (x - h as real) * 60.0;
    assert rem == m as real + s as real / 60.0;
    assert rem.Floor == m;
    assert (rem - m as real) * 60.0 == s as real;
  }

  /** Printing a parsed canonical right ascension returns it. */
  lemma RaTextRoundTrip(h: nat, m: nat, s: nat)
    requires h < 24 && m < 60 && s < 60
    ensures var text := Pad(h, 2) + ":" + Pad(m, 2) + ":" + Pad(s, 2);
      ParseRa(text).Some? && FormatRa(ParseRa(text).value) == text
  {
    hide Pad, Fields, Sexagesimal, Mod, Units, Strip;
    var x := h as real + m as real / 60.0 + s as real / 3600.0;
    TripleParses(h, m, s);
    StripKeeps(Pad(h, 2) + ":" + Pad(m, 2) + ":" + Pad(s, 2));
    ModIff(x, 24.0, x, 0);
    UnitsOfFields(h, m, s);
  }

  lemma SignDrops(sign: string, body: string)
    requires (sign == "+" || sign == "-") && body != "" && body[0] != '+' && body[0] != '-'
    ensures WithoutSigns(sign + body) == body
  {
    assert (sign + body)[1..] == body && WithoutSigns(body) == body;
  }

  lemma SignedParses(sign: string, d: nat, m: nat, s: nat)
    requires sign == "+" || sign == "-"
    ensures var text := sign + Pad(d, 2) + "*" + Pad(m, 2) + ":" + Pad(s, 2);
      var x := d as real + m as real / 60.0 + s as real / 3600.0;
      ParseDec(text) == Some(if sign == "-" then -x else x)
  {
    hide Pad, Fields, Sexagesimal, Strip, Colons, WithoutSigns;
    var body := Pad(d, 2) + "*" + Pad(m, 2) + ":" + Pad(s, 2);
    var triple := Pad(d, 2) + ":" + Pad(m, 2) + ":" + Pad(s, 2);
    var text := sign + Pad(d, 2) + "*" + Pad(m, 2) + ":" + Pad(s, 2);
    TripleParses(d, m, s);
    PadParses(d, 2);
    PadParses(m, 2);
    PadParses(s, 2);
    assert text == sign + body && body[0] == triple[0] && text[|text| - 1] == triple[|triple| - 1];
    StripKeeps(text);
    SignDrops(sign, body);
    MarkedColons(Pad(d, 2), Pad(m, 2) + ":" + Pad(s, 2));
    assert body == Pad(d, 2) + "*" + (Pad(m, 2) + ":" + Pad(s, 2)) && triple == Pad(d, 2) + ":" + (Pad(m, 2) + ":" + Pad(s, 2));
  }

  lemma MarkedColons(a: string, b: string)
    requires forall c :: c in a + b ==> IsDigit(c) || c == ':'
    ensures Colons(a + "*" + b) == a + ":" + b
  {
    hide Colons;
    assert forall c :: c in a ==> c in a + b;
    assert forall c :: c in b ==> c in a + b;
    ColonsKeep(a);
    ColonsKeep(b);
    ColonsSplit(a + "*", b);
    ColonsSplit(a, "*");
    StarIsColon();
  }

  lemma StarIsColon() ensures Colons("*") == ":" { assert Colons("") == ""; }

  /** A printed declination reads back within a second, on the zero side of the value. */
  lemma DecRoundTrip(dec: real)
    ensures var p := ParseDec(FormatDec(dec));
      && p.Some? && Abs(p.value) <= Abs(dec) < Abs(p.value) + 1.0 / 3600.0
      && (dec >= 0.0 ==> p.value >= 0.0) && (dec < 0.0 ==> p.value <= 0.0)
  {
    hide Pad, ParseDec, Units;
    UnitsFit(Abs(dec));
    var (d, m, s) := Units(Abs(dec));
    SignedParses(Sign(dec), d, m, s);
  }

  /** Printing a parsed canonical declination returns it, but for a negative zero. */
  lemma DecTextRoundTripIff(sign: string, d: nat, m: nat, s: nat)
    requires (sign == "+" || sign == "-") && m < 60 && s < 60
    ensures var text := sign + Pad(d, 2) + "*" + Pad(m, 2) + ":" + Pad(s, 2);
      && ParseDec(text).Some?
      && (FormatDec(ParseDec(text).value) == text <==> !(sign == "-" && d == 0 && m == 0 && s == 0))
  {
    hide Pad, ParseDec, Units;
    var x := d as real + m as real / 60.0 + s as real / 3600.0;
    SignedParses(sign, d, m, s);
    UnitsOfFields(d, m, s);
    var text := sign + Pad(d, 2) + "*" + Pad(m, 2) + ":" + Pad(s, 2);
    if sign == "-" && x == 0.0 {
      assert FormatDec(0.0)[0] == '+' && text[0] == '-';
    }
  }

  /** Printed site degrees read back within half an arcminute, and the minutes stay below 60. */
  lemma SiteRoundTrip(value: real, width: nat)
    ensures var p := ParseDegrees(FormatSite(value, width));
      p.Some? && Abs(p.value - value) <= 1.0 / 120.0
  {
    hide Pad, Fields, Sexagesimal, Strip, Colons, NonEmpty, SiteUnits, WithoutEnd;
    SiteUnitsFit(Abs(value));
    var (d, m) := SiteUnits(Abs(value));
    var sign, text := Sign(value), FormatSite(value, width);
    var body := Pad(d, width) + "*" + Pad(m, 2);
    PadParses(d, width);
    PadParses(m, 2);
    assert text == sign + body && text[|text| - 1] == Pad(m, 2)[|Pad(m, 2)| - 1];
    StripKeeps(text);
    EndStays(text);
    assert text[1..] == body && body[0] == Pad(d, width)[0] && IsDigit(body[0]);
    assert sign == "+" || sign == "-";
    assert text[0] == sign[0];
    assert WithoutSigns(body) == body && WithoutSigns(text) == WithoutSigns(text[1..]);
    MarkedColons(Pad(d, width), Pad(m, 2));
    FieldsSplit(Pad(d, width), Pad(m, 2));
    FieldsSplit(Pad(m, 2), "");
    TwoFields(Pad(d, width), Pad(m, 2), d, m);
  }

  lemma EndStays(s: string)
    requires s != "" && s[|s| - 1] != '#'
    ensures WithoutEnd(s) == s
  {}

  lemma TwoFields(a: string, b: string, d: nat, m: nat)
    requires AllDigits(a) && AllDigits(b) && Number(a) == Some(d) && Number(b) == Some(m)
    ensures NonEmpty([a] + [b]) == [a, b]
    ensures Sexagesimal([a, b] + ["0"]) == Some(d as real + m as real / 60.0)
  {
    assert ([a] + [b])[1..] == [b] && [b][1..] == [];
    assert NonEmpty([b]) == [b];
    assert Number("0") == Some(0);
  }
}
