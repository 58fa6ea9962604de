// Reading chapter numbers: lg_cli/intent_router.py, `_number`. Digits in the sense of
// `str.isdigit` are ASCII digits.
module Numerals {
  import opened Prelude
  import Decimal

  // The digits and units, by their code points: zero (two forms), one to nine (two has two
  // forms), ten, hundred, thousand, ten thousand.
  const ZERO := '\U{96F6}'
  const RING := '\U{3007}'
  const ONE := '\U{4E00}'
  const TWO := '\U{4E8C}'
  const PAIR := '\U{4E24}'
  const THREE := '\U{4E09}'
  const FOUR := '\U{56DB}'
  const FIVE := '\U{4E94}'
  const SIX := '\U{516D}'
  const SEVEN := '\U{4E03}'
  const EIGHT := '\U{516B}'
  const NINE := '\U{4E5D}'
  const TEN := '\U{5341}'
  const HUNDRED := '\U{767E}'
  const THOUSAND := '\U{5343}'
  const MYRIAD := '\U{4E07}'

  function DigitOf(c: char): Option<nat> {
    if c == ZERO || c == RING then Some(0)
    else if c == ONE then Some(1)
    else if c == TWO || c == PAIR then Some(2)
    else if c == THREE then Some(3)
    else if c == FOUR then Some(4)
    else if c == FIVE then Some(5)
    else if c == SIX then Some(6)
    else if c == SEVEN then Some(7)
    else if c == EIGHT then Some(8)
    else if c == NINE then Some(9)
    else None
  }

  function UnitOf(c: char): Option<nat> {
    if c == TEN then Some(10) else if c == HUNDRED then Some(100) else if c == THOUSAND then Some(1000) else None
  }

  datatype Sum = Sum(total: nat, current: nat)

  // One character; a unit without a digit before it counts once.
  function Next(s: Sum, c: char): Option<Sum> {
    match DigitOf(c)
    case Some(d) => Some(Sum(s.total, d))
    case None =>
      match UnitOf(c)
      case Some(unit) => Some(Sum(s.total + (if s.current == 0 then 1 else s.current) * unit, 0))
      case None => if c == MYRIAD then Some(Sum((s.total + s.current) * 10000, 0)) else None
  }

  function Summed(s: Sum, text: string): Option<Sum> {
    if text == "" then Some(s)
    else
      var before := Summed(s, text[..|text| - 1]);
      if before.None? then None else Next(before.value, text[|text| - 1])
  }

  predicate AllDigits(text: string) {
    text != "" && forall i | 0 <= i < |text| :: Decimal.IsDigit(text[i])
  }

  function Number(text: string): Option<nat> {
    if AllDigits(text) then Some(Decimal.Value(text))
    else
      var sum := Summed(Sum(0, 0), text);
      if sum.None? then None else Some(sum.value.total + sum.value.current)
  }

  method ReadNumber(text: string) returns (n: Option<nat>)
    ensures n == Number(text)
  {
    if AllDigits(text) { return Some(Decimal.Value(text)); }
    var total, current := 0, 0;
    for i := 0 to |text|
      invariant Summed(Sum(0, 0), text[..i]) == Some(Sum(total, current))
    {
      var c := text[i];
      assert text[..i + 1][..i] == text[..i];
      var digit, unit := DigitOf(c), UnitOf(c);
      if digit.Some? {
        current := digit.value;
      } else if unit.Some? {
        total := total + (if current == 0 then 1 else current) * unit.value;
        current := 0;
      } else if c == MYRIAD {
        total := (total + current) * 10000;
        current := 0;
      } else {
        Unreadable(Sum(0, 0), text, i);
        return None;
      }
    }
    assert text[..|text|] == text;
    n := Some(total + current);
  }

  // A character that is no numeral spoils the whole text.
  lemma {:induction false} Unreadable(s: Sum, text: string, i: nat)
    requires i < |text| && DigitOf(text[i]).None? && UnitOf(text[i]).None? && text[i] != MYRIAD
    ensures Summed(s, text).None?
  {
    if i < |text| - 1 { Unreadable(s, text[..|text| - 1], i); }
  }

  // ---------------------------------------------------------------- what reading means

  lemma {:induction false} SummedTwice(s: Sum, a: string, b: string)
    ensures Summed(s, a + b) == (if Summed(s, a).None? then None else Summed(Summed(s, a).value, b))
  {
    if b == "" {
      assert a + b == a;
    } else {
      SummedTwice(s, a, b[..|b| - 1]);
      assert (a + b)[..|a + b| - 1] == a + b[..|b| - 1];
    }
  }

  // What was summed up before a group is kept apart from it.
  lemma {:induction false} GroupApart(total: nat, text: string)
    requires MYRIAD !in text
    ensures var own := Summed(Sum(0, 0), text);
      Summed(Sum(total, 0), text) == if own.None? then None else Some(Sum(total + own.value.total, own.value.current))
  {
    if text != "" {
      GroupApart(total, text[..|text| - 1]);
    }
  }

  predicate Spelled(text: string) {
    text == "" || !Decimal.IsDigit(text[0])
  }

  lemma SpelledNumber(text: string)
    requires Spelled(text)
    ensures Number(text) == var sum := Summed(Sum(0, 0), text);
      if sum.None? then None else Some(sum.value.total + sum.value.current)
  {
  }

  // Reading is evaluation in base ten thousand: whatever stands before the last myriad sign
  // is multiplied by ten thousand and the group after it is added.
  lemma Horner(front: string, group: string)
    requires Spelled(front) && Spelled(group) && MYRIAD !in group
    ensures Number(front + [MYRIAD] + group) ==
      if Number(front).None? || Number(group).None? then None
        else Some(Number(front).value * 10000 + Number(group).value)
  {
    var whole := front + [MYRIAD] + group;
    SummedTwice(Sum(0, 0), front + [MYRIAD], group);
    SummedTwice(Sum(0, 0), front, [MYRIAD]);
    assert [MYRIAD][..0] == "";
    assert whole[0] == if front == "" then MYRIAD else front[0];
    if Summed(Sum(0, 0), front).Some? {
      var f := Summed(Sum(0, 0), front).value;
      GroupApart((f.total + f.current) * 10000, group);
    }
  }

  // ---------------------------------------------------------------- writing

  // Which of two usual forms is chosen.
  datatype Style = Style(pair: bool, bareTen: bool)

  function DigitFor(d: nat, style: Style): (c: char)
    requires 0 < d < 10
    ensures DigitOf(c) == Some(d)
  {
    if d == 1 then ONE else if d == 2 then (if style.pair then PAIR else TWO) else if d == 3 then THREE
      else if d == 4 then FOUR
    else if d == 5 then FIVE else if d == 6 then SIX else if d == 7 then SEVEN else if d == 8 then EIGHT else NINE
  }

  function Place(d: nat, unit: char, style: Style): string
    requires d < 10
  {
    if d == 0 then "" else [DigitFor(d, style), unit]
  }

  // A zero sign fills a gap between two places that are written.
  function Gap(above: nat, here: nat, below: nat): string {
    if above > 0 && here == 0 && below > 0 then [ZERO] else ""
  }

  function Tens(n: nat, style: Style): string
    requires n < 100
  {
    var ones := if n % 10 == 0 then "" else [DigitFor(n % 10, style)];
    (if n / 10 == 1 && style.bareTen then [TEN] else Place(n / 10, TEN, style)) + ones
  }

  // A group of four digits, for a number below ten thousand.
  function Group(n: nat, style: Style): string
    requires n < 10000
  {
    var plain := style.(bareTen := style.bareTen && n < 100);
    var low := Gap(n / 100, n / 10 % 10, n % 10) + Tens(n % 100, plain);
    var hundreds := Place(n / 100 % 10, HUNDRED, plain) + low;
    Place(n / 1000, THOUSAND, plain) + (Gap(n / 1000, n / 100 % 10, n / 10 % 10) + hundreds)
  }

  // The group after a myriad sign; a zero sign stands for missing thousands.
  function LowGroup(n: nat, style: Style): string
    requires n < 10000
  {
    Gap(1, n / 1000, n) + Group(n, style)
  }

  function Written(n: nat, style: Style): string {
    if n == 0 then [ZERO]
    else if n < 10000 then Group(n, style)
    else Written(n / 10000, style) + [MYRIAD] + LowGroup(n % 10000, style)
  }

  predicate Chinese(text: string) {
    forall c | c in text :: c != MYRIAD && !Decimal.IsDigit(c)
  }

  predicate Leaves(sum: Option<Sum>, total: nat, n: nat) {
    sum.Some? && sum.value.total + sum.value.current == total + n
  }

  // A text that adds `n` to what was summed up before it.
  ghost predicate Adds(text: string, n: nat) {
    Chinese(text) && forall total: nat :: Leaves(Summed(Sum(total, 0), text), total, n)
  }

  // The same for a text that leaves nothing pending.
  ghost predicate AddsWhole(text: string, n: nat) {
    Chinese(text) && forall total: nat :: Summed(Sum(total, 0), text) == Some(Sum(total + n, 0))
  }

  lemma PlaceAdds(d: nat, unit: char, size: nat, style: Style)
    requires d < 10 && UnitOf(unit) == Some(size)
    ensures AddsWhole(Place(d, unit, style), d * size)
  {
    var text := Place(d, unit, style);
    if d > 0 {
      var c := DigitFor(d, style);
      forall total: nat
        ensures Summed(Sum(total, 0), text) == Some(Sum(total + d * size, 0))
      {
        assert text[..1] == [c] && [c][..0] == "";
        assert Summed(Sum(total, 0), "") == Some(Sum(total, 0));
        assert Summed(Sum(total, 0), [c]) == Some(Sum(total, d));
      }
    }
  }

  lemma GapAdds(above: nat, here: nat, below: nat)
    ensures AddsWhole(Gap(above, here, below), 0)
  {
    forall total: nat
      ensures Summed(Sum(total, 0), [ZERO]) == Some(Sum(total, 0))
    {
      assert [ZERO][..0] == "";
    }
  }

  lemma Joined(a: string, m: nat, b: string, n: nat)
    requires AddsWhole(a, m) && Adds(b, n)
    ensures Adds(a + b, m + n)
  {
    forall total: nat
      ensures Leaves(Summed(Sum(total, 0), a + b), total, m + n)
    {
      SummedTwice(Sum(total, 0), a, b);
      assert Leaves(Summed(Sum(total + m, 0), b), total + m, n);
    }
  }

  lemma OnesAdd(d: nat, style: Style)
    requires d < 10
    ensures Adds(if d == 0 then "" else [DigitFor(d, style)], d)
  {
    if d > 0 {
      var c := DigitFor(d, style);
      forall total: nat
        ensures Summed(Sum(total, 0), [c]) == Some(Sum(total, d))
      {
        assert [c][..0] == "";
      }
    }
  }

  lemma BareTen()
    ensures AddsWhole([TEN], 10)
  {
    forall total: nat
      ensures Summed(Sum(total, 0), [TEN]) == Some(Sum(total + 10, 0))
    {
      assert [TEN][..0] == "";
    }
  }

  lemma TensAdd(n: nat, style: Style)
    requires n < 100
    ensures Adds(Tens(n, style), n)
  {
    var tens := if n / 10 == 1 && style.bareTen then [TEN] else Place(n / 10, TEN, style);
    BareTen();
    PlaceAdds(n / 10, TEN, 10, style);
    OnesAdd(n % 10, style);
    Joined(tens, n / 10 * 10, if n % 10 == 0 then "" else [DigitFor(n % 10, style)], n % 10);
  }

  lemma LowAdds(n: nat, style: Style)
    requires n < 10000
    ensures Adds(Gap(n / 100, n / 10 % 10, n % 10) + Tens(n % 100, style), n % 100)
  {
    TensAdd(n % 100, style);
    GapAdds(n / 100, n / 10 % 10, n % 10);
    Joined(Gap(n / 100, n / 10 % 10, n % 10), 0, Tens(n % 100, style), n % 100);
  }

  lemma Places(n: nat)
    ensures n / 100 % 10 * 100 + n % 100 == n % 1000 && n / 1000 * 1000 + n % 1000 == n
  {
  }

  lemma HundredsAdd(n: nat, style: Style, low: string)
    requires n < 10000 && Adds(low, n % 100)
    ensures Adds(Place(n / 100 % 10, HUNDRED, style) + low, n % 1000)
  {
    var d, rest := n / 100 % 10, n % 100;
    Places(n);
    PlaceAdds(d, HUNDRED, 100, style);
    Joined(Place(d, HUNDRED, style), d * 100, low, rest);
  }

  lemma ThousandsAdd(n: nat, style: Style, hundreds: string)
    requires n < 10000 && Adds(hundreds, n % 1000)
    ensures Adds(Place(n / 1000, THOUSAND, style) + (Gap(n / 1000, n / 100 % 10, n / 10 % 10) + hundreds), n)
  {
    var gap := Gap(n / 1000, n / 100 % 10, n / 10 % 10);
    GapAdds(n / 1000, n / 100 % 10, n / 10 % 10);
    Joined(gap, 0, hundreds, n % 1000);
    PlaceAdds(n / 1000, THOUSAND, 1000, style);
    Joined(Place(n / 1000, THOUSAND, style), n / 1000 * 1000, gap + hundreds, n % 1000);
  }

  lemma GroupAdds(n: nat, style: Style)
    requires n < 10000
    ensures Adds(Group(n, style), n)
  {
    var plain := style.(bareTen := style.bareTen && n < 100);
    var low := Gap(n / 100, n / 10 % 10, n % 10) + Tens(n % 100, plain);
    LowAdds(n, plain);
    HundredsAdd(n, plain, low);
    ThousandsAdd(n, plain, Place(n / 100 % 10, HUNDRED, plain) + low);
  }

  lemma LowGroupAdds(n: nat, style: Style)
    requires n < 10000
    ensures Adds(LowGroup(n, style), n)
  {
    GapAdds(1, n / 1000, n);
    GroupAdds(n, style);
    Joined(Gap(1, n / 1000, n), 0, Group(n, style), n);
  }

  // Such a text by itself is the number.
  lemma AddsIs(text: string, n: nat)
    requires Adds(text, n)
    ensures Spelled(text) && MYRIAD !in text && Number(text) == Some(n)
  {
    assert text != "" ==> text[0] in text;
    assert Leaves(Summed(Sum(0, 0), text), 0, n);
    SpelledNumber(text);
  }

  lemma FrontAndGroup(front: string, m: nat, group: string, n: nat)
    requires Spelled(front) && Number(front) == Some(m) && Spelled(group) && MYRIAD !in group
    requires Number(group) == Some(n)
    ensures Spelled(front + [MYRIAD] + group) && Number(front + [MYRIAD] + group) == Some(m * 10000 + n)
  {
    Horner(front, group);
    assert (front + [MYRIAD] + group)[0] == if front == "" then MYRIAD else front[0];
  }

  lemma GroupReads(n: nat, style: Style)
    requires n < 10000
    ensures var text := Group(n, style); Spelled(text) && Number(text) == Some(n)
    ensures var text := LowGroup(n, style); Spelled(text) && MYRIAD !in text && Number(text) == Some(n)
  {
    GroupAdds(n, style);
    AddsIs(Group(n, style), n);
    LowGroupAdds(n, style);
    AddsIs(LowGroup(n, style), n);
  }

  predicate Reads(text: string, n: nat) {
    Spelled(text) && Number(text) == Some(n)
  }

  lemma WrittenSplits(n: nat, style: Style, front: string, group: string)
    requires n >= 10000 && front == Written(n / 10000, style) && group == LowGroup(n % 10000, style)
    ensures Written(n, style) == front + [MYRIAD] + group && n / 10000 * 10000 + n % 10000 == n
  {
  }

  // Every number is read back from how it is written.
  lemma {:induction false} ReadsBack(n: nat, style: Style)
    ensures Reads(Written(n, style), n)
  {
    if n == 0 {
      GapAdds(1, 0, 1);
      AddsIs([ZERO], 0);
    } else if n < 10000 {
      GroupReads(n, style);
    } else {
      var front, group := Written(n / 10000, style), LowGroup(n % 10000, style);
      GroupReads(n % 10000, style);
      ReadsBack(n / 10000, style);
      FrontAndGroup(front, n / 10000, group, n % 10000);
      WrittenSplits(n, style, front, group);
    }
  }

  // ---------------------------------------------------------------- any text

  // The digit signs with their values, as two lists.
  const DIGIT_SIGNS := "\U{96F6}\U{3007}\U{4E00}\U{4E8C}\U{4E24}\U{4E09}"
                       + "\U{56DB}\U{4E94}\U{516D}\U{4E03}\U{516B}\U{4E5D}"
  const DIGIT_VALUES: seq<nat> := [0, 0, 1, 2, 2, 3, 4, 5, 6, 7, 8, 9]

  predicate HasValue(c: char, d: nat) {
    exists i | 0 <= i < |DIGIT_SIGNS| && i < |DIGIT_VALUES| :: DIGIT_SIGNS[i] == c && DIGIT_VALUES[i] == d
  }

  predicate HasSize(c: char, n: nat) {
    (c == '\U{5341}' && n == 10) || (c == '\U{767E}' && n == 100) || (c == '\U{5343}' && n == 1000)
  }

  predicate Sign(c: char) {
    c in DIGIT_SIGNS || c in {'\U{5341}', '\U{767E}', '\U{5343}', '\U{4E07}'}
  }

  lemma DigitMeans(c: char, d: nat)
    ensures DigitOf(c) == Some(d) <==> HasValue(c, d)
    ensures DigitOf(c).None? <==> c !in DIGIT_SIGNS
  {
    var s, v := DIGIT_SIGNS, DIGIT_VALUES;
    assert s[0] == ZERO && s[1] == RING && s[2] == ONE && s[3] == TWO && s[4] == PAIR && s[5] == THREE;
    assert s[6] == FOUR && s[7] == FIVE && s[8] == SIX && s[9] == SEVEN && s[10] == EIGHT && s[11] == NINE;
    assert forall i | 0 <= i < |s| :: DigitOf(s[i]) == Some(v[i]);
  }

  lemma UnitMeans(c: char, n: nat)
    ensures UnitOf(c) == Some(n) <==> HasSize(c, n)
  {
  }

  predicate Signed(text: string) {
    forall i | 0 <= i < |text| :: Sign(text[i])
  }

  lemma SignIff(c: char)
    ensures Sign(c) <==> DigitOf(c).Some? || UnitOf(c).Some? || c == MYRIAD
  {
    DigitMeans(c, 0);
  }

  lemma SignedSnoc(text: string)
    requires text != ""
    ensures Signed(text) <==> Signed(text[..|text| - 1]) && Sign(text[|text| - 1])
  {
    assert forall i | 0 <= i < |text| - 1 :: text[..|text| - 1][i] == text[i];
  }

  lemma {:induction false} SummedIff(s: Sum, text: string)
    ensures Summed(s, text).Some? <==> Signed(text)
  {
    if text != "" {
      var n := |text| - 1;
      SummedIff(s, text[..n]);
      SignIff(text[n]);
      SignedSnoc(text);
    }
  }

  // A text is a number exactly when it is of digits only, or of signs only.
  lemma ReadableIff(text: string)
    ensures Number(text).Some? <==> AllDigits(text) || Signed(text)
  {
    SummedIff(Sum(0, 0), text);
  }

  // A unit counts as often as the digit directly before it says, and once without one.
  function Worth(text: string, i: nat): nat
    requires i < |text|
  {
    if UnitOf(text[i]).None? then 0
    else if i > 0 && DigitOf(text[i - 1]).Some? && DigitOf(text[i - 1]).value > 0
    then DigitOf(text[i - 1]).value * UnitOf(text[i]).value
    else UnitOf(text[i]).value
  }

  function Units(text: string): nat {
    if text == "" then 0 else Units(text[..|text| - 1]) + Worth(text, |text| - 1)
  }

  // A digit at the end counts by itself.
  function Ones(text: string): nat {
    if text != "" && DigitOf(text[|text| - 1]).Some? then DigitOf(text[|text| - 1]).value else 0
  }

  // One more sign that is no myriad sign.
  lemma NextDigit(s: Sum, c: char)
    requires DigitOf(c).Some?
    ensures Next(s, c) == Some(Sum(s.total, DigitOf(c).value))
  {
  }

  lemma NextUnit(s: Sum, c: char)
    requires DigitOf(c).None? && UnitOf(c).Some?
    ensures Next(s, c) == Some(Sum(s.total + (if s.current == 0 then 1 else s.current) * UnitOf(c).value, 0))
  {
  }

  lemma GroupStep(text: string, before: Sum, n: nat, c: char)
    requires n == |text| - 1 && c == text[n] && c != MYRIAD && Sign(c)
    requires before == Sum(Units(text[..n]), Ones(text[..n]))
    ensures Next(before, c) == Some(Sum(Units(text), Ones(text)))
  {
    SignIff(c);
    if DigitOf(c).Some? {
      DigitNoUnit(c);
      NextDigit(before, c);
      EndsIn(text, n, 0, DigitOf(c).value, before);
    } else {
      OnesBefore(text, n, before.current);
      NextUnit(before, c);
      EndsIn(text, n, (if before.current == 0 then 1 else before.current) * UnitOf(c).value, 0, before);
    }
  }

  lemma EndsIn(text: string, n: nat, worth: nat, ones: nat, before: Sum)
    requires n == |text| - 1 && worth == Worth(text, n) && before.total == Units(text[..n])
    requires ones == if DigitOf(text[n]).Some? then DigitOf(text[n]).value else 0
    ensures Units(text) == before.total + worth && Ones(text) == ones
  {
  }

  lemma DigitNoUnit(c: char)
    requires DigitOf(c).Some?
    ensures UnitOf(c).None?
  {
  }

  // What is pending before a unit is the digit directly before it.
  lemma OnesBefore(text: string, n: nat, ones: nat)
    requires n < |text| && ones == Ones(text[..n])
    ensures ones == if n > 0 && DigitOf(text[n - 1]).Some? then DigitOf(text[n - 1]).value else 0
  {
    assert n > 0 ==> text[..n][n - 1] == text[n - 1];
  }

  lemma {:induction false} GroupSummed(text: string)
    requires MYRIAD !in text && Signed(text)
    ensures Summed(Sum(0, 0), text) == Some(Sum(Units(text), Ones(text)))
  {
    if text != "" {
      var n := |text| - 1;
      SignedSnoc(text);
      assert text == text[..n] + [text[n]];
      GroupSummed(text[..n]);
      GroupStep(text, Sum(Units(text[..n]), Ones(text[..n])), n, text[n]);
    }
  }

  lemma SignedSpelled(text: string)
    requires Signed(text)
    ensures Spelled(text)
  {
    if text != "" {
      SignIff(text[0]);
    }
  }

  // Any text of signs without a myriad sign means what its units are worth, and its last digit.
  lemma GroupMeans(text: string)
    requires MYRIAD !in text && Signed(text)
    ensures Number(text) == Some(Units(text) + Ones(text))
  {
    GroupSummed(text);
    SignedSpelled(text);
    SpelledNumber(text);
  }
}
