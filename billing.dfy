/**
 The live calculation of the screen (App.js:34-36): the private meter's
 consumption since the last saved reading, the flag that marks a reading lower
 than the previous one, and the private share of the shared meter's bill. It is
 recomputed from the text fields on every change and keeps no state.

 The calculation is stated over the numbers the four fields read as (`Inputs`);
 `Read` takes the fields' text to those numbers the way the screen does.
 */
module Billing {
  import opened Parsing

  /** A JavaScript number as far as the bill share needs one: a real, or NaN. */
  datatype JsNumber = Finite(value: real) | NaN

  /** What the calculation reads from the fields: `parseFloat` of the
      previous and current readings (`None` is NaN), whether the current
      reading holds any text, the major usage as the comparison
      `majorCons > 0` coerces it (`Number`) and as the division reads it
      (`parseFloat`), and `parseFloat` of the major bill. */
  datatype Inputs = Inputs(
    prev: Option<real>,
    curr: Option<real>,
    currTyped: bool,
    usageNumber: Option<real>,
    usage: Option<real>,
    bill: Option<real>)

  /** `majorCons > 0`. */
  predicate UsagePositive(i: Inputs) {
    i.usageNumber.Some? && i.usageNumber.value > 0.0
  }

  /** What every reading of real text fields satisfies: an empty current
      reading does not parse, and a major usage that compares above 0 is the
      same number for the division. */
  predicate Coherent(i: Inputs) {
    && (!i.currTyped ==> i.curr.None?)
    && (UsagePositive(i) ==> i.usage == i.usageNumber)
  }

  /** The numbers the screen reads from its four text fields. */
  function Read(prevSub: string, currSub: string, majorCons: string, majorBill: string): (i: Inputs)
    ensures i.currTyped <==> currSub != ""
    ensures i.prev == ParseFloat(prevSub) && i.curr == ParseFloat(currSub) && i.bill == ParseFloat(majorBill)
    ensures Coherent(i)
  {
    EmptyField();
    PositiveNumberParses(majorCons);
    Inputs(ParseFloat(prevSub), ParseFloat(currSub), currSub != "",
           ToNumber(majorCons), ParseFloat(majorCons), ParseFloat(majorBill))
  }

  /** A reading as the consumption uses it, `parseFloat(x) || 0`: a field
      that does not parse counts as 0. */
  function Reading(parsed: Option<real>): real {
    parsed.GetOr(0.0)
  }

  /** `subCons`: the consumption since the previous reading. Added to the
      previous reading it gives the current one; with no previous reading the
      whole current reading is consumption. */
  function Consumption(prev: Option<real>, curr: Option<real>): (d: real)
    ensures Reading(prev) + d == Reading(curr)
    ensures prev.None? ==> d == Reading(curr)
    ensures prev == curr ==> d == 0.0
  {
    Reading(curr) - Reading(prev)
  }

  /** `isError`: a typed current reading lower than the previous one. A
      comparison with NaN is false, so a field that does not parse never
      raises the flag. When both readings parse and the current one is typed,
      the flag is exactly a negative consumption. */
  predicate IsError(i: Inputs)
    ensures IsError(i) ==> i.prev.Some? && i.curr.Some?
    ensures IsError(i) ==> i.currTyped && Consumption(i.prev, i.curr) < 0.0
    ensures i.currTyped && i.curr.Some? && i.prev.Some? ==> (IsError(i) <==> Consumption(i.prev, i.curr) < 0.0)
  {
    i.curr.Some? && i.prev.Some? && i.curr.value < i.prev.value && i.currTyped
  }

  /** `subBill`: the consumption's proportion of the major usage times the
      major bill, or 0 when the flag is raised or the major usage is not
      positive; a major bill that does not parse makes it NaN. A share other
      than 0 means the guard held and something was consumed. */
  function BillShare(i: Inputs): (r: JsNumber)
    requires Coherent(i)
    ensures r.NaN? <==> UsagePositive(i) && !IsError(i) && i.bill.None?
    ensures r.Finite? && r.value != 0.0 ==> UsagePositive(i) && !IsError(i) && Consumption(i.prev, i.curr) != 0.0
  {
    if UsagePositive(i) && !IsError(i) then
      match i.bill
      case None => NaN
      case Some(bill) => Finite(Consumption(i.prev, i.curr) / i.usage.value * bill)
    else Finite(0.0)
  }

  /** The flag over the text fields: for two readings typed as whole
      numbers it is raised exactly when the current number is the smaller. */
  lemma ReadingsCompared(prevSub: string, currSub: string, majorCons: string, majorBill: string)
    requires prevSub != [] && AllDigits(prevSub) && currSub != [] && AllDigits(currSub)
    ensures IsError(Read(prevSub, currSub, majorCons, majorBill)) <==> IntValue(currSub) < IntValue(prevSub)
  {
    WholeNumber(prevSub);
    WholeNumber(currSub);
  }

  /** A current reading with no numeric prefix (such as "abc") is NaN for
      `parseFloat`, so it never raises the flag, whatever the previous
      reading; it counts as 0 in the consumption. */
  lemma NonNumericReading(prevSub: string, currSub: string, majorCons: string, majorBill: string)
    requires currSub != [] && !IsSpace(currSub[0]) && !IsDigit(currSub[0]) && currSub[0] !in "+-."
    ensures Read(prevSub, currSub, majorCons, majorBill).currTyped
    ensures !IsError(Read(prevSub, currSub, majorCons, majorBill))
    ensures Consumption(ParseFloat(prevSub), ParseFloat(currSub)) == -Reading(ParseFloat(prevSub))
  {
    assert TrimStart(currSub) == currSub;
  }

  /** A previous reading with no numeric prefix (such as a saved "abc") is
      NaN for `parseFloat`, so the flag stays down whatever the current
      reading, and the whole current reading counts as consumption. */
  lemma NonNumericPrevious(prevSub: string, currSub: string, majorCons: string, majorBill: string)
    requires prevSub != [] && !IsSpace(prevSub[0]) && !IsDigit(prevSub[0]) && prevSub[0] !in "+-."
    ensures !IsError(Read(prevSub, currSub, majorCons, majorBill))
    ensures Consumption(ParseFloat(prevSub), ParseFloat(currSub)) == Reading(ParseFloat(currSub))
  {
    assert TrimStart(prevSub) == prevSub;
  }

  /** Readings in order: the consumption is their non-negative difference and
      the flag is down. */
  lemma OrderedReadings(i: Inputs, prev: real, curr: real)
    requires i.prev == Some(prev) && i.curr == Some(curr) && prev <= curr
    ensures Consumption(i.prev, i.curr) == curr - prev >= 0.0
    ensures !IsError(i)
  {
  }

  /** A typed reading below the previous one raises the flag, and the share is
      0 whatever the major usage and bill. */
  lemma RegressiveReading(i: Inputs, prev: real, curr: real)
    requires Coherent(i) && i.currTyped
    requires i.prev == Some(prev) && i.curr == Some(curr) && curr < prev
    ensures IsError(i)
    ensures BillShare(i) == Finite(0.0)
  {
  }

  /** A major usage that is zero, negative or not a number gives a share of 0:
      the division is never reached. */
  lemma NoMajorUsage(i: Inputs)
    requires Coherent(i)
    requires i.usageNumber.None? || i.usageNumber.value <= 0.0
    ensures BillShare(i) == Finite(0.0)
  {
  }

  /** When the share is computed, it is the bill in proportion to the
      consumption: share times the major usage equals consumption times the
      bill. A bill that does not parse gives NaN. */
  lemma ProportionalShare(i: Inputs)
    requires Coherent(i) && UsagePositive(i) && !IsError(i)
    ensures i.bill.None? ==> BillShare(i) == NaN
    ensures i.bill.Some? ==>
              BillShare(i).Finite? &&
              BillShare(i).value * i.usageNumber.value == Consumption(i.prev, i.curr) * i.bill.value
  {
    if i.bill.Some? {
      DivideThenMultiply(Consumption(i.prev, i.curr), i.usageNumber.value, i.bill.value);
    }
  }

  /** A consumption within the major usage never costs more than the major
      bill, nor less than nothing. */
  lemma ShareWithinBill(i: Inputs)
    requires Coherent(i) && UsagePositive(i)
    requires 0.0 <= Consumption(i.prev, i.curr) <= i.usageNumber.value
    requires i.bill.Some? && i.bill.value >= 0.0
    ensures BillShare(i).Finite?
    ensures 0.0 <= BillShare(i).value <= i.bill.value
  {
    if !IsError(i) {
      var d, m, b := Consumption(i.prev, i.curr), i.usage.value, i.bill.value;
      assert BillShare(i) == Finite(d / m * b);
      FractionOfWhole(d, m, b);
    }
  }

  /** Splitting a period at an intermediate reading splits its share: with
      the same major usage and bill, the shares from `first` to `middle` and
      from `middle` to `last` add up to the share from `first` to `last`. */
  lemma SharesAdd(first: real, middle: real, last: real, usageNumber: Option<real>, usage: Option<real>, bill: real)
    requires first <= middle <= last
    requires usageNumber.Some? && usageNumber.value > 0.0 ==> usage == usageNumber
    ensures var early, late, whole :=
              Inputs(Some(first), Some(middle), true, usageNumber, usage, Some(bill)),
              Inputs(Some(middle), Some(last), true, usageNumber, usage, Some(bill)),
              Inputs(Some(first), Some(last), true, usageNumber, usage, Some(bill));
            && BillShare(early).Finite? && BillShare(late).Finite? && BillShare(whole).Finite?
            && BillShare(early).value + BillShare(late).value == BillShare(whole).value
  {
    if usageNumber.Some? && usageNumber.value > 0.0 {
      ShareOfSum(middle - first, last - middle, usage.value, bill);
    }
  }

  /** The worked example: previous 100, current 150, major usage 500, major
      bill 200 give a consumption of 50 and a share of 20. */
  lemma Example(prevSub: string, currSub: string, majorCons: string, majorBill: string)
    requires prevSub == "100" && currSub == "150" && majorCons == "500" && majorBill == "200"
    ensures Read(prevSub, currSub, majorCons, majorBill) == Inputs(Some(100.0), Some(150.0), true, Some(500.0), Some(500.0), Some(200.0))
    ensures Consumption(ParseFloat(prevSub), ParseFloat(currSub)) == 50.0
    ensures !IsError(Read(prevSub, currSub, majorCons, majorBill))
    ensures BillShare(Read(prevSub, currSub, majorCons, majorBill)) == Finite(20.0)
  {
    ThreeDigitField(prevSub, 100);
    ThreeDigitField(currSub, 150);
    ThreeDigitField(majorCons, 500);
    ThreeDigitField(majorBill, 200);
    var i := Read(prevSub, currSub, majorCons, majorBill);
    assert i == Inputs(Some(100.0), Some(150.0), true, Some(500.0), Some(500.0), Some(200.0));
    assert BillShare(i) == Finite(50.0 / 500.0 * 200.0);
  }

  lemma ThreeDigitField(s: string, n: nat)
    requires |s| == 3 && IsDigit(s[0]) && IsDigit(s[1]) && IsDigit(s[2])
    requires n == DigitValue(s[0]) * 100 + DigitValue(s[1]) * 10 + DigitValue(s[2])
    ensures ParseFloat(s) == Some(n as real) && ToNumber(s) == Some(n as real)
  {
    ThreeDigits(s[0], s[1], s[2]);
    assert s == [s[0], s[1], s[2]];
  }

  /** The regressive example: previous 100, current 90 raises the flag, and the
      share is 0. */
  lemma RegressiveExample(prevSub: string, currSub: string, majorCons: string, majorBill: string)
    requires prevSub == "100" && currSub == "90"
    ensures IsError(Read(prevSub, currSub, majorCons, majorBill))
    ensures BillShare(Read(prevSub, currSub, majorCons, majorBill)) == Finite(0.0)
  {
    ThreeDigitField(prevSub, 100);
    WholeNumber(currSub);
    assert currSub[..1][..0] == [];
    assert IntValue(currSub[..1]) == 9;
    assert IntValue(currSub) == 90;
  }

  /** An empty current reading is never an error, and its consumption is minus
      the previous reading. */
  lemma EmptyCurrentReading(prevSub: string, majorCons: string, majorBill: string)
    ensures !IsError(Read(prevSub, "", majorCons, majorBill))
    ensures Consumption(ParseFloat(prevSub), ParseFloat("")) == -Reading(ParseFloat(prevSub))
  {
    EmptyField();
  }

  lemma ThreeDigits(a: char, b: char, c: char)
    requires IsDigit(a) && IsDigit(b) && IsDigit(c)
    ensures ParseFloat([a, b, c]) == Some((DigitValue(a) * 100 + DigitValue(b) * 10 + DigitValue(c)) as real)
    ensures ToNumber([a, b, c]) == ParseFloat([a, b, c])
  {
    WholeNumber([a, b, c]);
    ThreeDigitValue(a, b, c);
  }

  lemma ThreeDigitValue(a: char, b: char, c: char)
    ensures IntValue([a, b, c]) == DigitValue(a) * 100 + DigitValue(b) * 10 + DigitValue(c)
  {
    assert [a, b, c][..2] == [a, b] && [a, b][..1] == [a] && [a][..0] == [];
    assert IntValue([a]) == DigitValue(a);
    assert IntValue([a, b]) == DigitValue(a) * 10 + DigitValue(b);
  }

  lemma DivideThenMultiply(d: real, m: real, b: real)
    requires m > 0.0
    ensures d / m * b * m == d * b
  {
  }

  lemma FractionOfWhole(d: real, m: real, b: real)
    requires 0.0 <= d <= m && m > 0.0 && b >= 0.0
    ensures 0.0 <= d / m * b <= b
  {
    assert 0.0 <= d / m <= 1.0;
    assert d / m * b <= 1.0 * b;
  }

  lemma ShareOfSum(d1: real, d2: real, m: real, b: real)
    requires m > 0.0
    ensures d1 / m * b + d2 / m * b == (d1 + d2) / m * b
  {
  }
}
