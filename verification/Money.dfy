/** Invoice lines, subtotals and totals, and the price of a shipment's weight, in cents. */
module Money {
  import opened Rounding

  // ---- billing ----

  datatype Line = Line(quantity: Decimal, unitPrice: Decimal)

  function LineAmount(line: Line): int {
    RoundMoney(Product(line.quantity, line.unitPrice))
  }

  function SumOf(amounts: seq<int>): int {
    if amounts == [] then 0 else SumOf(amounts[..|amounts| - 1]) + amounts[|amounts| - 1]
  }

  /** `round_money(sum(amounts))` over amounts in cents. */
  function Subtotal(amounts: seq<int>): int {
    RoundMoney(Cents(SumOf(amounts)))
  }

  function InvoiceTotal(subtotal: int, tax: Decimal): int {
    RoundMoney(Sum(Cents(subtotal), tax))
  }

  function LineAmounts(lines: seq<Line>): seq<int> {
    seq(|lines|, i requires 0 <= i < |lines| => LineAmount(lines[i]))
  }

  /** A line's amount is its quantity times its unit price, to the nearest cent. */
  lemma LineIsNearest(line: Line)
    ensures IsNearest(LineAmount(line), Value(line.quantity) * Value(line.unitPrice))
  {
    RoundedProductIsNearest(line.quantity, line.unitPrice);
  }

  /** The unrounded value of the lines, in units of a scale that is fine enough for all of them. */
  function ExactUnits(lines: seq<Line>, scale: nat): int
    requires forall i :: 0 <= i < |lines| ==> lines[i].quantity.scale + lines[i].unitPrice.scale <= scale
  {
    if lines == [] then 0
    else
      var last := lines[|lines| - 1];
      ExactUnits(lines[..|lines| - 1], scale) + UnitsAt(Product(last.quantity, last.unitPrice), scale)
  }

  lemma LineIsWithinHalfACent(line: Line, scale: nat)
    requires line.quantity.scale + line.unitPrice.scale <= scale && scale >= 2
    ensures var exact, cents, d := UnitsAt(Product(line.quantity, line.unitPrice), scale), LineAmount(line),
                                   Pow10(scale - 2);
            2 * exact - d <= 2 * (d * cents) <= 2 * exact + d
  {
    var product := Product(line.quantity, line.unitPrice);
    var exact, d := UnitsAt(product, scale), Pow10(scale - 2);
    RescalingKeepsRounding(product, scale);
    if scale > 2 {
      HalfUpIsNearest(exact, d);
    } else {
      HalfUpOnWholes(exact, 0, 1);
    }
  }

  lemma OneMoreLine(exact: int, lineExact: int, sum: int, amount: int, d: nat, n: nat)
    requires 2 * exact - n * d <= 2 * (d * sum) <= 2 * exact + n * d
    requires 2 * lineExact - d <= 2 * (d * amount) <= 2 * lineExact + d
    ensures 2 * (exact + lineExact) - (n + 1) * d <= 2 * (d * (sum + amount)) <= 2 * (exact + lineExact) + (n + 1) * d
  {
    assert d * (sum + amount) == d * sum + d * amount;
    assert (n + 1) * d == n * d + d;
  }

  lemma {:induction false} AmountsAreClose(lines: seq<Line>, scale: nat)
    requires scale >= 2
    requires forall i :: 0 <= i < |lines| ==> lines[i].quantity.scale + lines[i].unitPrice.scale <= scale
    ensures var exact, d := ExactUnits(lines, scale), Pow10(scale - 2);
            2 * exact - |lines| * d <= 2 * (d * SumOf(LineAmounts(lines))) <= 2 * exact + |lines| * d
  {
    var d := Pow10(scale - 2);
    if lines == [] {
      assert d * SumOf(LineAmounts(lines)) == 0;
    } else {
      var front, last := lines[..|lines| - 1], lines[|lines| - 1];
      AmountsAreClose(front, scale);
      LineIsWithinHalfACent(last, scale);
      assert LineAmounts(lines)[..|front|] == LineAmounts(front);
      OneMoreLine(ExactUnits(front, scale), UnitsAt(Product(last.quantity, last.unitPrice), scale),
                  SumOf(LineAmounts(front)), LineAmount(last), d, |front|);
    }
  }

  /**
   The subtotal is exactly the sum of the rounded lines, and within half a cent per line of the unrounded sum (in
   units of the lines' own scale, of which a cent is `d`).
   */
  lemma SubtotalIsClose(lines: seq<Line>, scale: nat)
    requires scale >= 2
    requires forall i :: 0 <= i < |lines| ==> lines[i].quantity.scale + lines[i].unitPrice.scale <= scale
    ensures Subtotal(LineAmounts(lines)) == SumOf(LineAmounts(lines))
    ensures var exact, d := ExactUnits(lines, scale), Pow10(scale - 2);
            2 * exact - |lines| * d <= 2 * (d * Subtotal(LineAmounts(lines))) <= 2 * exact + |lines| * d
  {
    AmountsAreClose(lines, scale);
    assert Pow10(0) == 1;
  }

  /**
   The stored total is the stored subtotal plus the tax rounded to cents, as the table's check demands of its columns,
   for every subtotal and tax the other checks allow.
   */
  lemma TotalMatchesComponents(subtotal: nat, tax: Decimal)
    requires tax.units >= 0
    ensures InvoiceTotal(subtotal, tax) == subtotal + RoundMoney(tax)
  {
    if tax.scale <= 2 {
      var p := Pow10(2 - tax.scale);
      assert Sum(Cents(subtotal), tax) == Decimal(subtotal * 1 + tax.units * p, 2);
    } else {
      var d := Pow10(tax.scale - 2);
      assert Sum(Cents(subtotal), tax) == Decimal(subtotal * d + tax.units * 1, tax.scale);
      assert subtotal * d == d * subtotal;
      WholesPassThrough(subtotal, tax.units, d);
    }
  }

  // ---- pricing ----

  datatype WeightUnit = Kg | Lb

  /** 0.45359237, the kilograms in a pound. */
  const LB_TO_KG := Decimal(45359237, 8)

  function WeightInKg(weight: Decimal, unit: WeightUnit): Decimal {
    match unit
    case Kg => weight
    case Lb => Product(weight, LB_TO_KG)
  }

  function WeightCharge(weight: Decimal, unit: WeightUnit, pricePerKg: Decimal): int {
    RoundMoney(Product(WeightInKg(weight, unit), pricePerKg))
  }

  function TotalAmount(baseAmount: Decimal, surcharge: Decimal): int {
    RoundMoney(Sum(baseAmount, surcharge))
  }

  lemma RoundingIsMonotone(a: Decimal, b: Decimal)
    requires a.scale == b.scale && a.units <= b.units
    ensures RoundMoney(a) <= RoundMoney(b)
  {
    if a.scale <= 2 {
      if a.units < b.units {
        Scales(a.units, b.units, Pow10(2 - a.scale));
      }
    } else {
      HalfUpIsMonotone(a.units, b.units, Pow10(a.scale - 2));
    }
  }

  lemma ProductIsMonotone(x: int, y: int, factor: nat)
    requires x <= y
    ensures x * factor <= y * factor
  {
  }

  /** The order of two values, written at whatever scales. */
  predicate AtMost(a: Decimal, b: Decimal) {
    a.units * Pow10(b.scale) <= b.units * Pow10(a.scale)
  }

  lemma SameScaleChargeIsMonotone(lighter: nat, heavier: nat, scale: nat, unit: WeightUnit, price: Decimal)
    requires lighter <= heavier && price.units >= 0
    ensures WeightCharge(Decimal(lighter, scale), unit, price) <= WeightCharge(Decimal(heavier, scale), unit, price)
  {
    ProductIsMonotone(lighter, heavier, LB_TO_KG.units);
    ProductIsMonotone(lighter, heavier, price.units);
    ProductIsMonotone(lighter * LB_TO_KG.units, heavier * LB_TO_KG.units, price.units);
    RoundingIsMonotone(Product(WeightInKg(Decimal(lighter, scale), unit), price),
                       Product(WeightInKg(Decimal(heavier, scale), unit), price));
  }

  /** A weight rewritten at a finer scale costs the same. */
  lemma RescalingKeepsCharge(weight: Decimal, extra: nat, unit: WeightUnit, price: Decimal)
    ensures WeightCharge(Decimal(UnitsAt(weight, weight.scale + extra), weight.scale + extra), unit, price)
            == WeightCharge(weight, unit, price)
  {
    var fine := Decimal(UnitsAt(weight, weight.scale + extra), weight.scale + extra);
    var coarse := Product(WeightInKg(weight, unit), price);
    RescalingKeepsRounding(coarse, coarse.scale + extra);
    if unit.Kg? {
      Commutes(weight.units, Pow10(extra), price.units);
    } else {
      Commutes(weight.units, Pow10(extra), LB_TO_KG.units);
      Commutes(weight.units * LB_TO_KG.units, Pow10(extra), price.units);
    }
    assert Product(WeightInKg(fine, unit), price)
        == Decimal(UnitsAt(coarse, coarse.scale + extra), coarse.scale + extra);
  }

  lemma Commutes(a: int, b: int, c: int)
    ensures (a * b) * c == (a * c) * b
  {
  }

  lemma PoundsCostLess(weight: nat, scale: nat, price: Decimal)
    requires price.units >= 0
    ensures WeightCharge(Decimal(weight, scale), Lb, price) <= WeightCharge(Decimal(weight, scale), Kg, price)
  {
    var inLb := Product(WeightInKg(Decimal(weight, scale), Lb), price);
    var inKg := Product(Decimal(weight, scale), price);
    PoundsAreLess(weight, price.units);
    RescalingKeepsRounding(inKg, inLb.scale);
    RoundingIsMonotone(inLb, Decimal(UnitsAt(inKg, inLb.scale), inLb.scale));
  }

  /** A heavier shipment is never charged less, in either unit, and a pound never more than a kilogram. */
  lemma ChargeIsMonotone(lighter: Decimal, heavier: Decimal, unit: WeightUnit, price: Decimal)
    requires lighter.units >= 0 && heavier.units >= 0 && AtMost(lighter, heavier) && price.units >= 0
    ensures WeightCharge(lighter, unit, price) <= WeightCharge(heavier, unit, price)
    ensures WeightCharge(lighter, Lb, price) <= WeightCharge(heavier, Kg, price)
  {
    var a, b := UnitsAt(lighter, lighter.scale + heavier.scale), UnitsAt(heavier, heavier.scale + lighter.scale);
    var scale := lighter.scale + heavier.scale;
    assert a >= 0 && a <= b;
    forall u: WeightUnit ensures WeightCharge(lighter, u, price) <= WeightCharge(heavier, u, price) {
      RescalingKeepsCharge(lighter, heavier.scale, u, price);
      RescalingKeepsCharge(heavier, lighter.scale, u, price);
      SameScaleChargeIsMonotone(a, b, scale, u, price);
    }
    PoundsCostLess(lighter.units, lighter.scale, price);
  }

  lemma PoundsAreLess(weight: nat, price: nat)
    ensures (weight * LB_TO_KG.units) * price <= (weight * price) * Pow10(8)
  {
    assert Pow10(8) == 100000000 by {
      assert Pow10(4) == 10000;
      Pow10Adds(4, 4);
    }
    assert (weight * LB_TO_KG.units) * price == (weight * price) * LB_TO_KG.units;
    ProductIsMonotone(LB_TO_KG.units, Pow10(8), weight * price);
  }

  /** The quoted total is the sum of its two stored components, which are cent amounts. */
  lemma QuoteMatchesComponents(baseAmount: int, surcharge: int)
    ensures TotalAmount(Cents(baseAmount), Cents(surcharge)) == baseAmount + surcharge
  {
    assert Sum(Cents(baseAmount), Cents(surcharge)) == Cents(baseAmount + surcharge);
  }

  /** The charge is the weight in kilograms, a pound being 0.45359237 of one, times the price, to the nearest cent. */
  lemma ChargeIsNearest(weight: Decimal, unit: WeightUnit, price: Decimal)
    ensures IsNearest(WeightCharge(weight, unit, price), Value(WeightInKg(weight, unit)) * Value(price))
    ensures Value(WeightInKg(weight, Kg)) == Value(weight)
    ensures Value(WeightInKg(weight, Lb)) == Value(weight) * 0.45359237
  {
    RoundedProductIsNearest(WeightInKg(weight, unit), price);
    PoundsAreConverted(weight);
  }

  lemma PoundsAreConverted(weight: Decimal)
    ensures Value(Product(weight, LB_TO_KG)) == Value(weight) * 0.45359237
  {
    PoundIsWorth();
    ProductMultiplies(weight, LB_TO_KG);
  }

  lemma PoundIsWorth()
    ensures Value(LB_TO_KG) == 0.45359237
  {
    assert Pow10(4) == 10000;
    Pow10Adds(4, 4);
    QuotientIsUnique(45359237.0, 100000000.0, 0.45359237);
  }

  /** Totals of any two amounts are their sum, to the nearest cent. */
  lemma TotalsAreNearest(amount: Decimal, more: Decimal, subtotal: int)
    ensures IsNearest(TotalAmount(amount, more), Value(amount) + Value(more))
    ensures IsNearest(InvoiceTotal(subtotal, more), subtotal as real / 100.0 + Value(more))
  {
    SumAdds(amount, more);
    RoundMoneyIsNearest(Sum(amount, more));
    SumAdds(Cents(subtotal), more);
    RoundMoneyIsNearest(Sum(Cents(subtotal), more));
    assert Pow10(2) == 100;
  }
}
