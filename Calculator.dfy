/**
 * The totals of an invoice from its lines: each line contributes
 * qty * unitPrice to the subtotal and that line total times its VAT rate to
 * the VAT total; the grand total is their sum. Decimal arithmetic is exact.
 */
module Calculator {

  /** One (qty, unitPrice, vatRate) triple. */
  datatype Line = Line(qty: int, unitPrice: real, vatRate: real)

  datatype Totals = Totals(subtotal: real, vatTotal: real, total: real)

  function LineTotal(l: Line): real
  {
    l.qty as real * l.unitPrice
  }

  function VatAmount(l: Line): real
  {
    LineTotal(l) * l.vatRate
  }

  /** The sum of the line totals. */
  function Subtotal(lines: seq<Line>): real
  {
    if lines == [] then 0.0
    else Subtotal(lines[..|lines| - 1]) + LineTotal(lines[|lines| - 1])
  }

  /** The sum of the VAT amounts. */
  function VatTotal(lines: seq<Line>): real
  {
    if lines == [] then 0.0
    else VatTotal(lines[..|lines| - 1]) + VatAmount(lines[|lines| - 1])
  }

  /** Accumulates the subtotal and the VAT over the lines, in order. */
  method Calculate(lines: seq<Line>) returns (t: Totals)
    ensures t.subtotal == Subtotal(lines)
    ensures t.vatTotal == VatTotal(lines)
    ensures t.total == t.subtotal + t.vatTotal
    ensures lines == [] ==> t == Totals(0.0, 0.0, 0.0)
  {
    var subtotal, vat := 0.0, 0.0;
    for i := 0 to |lines|
      invariant subtotal == Subtotal(lines[..i])
      invariant vat == VatTotal(lines[..i])
    {
      var lineTotal := lines[i].qty as real * lines[i].unitPrice;
      var vatAmount := lineTotal * lines[i].vatRate;
      subtotal := subtotal + lineTotal;
      vat := vat + vatAmount;
      assert lines[..i + 1][..i] == lines[..i];
    }
    assert lines[..|lines|] == lines;
    t := Totals(subtotal, vat, subtotal + vat);
  }

  /** Totals are additive: the lines of two lists together give the componentwise sum. */
  lemma {:induction false} TotalsOfConcat(a: seq<Line>, b: seq<Line>)
    ensures Subtotal(a + b) == Subtotal(a) + Subtotal(b)
    ensures VatTotal(a + b) == VatTotal(a) + VatTotal(b)
    ensures Subtotal(a + b) + VatTotal(a + b) == (Subtotal(a) + VatTotal(a)) + (Subtotal(b) + VatTotal(b))
    decreases |b|
  {
    if b == [] {
      assert a + b == a;
    } else {
      var init := b[..|b| - 1];
      assert (a + b)[..|a + b| - 1] == a + init;
      TotalsOfConcat(a, init);
    }
  }

  lemma MulNonNegative(x: real, y: real)
    requires 0.0 <= x && 0.0 <= y
    ensures 0.0 <= x * y
  {
  }

  /** Lines with non-negative quantities, prices and rates give non-negative totals. */
  lemma {:induction false} TotalsNonNegative(lines: seq<Line>)
    requires forall i :: 0 <= i < |lines| ==> 0 <= lines[i].qty && 0.0 <= lines[i].unitPrice && 0.0 <= lines[i].vatRate
    ensures 0.0 <= Subtotal(lines) && 0.0 <= VatTotal(lines)
    ensures Subtotal(lines) <= Subtotal(lines) + VatTotal(lines)
  {
    if lines != [] {
      var l := lines[|lines| - 1];
      TotalsNonNegative(lines[..|lines| - 1]);
      MulNonNegative(l.qty as real, l.unitPrice);
      MulNonNegative(LineTotal(l), l.vatRate);
    }
  }
}
