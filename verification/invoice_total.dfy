/** Line-item validation and the overflow-checked total of invoice creation. */
module InvoiceTotal {
  import opened MachineInt
  import opened Text
  import opened Wrappers

  datatype ItemInput = ItemInput(description: string, quantity: int32, unitAmountCents: int64)

  /** Item numbers in errors count from one, as the messages do. */
  datatype TotalError =
    | NoItems
    | DescriptionRequired(item: nat)
    | QuantityNotPositive(item: nat)
    | UnitAmountNegative(item: nat)
    | LineOverflow(item: nat)
    | TotalOverflow

  /** The exact, unbounded amount of one line. */
  function LineAmount(itm: ItemInput): int {
    itm.quantity * itm.unitAmountCents
  }

  function LineAmounts(items: seq<ItemInput>): (amounts: seq<int>)
    ensures |amounts| == |items|
    ensures forall i :: 0 <= i < |items| ==> amounts[i] == LineAmount(items[i])
  {
    seq(|items|, i requires 0 <= i < |items| => LineAmount(items[i]))
  }

  function SumOf(amounts: seq<int>): int {
    if amounts == [] then 0 else SumOf(amounts[..|amounts| - 1]) + amounts[|amounts| - 1]
  }

  /** The exact, unbounded sum of all lines. */
  function Sum(items: seq<ItemInput>): int {
    SumOf(LineAmounts(items))
  }

  predicate ValidItem(itm: ItemInput) {
    && TrimSpace(itm.description) != ""
    && itm.quantity > 0
    && itm.unitAmountCents >= 0
  }

  /** Valid lines whose exact sum an int64 can hold. */
  predicate Fits(items: seq<ItemInput>) {
    && (forall i :: 0 <= i < |items| ==> ValidItem(items[i]))
    && Sum(items) <= MAX_INT64
  }

  /** What each error promises: everything before the reported item was fine. */
  predicate Explains(items: seq<ItemInput>, e: TotalError) {
    match e
    case NoItems => items == []
    case TotalOverflow => exists n :: 0 <= n < |items| && Overflows(items, n)
    case _ =>
      && 1 <= e.item <= |items|
      && Fits(items[..e.item - 1])
      && BadItem(items[e.item - 1], e)
  }

  predicate Overflows(items: seq<ItemInput>, n: nat)
    requires n < |items|
  {
    && Fits(items[..n])
    && ValidItem(items[n])
    && LineAmount(items[n]) <= MAX_INT64
    && Sum(items[..n]) + LineAmount(items[n]) > MAX_INT64
  }

  predicate BadItem(itm: ItemInput, e: TotalError) {
    var described := TrimSpace(itm.description) != "";
    match e
    case DescriptionRequired(_) => !described
    case QuantityNotPositive(_) => described && itm.quantity <= 0
    case UnitAmountNegative(_) => described && itm.quantity > 0 && itm.unitAmountCents < 0
    case LineOverflow(_) => ValidItem(itm) && LineAmount(itm) > MAX_INT64
    case _ => false
  }

  /** The division test is sound and complete as an overflow test on wrapped products. */
  lemma DivisionTest(q: int32, u: int64)
    requires q > 0 && u >= 0
    ensures (u > 0 && TruncDiv(Wrap(q * u), u) != q) <==> q * u > MAX_INT64
    ensures q * u <= MAX_INT64 ==> Wrap(q * u) == q * u
  {
    var p := q * u;
    ProductNonNegative(q, u);
    if p > MAX_INT64 {
      WrapShrinks(p);
      var w: int := Wrap(p);
      QuotientBound(if w >= 0 then w else -w, u);
    } else if u > 0 {
      QuotientExact(q, u);
    }
  }

  lemma ProductNonNegative(a: int, b: int)
    requires a >= 0 && b >= 0
    ensures a * b >= 0
    ensures b == 0 ==> a * b == 0
  {
  }

  lemma WrapShrinks(p: int)
    requires p > MAX_INT64
    ensures Wrap(p) < p
  {
  }

  lemma QuotientBound(a: int, u: int)
    requires a >= 0 && u > 0
    ensures 0 <= a / u && (a / u) * u <= a
  {
  }

  lemma QuotientExact(q: int, u: int)
    requires u > 0
    ensures (q * u) / u == q
  {
    var d := (q * u) / u;
    assert q * u == d * u + (q * u) % u;
    if d < q {
      MulStrict(d + 1, q, u);
    } else if d > q {
      MulStrict(q, d, u);
    }
  }

  lemma MulStrict(a: int, b: int, u: int)
    requires a <= b && u > 0
    ensures a * u <= b * u
    ensures a < b ==> a * u + u <= b * u
  {
    if a < b {
      assert (a + 1) * u <= b * u;
    }
  }

  /** The comparison test is sound and complete as an overflow test on wrapped sums. */
  lemma ComparisonTest(total: int64, line: int64)
    requires total >= 0 && line >= 0
    ensures Wrap(total + line) < total <==> total + line > MAX_INT64
    ensures total + line <= MAX_INT64 ==> Wrap(total + line) == total + line
  {
  }

  /** Prefix sums of non-negative amounts never decrease. */
  lemma {:induction false} SumGrows(amounts: seq<int>, n: nat)
    requires n <= |amounts|
    requires forall i :: 0 <= i < |amounts| ==> amounts[i] >= 0
    ensures 0 <= SumOf(amounts[..n]) <= SumOf(amounts)
  {
    if amounts != [] {
      var front := amounts[..|amounts| - 1];
      if n == |amounts| {
        assert amounts[..n] == amounts;
        SumGrows(front, n - 1);
      } else {
        assert front[..n] == amounts[..n];
        SumGrows(front, n);
      }
    }
  }

  lemma ValidLine(itm: ItemInput)
    requires ValidItem(itm)
    ensures LineAmount(itm) >= 0
  {
    ProductNonNegative(itm.quantity, itm.unitAmountCents);
  }

  lemma SumAtPrefix(items: seq<ItemInput>, n: nat)
    requires n < |items|
    ensures Sum(items[..n + 1]) == Sum(items[..n]) + LineAmount(items[n])
    ensures Sum(items[..n + 1]) == SumOf(LineAmounts(items)[..n + 1])
  {
    assert LineAmounts(items)[..n + 1] == LineAmounts(items[..n + 1]);
    assert LineAmounts(items[..n + 1])[..n] == LineAmounts(items[..n]);
  }

  lemma ValidLines(items: seq<ItemInput>)
    requires forall i :: 0 <= i < |items| ==> ValidItem(items[i])
    ensures forall i :: 0 <= i < |items| ==> LineAmounts(items)[i] >= 0
  {
    forall i | 0 <= i < |items| ensures LineAmounts(items)[i] >= 0 {
      ValidLine(items[i]);
    }
  }

  lemma StepBelowSum(amounts: seq<int>, n: nat)
    requires n < |amounts|
    requires forall i :: 0 <= i < |amounts| ==> amounts[i] >= 0
    ensures 0 <= SumOf(amounts[..n])
    ensures SumOf(amounts[..n]) + amounts[n] <= SumOf(amounts)
  {
    SumGrows(amounts, n);
    SumGrows(amounts, n + 1);
    assert amounts[..n + 1][..n] == amounts[..n];
  }

  /** Every prefix of a list that fits also fits, with its next line in range. */
  lemma FitsPrefix(items: seq<ItemInput>, n: nat)
    requires Fits(items) && n < |items|
    ensures Sum(items[..n]) + LineAmount(items[n]) <= MAX_INT64
    ensures LineAmount(items[n]) <= MAX_INT64
  {
    ValidLines(items);
    StepBelowSum(LineAmounts(items), n);
    assert LineAmounts(items)[..n] == LineAmounts(items[..n]);
  }

  lemma FitsInInt64(items: seq<ItemInput>)
    requires Fits(items)
    ensures 0 <= Sum(items) <= MAX_INT64
  {
    ValidLines(items);
    SumGrows(LineAmounts(items), 0);
  }

  /** An explained error rules acceptance out, so the two outcomes exclude each other. */
  lemma ExplainedIsRejected(items: seq<ItemInput>, e: TotalError)
    requires Explains(items, e)
    ensures items == [] || !Fits(items)
  {
    if items != [] && Fits(items) {
      var n: nat;
      if e == TotalOverflow {
        n :| 0 <= n < |items| && Overflows(items, n);
      } else {
        n := e.item - 1;
      }
      FitsPrefix(items, n);
    }
  }

  /** Items are numbered from one. */
  lemma NumbersStartAtOne(items: seq<ItemInput>, e: TotalError)
    requires Explains(items, e) && e != NoItems && e != TotalOverflow && |items| == 1
    ensures e.item == 1
  {
  }

  /** The wrapped product of one valid line, with the division test on it. */
  method CheckedLine(itm: ItemInput) returns (lineTotal: int64, overflowed: bool)
    requires ValidItem(itm)
    ensures overflowed <==> LineAmount(itm) > MAX_INT64
    ensures !overflowed ==> lineTotal == LineAmount(itm) >= 0
  {
    lineTotal := Wrap(itm.quantity * itm.unitAmountCents);
    overflowed := itm.unitAmountCents > 0 && TruncDiv(lineTotal, itm.unitAmountCents) != itm.quantity;
    DivisionTest(itm.quantity, itm.unitAmountCents);
    ProductNonNegative(itm.quantity, itm.unitAmountCents);
  }

  /** The validation and total loop of invoice creation, over wrapping int64 arithmetic. */
  method ComputeTotal(items: seq<ItemInput>) returns (r: Result<int64, TotalError>)
    ensures r.Ok? <==> items != [] && Fits(items)
    ensures r.Ok? ==> r.value == Sum(items)
    ensures r.Ok? ==> forall i :: 0 <= i < |items| ==> items[i].quantity > 0 && items[i].unitAmountCents >= 0
    ensures r.Err? ==> Explains(items, r.error)
  {
    if |items| == 0 {
      return Err(NoItems);
    }
    r := AddLines(items);
    if r.Err? {
      ExplainedIsRejected(items, r.error);
    }
  }

  /** One turn of the loop up to the line's amount; n is the item's number. */
  method CheckItem(itm: ItemInput, n: nat) returns (r: Result<int64, TotalError>)
    ensures r.Ok? ==> ValidItem(itm) && r.value == LineAmount(itm) >= 0
    ensures r.Err? ==> BadItem(itm, r.error) && r.error.item == n
  {
    if TrimSpace(itm.description) == "" {
      return Err(DescriptionRequired(n));
    }
    if itm.quantity <= 0 {
      return Err(QuantityNotPositive(n));
    }
    if itm.unitAmountCents < 0 {
      return Err(UnitAmountNegative(n));
    }
    var lineTotal, overflowed := CheckedLine(itm);
    return if overflowed then Err(LineOverflow(n)) else Ok(lineTotal);
  }

  lemma BadItemExplains(items: seq<ItemInput>, i: nat, e: TotalError)
    requires i < |items| && Fits(items[..i]) && BadItem(items[i], e) && e.item == i + 1
    ensures Explains(items, e)
  {
  }

  lemma OverflowExplains(items: seq<ItemInput>, i: nat)
    requires i < |items| && Overflows(items, i)
    ensures Explains(items, TotalOverflow)
  {
  }

  lemma OneMoreFits(items: seq<ItemInput>, i: nat)
    requires i < |items| && Fits(items[..i]) && ValidItem(items[i])
    requires Sum(items[..i]) + LineAmount(items[i]) <= MAX_INT64
    ensures Fits(items[..i + 1]) && Sum(items[..i + 1]) == Sum(items[..i]) + LineAmount(items[i])
  {
    SumAtPrefix(items, i);
    assert forall j :: 0 <= j < i ==> items[..i + 1][j] == items[..i][j];
  }

  method AddLines(items: seq<ItemInput>) returns (r: Result<int64, TotalError>)
    ensures r.Ok? ==> Fits(items) && r.value == Sum(items)
    ensures r.Err? ==> Explains(items, r.error)
  {
    var total: int64 := 0;
    for i := 0 to |items|
      invariant Fits(items[..i])
      invariant 0 <= total == Sum(items[..i])
    {
      var line := CheckItem(items[i], i + 1);
      if line.Err? {
        BadItemExplains(items, i, line.error);
        return Err(line.error);
      }
      ComparisonTest(total, line.value);
      var newTotal := Wrap(total + line.value);
      if newTotal < total {
        OverflowExplains(items, i);
        return Err(TotalOverflow);
      }
      OneMoreFits(items, i);
      total := newTotal;
    }
    assert items[..|items|] == items;
    return Ok(total);
  }
}
