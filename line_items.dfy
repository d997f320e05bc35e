/**
 * The item lines of a bulk sale or purchase request: their validation, their entered total and
 * the stored lines built from them.
 */
module ItemLines {
  import opened Common
  import opened LedgerTypes

  /** One requested line: product id, quantity and unit price in the request's currency. */
  datatype ItemInput = ItemInput(product: nat, quantity: real, unitPrice: real)

  /** How one line (or the first offending line of a request) is judged. */
  datatype LineCheck = LinesOk | UnknownProduct | BadLine

  /** The product is looked up first; then quantity must be positive and the price not negative. */
  function LineVerdict(products: set<nat>, it: ItemInput): LineCheck
  {
    if it.product !in products then UnknownProduct
    else if it.quantity <= 0.0 || it.unitPrice < 0.0 then BadLine
    else LinesOk
  }

  /** The verdict of the first offending line, or `LinesOk` when every line passes. */
  function CheckLines(products: set<nat>, items: seq<ItemInput>): (c: LineCheck)
    ensures c == LinesOk <==> forall i :: 0 <= i < |items| ==> LineVerdict(products, items[i]) == LinesOk
    ensures c != LinesOk ==>
      exists k :: 0 <= k < |items| && c == LineVerdict(products, items[k]) &&
                  forall i :: 0 <= i < k ==> LineVerdict(products, items[i]) == LinesOk
  {
    if items == [] then LinesOk
    else
      var front := items[..|items| - 1];
      assert forall i :: 0 <= i < |front| ==> front[i] == items[i];
      var prev := CheckLines(products, front);
      if prev != LinesOk then prev
      else LineVerdict(products, items[|items| - 1])
  }

  /** The sum of quantity times unit price over the lines. */
  function ItemsTotal(items: seq<ItemInput>): real
  {
    if items == [] then 0.0
    else ItemsTotal(items[..|items| - 1]) + items[|items| - 1].quantity * items[|items| - 1].unitPrice
  }

  /** Lines that pass validation have a non-negative entered total. */
  lemma {:induction false} ItemsTotalNonNegative(products: set<nat>, items: seq<ItemInput>)
    requires CheckLines(products, items) == LinesOk
    ensures ItemsTotal(items) >= 0.0
    decreases |items|
  {
    if items != [] {
      var front := items[..|items| - 1];
      assert forall i :: 0 <= i < |front| ==> front[i] == items[i];
      ItemsTotalNonNegative(products, front);
      var last := items[|items| - 1];
      assert LineVerdict(products, last) == LinesOk;
      assert last.quantity * last.unitPrice >= 0.0;
    }
  }

  /** The stored line for one requested line: a return stores the quantity negated. */
  function StoredLine(doc: nat, it: ItemInput, currency: string, rate: real, negate: bool): LineItem
  {
    LineItem(doc, it.product, if negate then -it.quantity else it.quantity, it.unitPrice, currency, it.unitPrice * rate)
  }

  function Lines(doc: nat, items: seq<ItemInput>, currency: string, rate: real, negate: bool): seq<LineItem>
  {
    seq(|items|, i requires 0 <= i < |items| => StoredLine(doc, items[i], currency, rate, negate))
  }

  /**
   * Every stored line keeps its requested line's product and entered price, carries the
   * document's currency and the entered price at the document's rate; a return's lines carry
   * negative quantities.
   */
  lemma StoredLinesFollowRequest(products: set<nat>, doc: nat, items: seq<ItemInput>, currency: string, rate: real, negate: bool)
    requires CheckLines(products, items) == LinesOk
    ensures var ls := Lines(doc, items, currency, rate, negate);
      && |ls| == |items|
      && (forall i :: 0 <= i < |ls| ==>
            ls[i].doc == doc && ls[i].product == items[i].product && ls[i].unitPriceEntered == items[i].unitPrice
            && ls[i].currency == currency && ls[i].unitPriceBase == items[i].unitPrice * rate)
      && (forall i :: 0 <= i < |ls| ==> if negate then ls[i].quantity == -items[i].quantity < 0.0 else ls[i].quantity == items[i].quantity > 0.0)
  {
    assert forall i :: 0 <= i < |items| ==> LineVerdict(products, items[i]) == LinesOk;
  }

  /** A stored line's amount in the base currency. */
  function LineBase(l: LineItem): real
  {
    l.quantity * l.unitPriceBase
  }

  /** The sum of quantity times base unit price over stored lines. */
  function LinesBaseTotal(lines: seq<LineItem>): real
  {
    if lines == [] then 0.0
    else LinesBaseTotal(lines[..|lines| - 1]) + LineBase(lines[|lines| - 1])
  }

  /**
   * The stored lines' base total is the requested lines' entered total at the request's rate,
   * negated for a return.
   */
  lemma {:induction false} LinesBaseTotalIsRated(doc: nat, items: seq<ItemInput>, currency: string, rate: real, negate: bool)
    ensures !negate ==> LinesBaseTotal(Lines(doc, items, currency, rate, negate)) == ItemsTotal(items) * rate
    ensures negate ==> LinesBaseTotal(Lines(doc, items, currency, rate, negate)) == -(ItemsTotal(items) * rate)
    decreases |items|
  {
    var ls := Lines(doc, items, currency, rate, negate);
    if items == [] {
      assert ls == [];
    } else {
      var front := items[..|items| - 1];
      assert ls[..|ls| - 1] == Lines(doc, front, currency, rate, negate);
      LinesBaseTotalIsRated(doc, front, currency, rate, negate);
      var it := items[|items| - 1];
      assert ls[|ls| - 1] == StoredLine(doc, it, currency, rate, negate);
      assert ItemsTotal(items) == ItemsTotal(front) + it.quantity * it.unitPrice;
      assert LinesBaseTotal(ls) == LinesBaseTotal(ls[..|ls| - 1]) + LineBase(ls[|ls| - 1]);
      StoredLineBase(doc, it, currency, rate, negate);
      ScaleSum(ItemsTotal(front), it.quantity * it.unitPrice, rate);
    }
  }

  /** A return's stored lines total, in the base currency, the negated entered total at the rate. */
  lemma ReturnLinesBase(doc: nat, items: seq<ItemInput>, currency: string, rate: real)
    ensures LinesBaseTotal(Lines(doc, items, currency, rate, true)) == (-ItemsTotal(items)) * rate
  {
    LinesBaseTotalIsRated(doc, items, currency, rate, true);
    var t := ItemsTotal(items);
    assert (-t) * rate == -(t * rate);
  }

  lemma StoredLineBase(doc: nat, it: ItemInput, currency: string, rate: real, negate: bool)
    ensures !negate ==> LineBase(StoredLine(doc, it, currency, rate, negate)) == it.quantity * it.unitPrice * rate
    ensures negate ==> LineBase(StoredLine(doc, it, currency, rate, negate)) == -(it.quantity * it.unitPrice * rate)
  {
  }

  lemma ScaleSum(a: real, b: real, r: real)
    ensures (a + b) * r == a * r + b * r
  {
  }

  /**
   * The first offending line decides: when every line before `i` passes and line `i` does not,
   * the whole request is judged by line `i`.
   */
  lemma FirstFailureDecides(products: set<nat>, items: seq<ItemInput>, i: nat)
    requires i < |items|
    requires CheckLines(products, items[..i]) == LinesOk
    requires LineVerdict(products, items[i]) != LinesOk
    ensures CheckLines(products, items) == LineVerdict(products, items[i])
  {
    assert forall j :: 0 <= j < i ==> items[..i][j] == items[j];
    var c := CheckLines(products, items);
    assert c != LinesOk;
    assert forall j :: 0 <= j < i ==> LineVerdict(products, items[j]) == LinesOk;
  }

  /**
   * Validates the requested lines one by one, stopping at the first offending line, and
   * accumulates the entered total of the lines that pass.
   */
  method ValidateLines(products: set<nat>, items: seq<ItemInput>) returns (check: LineCheck, total: real)
    ensures check == CheckLines(products, items)
    ensures check == LinesOk ==> total == ItemsTotal(items)
  {
    total := 0.0;
    var i := 0;
    while i < |items|
      invariant 0 <= i <= |items|
      invariant CheckLines(products, items[..i]) == LinesOk
      invariant total == ItemsTotal(items[..i])
    {
      var it := items[i];
      if it.product !in products || it.quantity <= 0.0 || it.unitPrice < 0.0 {
        FirstFailureDecides(products, items, i);
        check := if it.product !in products then UnknownProduct else BadLine;
        return;
      }
      assert items[..i + 1][..i] == items[..i];
      total := total + it.quantity * it.unitPrice;
      i := i + 1;
    }
    assert items[..i] == items;
    check := LinesOk;
  }
}
