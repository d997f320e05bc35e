/**
 * What the sale, purchase and sales-return handlers share: the document lines of a request, the
 * errors the handlers raise, the document total, the sign a return gives its amounts, and the
 * rate a cash entry is booked at.
 */
module HandlerLines {
  import opened Common
  import opened Books
  import opened CurrencyExchange

  /** A line of a request; `price` is the cost on a purchase line. */
  datatype LineRequest = LineRequest(itemId: int, qty: real, price: real, total: real)

  /** The ArgumentExceptions the handlers throw. */
  datatype HandlerError =
    | CurrencyIdNotPositive
    | CurrencyNotFound(currencyId: int)
    | NoItems
    | InvalidItemId(itemId: int)
    | ItemNotFound(itemId: int)
    | BadQuantity(itemId: int)
    | BadPrice(itemId: int)
    | CustomerNotFound(customerId: int)
    | SupplierNotFound(supplierId: int)

  /** The sum of the line totals as the request gives them; quantities and prices are not consulted. */
  function TotalOf(lines: seq<LineRequest>): real
  {
    if lines == [] then 0.0 else TotalOf(lines[..|lines| - 1]) + lines[|lines| - 1].total
  }

  /** The sum of the line totals of a stored document. */
  function RowsTotal(rows: seq<LineRow>): real
  {
    if rows == [] then 0.0 else RowsTotal(rows[..|rows| - 1]) + rows[|rows| - 1].total
  }

  /** An amount as a document stores it: negated on a return. */
  function Signed(isReturn: bool, x: real): real
  {
    if isReturn then -x else x
  }

  /** A request line as stored: a return negates the quantity and the total and keeps the price. */
  function StoredLine(l: LineRequest, isReturn: bool): LineRow
  {
    LineRow(l.itemId, Signed(isReturn, l.qty), l.price, Signed(isReturn, l.total))
  }

  function StoredLines(lines: seq<LineRequest>, isReturn: bool): (rows: seq<LineRow>)
    ensures |rows| == |lines|
    ensures forall i :: 0 <= i < |lines| ==> rows[i] == StoredLine(lines[i], isReturn)
  {
    seq(|lines|, i requires 0 <= i < |lines| => StoredLine(lines[i], isReturn))
  }

  /** The stored lines add up to the document's stored total: the request total, negated on a return. */
  lemma {:induction false} StoredLinesTotal(lines: seq<LineRequest>, isReturn: bool)
    ensures RowsTotal(StoredLines(lines, isReturn)) == Signed(isReturn, TotalOf(lines))
  {
    if lines != [] {
      var init := lines[..|lines| - 1];
      StoredLinesTotal(init, isReturn);
      assert StoredLines(lines, isReturn)[..|lines| - 1] == StoredLines(init, isReturn);
    }
  }

  /** The loop that adds the request lines to the new document. */
  method BuildLines(lines: seq<LineRequest>, isReturn: bool) returns (rows: seq<LineRow>)
    ensures rows == StoredLines(lines, isReturn)
    ensures RowsTotal(rows) == Signed(isReturn, TotalOf(lines))
  {
    rows := [];
    for i := 0 to |lines|
      invariant rows == StoredLines(lines[..i], isReturn)
    {
      rows := rows + [StoredLine(lines[i], isReturn)];
      assert lines[..i + 1][..i] == lines[..i];
    }
    assert lines[..|lines|] == lines;
    StoredLinesTotal(lines, isReturn);
  }

  /** The rate a document's cash entry is booked at: the currency's current rate, or 1 when the currency is missing. */
  function BookingRate(cs: seq<Currency>, currencyId: int): real
  {
    match CurrencyWithId(cs, currencyId)
    case None => 1.0
    case Some(c) => c.currentExchangeRate
  }

  /** Whether a party with the given id exists. */
  predicate HasParty(parties: seq<Party>, id: int)
  {
    FindBy(parties, PartyId, id).Some?
  }
}
