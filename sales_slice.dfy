/**
 * The sales slice of the front-end store: the sales list, the customers and products offered
 * when selling, the sale being edited, and the status of the requests that fill them.
 */
module SalesSlice {
  import opened Common
  import opened Records

  /** A list response: paginated (`results`) or a bare array. */
  datatype Listing<T> = Paged(results: seq<T>) | Plain(items: seq<T>)

  /** `payload.results || payload`: the page's results when the response is paginated. */
  function ListingRows<T>(payload: Listing<T>): (r: seq<T>)
    ensures payload.Paged? ==> r == payload.results
    ensures payload.Plain? ==> r == payload.items
  {
    match payload
    case Paged(results) => results
    case Plain(items) => items
  }

  /** `message || fallback`: the error message unless it is missing or empty. */
  function MessageOr(message: Option<string>, fallback: string): (r: string)
    ensures message.Some? && message.value != "" ==> r == message.value
    ensures message.None? || message.value == "" ==> r == fallback
  {
    if message.Some? && message.value != "" then message.value else fallback
  }

  const FetchSalesFailed := "Failed to fetch sales"
  const CreateSaleFailed := "Failed to create sale"

  class SalesState<D, C, P> {
    var sales: seq<Entity<D>>
    var customers: seq<C>
    var products: seq<P>
    var loading: bool
    var error: Option<string>
    var currentSale: Option<Entity<D>>

    constructor ()
      ensures sales == [] && customers == [] && products == [] && !loading && error == None && currentSale == None
    {
      sales := [];
      customers := [];
      products := [];
      loading := false;
      error := None;
      currentSale := None;
    }

    /** Everything but the sales list, the status and the current sale is as it was. */
    twostate predicate OthersUnchanged()
      reads this
    {
      customers == old(customers) && products == old(products)
    }

    method ClearError()
      modifies this
      ensures error == None
      ensures sales == old(sales) && OthersUnchanged() && loading == old(loading) && currentSale == old(currentSale)
    {
      error := None;
    }

    method SetCurrentSale(sale: Option<Entity<D>>)
      modifies this
      ensures currentSale == sale
      ensures sales == old(sales) && OthersUnchanged() && loading == old(loading) && error == old(error)
    {
      currentSale := sale;
    }

    method ClearCurrentSale()
      modifies this
      ensures currentSale == None
      ensures sales == old(sales) && OthersUnchanged() && loading == old(loading) && error == old(error)
    {
      currentSale := None;
    }

    /** fetchSales and createBulkSale pending: loading, no error. */
    method RequestPending()
      modifies this
      ensures loading && error == None
      ensures sales == old(sales) && OthersUnchanged() && currentSale == old(currentSale)
    {
      loading := true;
      error := None;
    }

    /** fetchSales fulfilled: the list from the response. */
    method FetchSalesFulfilled(payload: Listing<Entity<D>>)
      modifies this
      ensures !loading && sales == ListingRows(payload)
      ensures OthersUnchanged() && error == old(error) && currentSale == old(currentSale)
    {
      loading := false;
      sales := ListingRows(payload);
    }

    /** fetchSales rejected: the error message, or a fixed one. */
    method FetchSalesRejected(message: Option<string>)
      modifies this
      ensures !loading && error == Some(MessageOr(message, FetchSalesFailed))
      ensures sales == old(sales) && OthersUnchanged() && currentSale == old(currentSale)
    {
      loading := false;
      error := Some(MessageOr(message, FetchSalesFailed));
    }

    /** fetchCustomers fulfilled: the customers from the response, nothing else touched. */
    method FetchCustomersFulfilled(payload: Listing<C>)
      modifies this
      ensures customers == ListingRows(payload)
      ensures sales == old(sales) && products == old(products) && loading == old(loading) && error == old(error)
        && currentSale == old(currentSale)
    {
      customers := ListingRows(payload);
    }

    /** fetchProducts fulfilled: the products from the response, nothing else touched. */
    method FetchProductsFulfilled(payload: Listing<P>)
      modifies this
      ensures products == ListingRows(payload)
      ensures sales == old(sales) && customers == old(customers) && loading == old(loading) && error == old(error)
        && currentSale == old(currentSale)
    {
      products := ListingRows(payload);
    }

    /** createBulkSale fulfilled: the new sale first in the list, and no sale being edited. */
    method CreateBulkSaleFulfilled(sale: Entity<D>)
      modifies this
      ensures !loading && sales == [sale] + old(sales) && currentSale == None
      ensures OthersUnchanged() && error == old(error)
    {
      loading := false;
      sales := [sale] + sales;
      currentSale := None;
    }

    /** createBulkSale rejected: the error message, or a fixed one. */
    method CreateBulkSaleRejected(message: Option<string>)
      modifies this
      ensures !loading && error == Some(MessageOr(message, CreateSaleFailed))
      ensures sales == old(sales) && OthersUnchanged() && currentSale == old(currentSale)
    {
      loading := false;
      error := Some(MessageOr(message, CreateSaleFailed));
    }

    /** updateBulkSale fulfilled: the sale with the same id replaced if listed; no sale being edited either way. */
    method UpdateBulkSaleFulfilled(sale: Entity<D>)
      modifies this
      ensures sales == ReplaceFirst(old(sales), sale) && currentSale == None
      ensures DistinctIds(old(sales)) ==> DistinctIds(sales)
      ensures OthersUnchanged() && loading == old(loading) && error == old(error)
    {
      var index := FindBy(sales, IdOf, sale.id);
      if DistinctIds(sales) {
        ReplaceKeepsDistinct(sales, sale);
      }
      if index.Some? {
        sales := sales[index.value := sale];
      }
      currentSale := None;
    }
  }
}
