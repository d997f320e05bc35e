/** The customer slice of the front-end store: the customer list, the customer being edited, and the request status. */
module CustomerSlice {
  import opened Common
  import opened Records

  class CustomerState<D> {
    var customers: seq<Entity<D>>
    var customer: Entity<D>
    var loading: bool
    var error: Option<string>
    /** A blank customer, as GetCustomerInstance makes one. */
    const blank: Entity<D>

    constructor (blank: Entity<D>)
      ensures this.blank == blank
      ensures customers == [] && customer == blank && !loading && error == None
    {
      this.blank := blank;
      customers := [];
      customer := blank;
      loading := false;
      error := None;
    }

    /** setCustomers: the list replaced, the request settled. */
    method SetCustomers(list: seq<Entity<D>>)
      modifies this
      ensures customers == list && customer == old(customer) && !loading && error == None
    {
      customers := list;
      loading := false;
      error := None;
    }

    /** setCustomer: the customer being edited replaced, the request settled. */
    method SetCustomer(c: Entity<D>)
      modifies this
      ensures customers == old(customers) && customer == c && !loading && error == None
    {
      customer := c;
      loading := false;
      error := None;
    }

    /** createCustomer: the new customer first in the list and the one being edited. */
    method CreateCustomer(c: Entity<D>)
      modifies this
      ensures customers == [c] + old(customers) && customer == c && !loading && error == None
      ensures DistinctIds(old(customers)) && (forall j :: 0 <= j < |old(customers)| ==> old(customers)[j].id != c.id) ==>
        DistinctIds(customers)
    {
      if DistinctIds(customers) && (forall j :: 0 <= j < |customers| ==> customers[j].id != c.id) {
        PrependKeepsDistinct(customers, c);
      }
      customers := [c] + customers;
      customer := c;
      loading := false;
      error := None;
    }

    /**
     * updateCustomer: the first customer with the same id replaced, the list as it was when
     * there is none; the customer being edited set either way.
     */
    method UpdateCustomer(c: Entity<D>)
      modifies this
      ensures customers == ReplaceFirst(old(customers), c) && customer == c && !loading && error == None
      ensures DistinctIds(old(customers)) ==> DistinctIds(customers)
    {
      var index := FindBy(customers, IdOf, c.id);
      if DistinctIds(customers) {
        ReplaceKeepsDistinct(customers, c);
      }
      if index.Some? {
        customers := customers[index.value := c];
      }
      customer := c;
      loading := false;
      error := None;
    }

    /** deleteCustomer: every customer with the id removed, the others kept in order. */
    method DeleteCustomer(id: int)
      modifies this
      ensures customers == WithoutId(old(customers), id)
      ensures customer == old(customer) && loading == old(loading) && error == old(error)
      ensures DistinctIds(old(customers)) ==> DistinctIds(customers)
    {
      if DistinctIds(customers) {
        WithoutIdKeepsDistinct(customers, id);
      }
      customers := WithoutId(customers, id);
    }

    method SetLoading(value: bool)
      modifies this
      ensures loading == value
      ensures customers == old(customers) && customer == old(customer) && error == old(error)
    {
      loading := value;
    }

    method SetError(value: Option<string>)
      modifies this
      ensures error == value
      ensures customers == old(customers) && customer == old(customer) && loading == old(loading)
    {
      error := value;
    }

    /** clearCustomer: a blank customer being edited, the request settled. */
    method ClearCustomer()
      modifies this
      ensures customers == old(customers) && customer == blank && !loading && error == None
    {
      customer := blank;
      loading := false;
      error := None;
    }
  }
}
