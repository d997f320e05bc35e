/** The user slice of the front-end store: the user detail cards and the status of fetching them. */
module UserSlice {
  import opened Common
  import opened Records

  class UserState<D> {
    var detailCards: seq<Entity<D>>
    var loading: bool
    var error: Option<string>

    constructor ()
      ensures detailCards == [] && !loading && error == None
    {
      detailCards := [];
      loading := false;
      error := None;
    }

    /** addUser: the user appended at the end. */
    method AddUser(u: Entity<D>)
      modifies this
      ensures detailCards == old(detailCards) + [u] && loading == old(loading) && error == old(error)
    {
      detailCards := detailCards + [u];
    }

    /** updateUser: the first card with the same id replaced; nothing changes when there is none. */
    method UpdateUser(u: Entity<D>)
      modifies this
      ensures detailCards == ReplaceFirst(old(detailCards), u) && loading == old(loading) && error == old(error)
      ensures DistinctIds(old(detailCards)) ==> DistinctIds(detailCards)
    {
      var index := FindBy(detailCards, IdOf, u.id);
      if DistinctIds(detailCards) {
        ReplaceKeepsDistinct(detailCards, u);
      }
      if index.Some? {
        detailCards := detailCards[index.value := u];
      }
    }

    /** deleteUser: every card with the id removed. */
    method DeleteUser(id: int)
      modifies this
      ensures detailCards == WithoutId(old(detailCards), id) && loading == old(loading) && error == old(error)
      ensures DistinctIds(old(detailCards)) ==> DistinctIds(detailCards)
    {
      if DistinctIds(detailCards) {
        WithoutIdKeepsDistinct(detailCards, id);
      }
      detailCards := WithoutId(detailCards, id);
    }

    /** getDetailCards pending: loading, no error. */
    method DetailCardsPending()
      modifies this
      ensures loading && error == None && detailCards == old(detailCards)
    {
      loading := true;
      error := None;
    }

    /** getDetailCards fulfilled: the cards replaced by the payload; the error is left as it was. */
    method DetailCardsFulfilled(payload: seq<Entity<D>>)
      modifies this
      ensures !loading && detailCards == payload && error == old(error)
    {
      loading := false;
      detailCards := payload;
    }

    /** getDetailCards rejected: the payload becomes the error; the cards are kept. */
    method DetailCardsRejected(payload: Option<string>)
      modifies this
      ensures !loading && error == payload && detailCards == old(detailCards)
    {
      loading := false;
      error := payload;
    }
  }
}
