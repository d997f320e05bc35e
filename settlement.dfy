/**
 * The oldest-first status walk the payment views run after recording a payment: the party's
 * available credit is spent on their open documents in creation order.
 */
module Settlement {
  import opened Common
  import opened LedgerTypes

  /** A document the walk visits: one of the party's, still unpaid or partly paid. */
  predicate OpenFor(d: Document, party: nat)
  {
    d.party == party && (d.status == Unpaid || d.status == Partial)
  }

  /**
   * The status an open document of base total `total` gets with `credit` left, and the credit left
   * after it: paid exactly when the credit covers it, partial when some but not enough credit is
   * left, and no credit passes on past a document left partial or unpaid.
   */
  function Allocate(total: real, credit: real): (r: (DocStatus, real))
    ensures r.0 == Paid <==> credit >= total
    ensures r.0 == Partial <==> 0.0 < credit < total
    ensures r.0 == Paid ==> r.1 == credit - total
    ensures r.0 != Paid ==> r.1 <= 0.0
  {
    if credit >= total then (Paid, credit - total)
    else if credit > 0.0 then (Partial, 0.0)
    else (Unpaid, credit)
  }

  /**
   * The walk over a table in creation order: each of the party's open documents takes the status
   * `Allocate` gives it and passes the remaining credit on; every other row is left as it is.
   */
  function Walk(docs: seq<Document>, party: nat, credit: real): (after: seq<Document>)
    ensures |after| == |docs|
    decreases |docs|
  {
    if docs == [] then []
    else if OpenFor(docs[0], party) then
      var (status, rest) := Allocate(docs[0].totalBase, credit);
      [docs[0].(status := status)] + Walk(docs[1..], party, rest)
    else [docs[0]] + Walk(docs[1..], party, credit)
  }

  /** The credit left once the walk has passed every document. */
  function CreditLeft(docs: seq<Document>, party: nat, credit: real): real
    decreases |docs|
  {
    if docs == [] then credit
    else if OpenFor(docs[0], party) then CreditLeft(docs[1..], party, Allocate(docs[0].totalBase, credit).1)
    else CreditLeft(docs[1..], party, credit)
  }

  /**
   * The walk only rewrites statuses, and only those of the party's open documents; every other
   * row, and every other column, is unchanged.
   */
  lemma {:induction false} WalkOnlySetsStatus(docs: seq<Document>, party: nat, credit: real)
    ensures var after := Walk(docs, party, credit);
      && (forall i :: 0 <= i < |docs| ==> after[i] == docs[i].(status := after[i].status))
      && (forall i :: 0 <= i < |docs| && !OpenFor(docs[i], party) ==> after[i] == docs[i])
    decreases |docs|
  {
    if docs != [] {
      var after := Walk(docs, party, credit);
      var rest := if OpenFor(docs[0], party) then Allocate(docs[0].totalBase, credit).1 else credit;
      WalkOnlySetsStatus(docs[1..], party, rest);
      assert after[1..] == Walk(docs[1..], party, rest);
      assert forall i :: 1 <= i < |docs| ==> docs[1..][i - 1] == docs[i] && after[1..][i - 1] == after[i];
    }
  }

  /** With no credit every open document of the party (with a positive total) ends up unpaid. */
  lemma {:induction false} NoCreditLeavesAllUnpaid(docs: seq<Document>, party: nat, credit: real)
    requires credit <= 0.0
    requires forall i :: 0 <= i < |docs| && OpenFor(docs[i], party) ==> docs[i].totalBase > 0.0
    ensures var after := Walk(docs, party, credit);
      forall i :: 0 <= i < |docs| && OpenFor(docs[i], party) ==> after[i].status == Unpaid
    decreases |docs|
  {
    if docs != [] {
      assert forall i :: 1 <= i < |docs| ==> docs[1..][i - 1] == docs[i];
      NoCreditLeavesAllUnpaid(docs[1..], party, credit);
      var after := Walk(docs, party, credit);
      assert forall i :: 1 <= i < |docs| ==> after[1..][i - 1] == after[i];
    }
  }

  /**
   * Oldest first: once one of the party's open documents (with positive totals throughout) is
   * left partial or unpaid, every later one is left unpaid.
   */
  lemma {:induction false} WalkIsOldestFirst(docs: seq<Document>, party: nat, credit: real, i: nat, j: nat)
    requires forall k :: 0 <= k < |docs| && OpenFor(docs[k], party) ==> docs[k].totalBase > 0.0
    requires i < j < |docs| && OpenFor(docs[i], party) && OpenFor(docs[j], party)
    requires Walk(docs, party, credit)[i].status != Paid
    ensures Walk(docs, party, credit)[j].status == Unpaid
    decreases |docs|
  {
    var after := Walk(docs, party, credit);
    var tail := docs[1..];
    assert forall k :: 1 <= k < |docs| ==> tail[k - 1] == docs[k];
    if OpenFor(docs[0], party) {
      var (status, rest) := Allocate(docs[0].totalBase, credit);
      assert after[1..] == Walk(tail, party, rest);
      if i == 0 {
        assert rest <= 0.0;
        NoCreditLeavesAllUnpaid(tail, party, rest);
        assert after[j] == Walk(tail, party, rest)[j - 1];
      } else {
        assert after[i] == Walk(tail, party, rest)[i - 1];
        WalkIsOldestFirst(tail, party, rest, i - 1, j - 1);
        assert after[j] == Walk(tail, party, rest)[j - 1];
      }
    } else {
      assert after[1..] == Walk(tail, party, credit);
      assert i != 0;
      assert after[i] == Walk(tail, party, credit)[i - 1];
      WalkIsOldestFirst(tail, party, credit, i - 1, j - 1);
      assert after[j] == Walk(tail, party, credit)[j - 1];
    }
  }

  /**
   * Without positive totals the walk is not oldest first: a document of total 0 or less is marked
   * paid whatever the credit, and a negative one adds its magnitude to the credit, so a later
   * document can be paid while an earlier one stays unpaid.
   */
  lemma NonPositiveTotalBreaksOrder(party: nat)
    ensures var a := Document(0, party, 100.0, "AFN", 1.0, 100.0, Unpaid, 0);
      var b := Document(1, party, -50.0, "AFN", 1.0, -50.0, Unpaid, 1);
      var c := Document(2, party, 30.0, "AFN", 1.0, 30.0, Unpaid, 2);
      var after := Walk([a, b, c], party, 0.0);
      after[0].status == Unpaid && after[1].status == Paid && after[2].status == Paid
    ensures Walk([Document(0, party, 0.0, "AFN", 1.0, 0.0, Unpaid, 0)], party, 0.0)[0].status == Paid
  {
    var a := Document(0, party, 100.0, "AFN", 1.0, 100.0, Unpaid, 0);
    var b := Document(1, party, -50.0, "AFN", 1.0, -50.0, Unpaid, 1);
    var c := Document(2, party, 30.0, "AFN", 1.0, 30.0, Unpaid, 2);
    assert Walk([c], party, 50.0) == [c.(status := Paid)] + Walk([], party, 20.0);
    assert Walk([b, c], party, 0.0) == [b.(status := Paid)] + Walk([c], party, 50.0);
    assert Walk([a, b, c], party, 0.0) == [a] + Walk([b, c], party, 0.0);
  }

  /** The base total of the party's open documents the walk marks paid. */
  function NewlyPaid(docs: seq<Document>, party: nat, credit: real): real
    decreases |docs|
  {
    if docs == [] then 0.0
    else if OpenFor(docs[0], party) then
      var (status, rest) := Allocate(docs[0].totalBase, credit);
      (if status == Paid then docs[0].totalBase else 0.0) + NewlyPaid(docs[1..], party, rest)
    else NewlyPaid(docs[1..], party, credit)
  }

  /**
   * The walk never spends more than the credit it starts with: what it marks paid plus what is
   * left is at most the starting credit, and what is left is never negative.
   */
  lemma {:induction false} WalkSpendsAtMostCredit(docs: seq<Document>, party: nat, credit: real)
    requires credit >= 0.0
    ensures CreditLeft(docs, party, credit) >= 0.0
    ensures NewlyPaid(docs, party, credit) + CreditLeft(docs, party, credit) <= credit
    decreases |docs|
  {
    if docs != [] {
      if OpenFor(docs[0], party) {
        WalkSpendsAtMostCredit(docs[1..], party, Allocate(docs[0].totalBase, credit).1);
      } else {
        WalkSpendsAtMostCredit(docs[1..], party, credit);
      }
    }
  }

  /** The sum of the base totals of the party's documents (returns, stored negative, included). */
  function PartyDocsTotal(docs: seq<Document>, party: nat): real
    decreases |docs|
  {
    if docs == [] then 0.0
    else (if docs[0].party == party then docs[0].totalBase else 0.0) + PartyDocsTotal(docs[1..], party)
  }

  /** Rewriting statuses does not move the party's document total, so the balance the walk used still holds after it. */
  lemma {:induction false} WalkKeepsDocsTotal(docs: seq<Document>, party: nat, credit: real, who: nat)
    ensures PartyDocsTotal(Walk(docs, party, credit), who) == PartyDocsTotal(docs, who)
    decreases |docs|
  {
    if docs != [] {
      var after := Walk(docs, party, credit);
      if OpenFor(docs[0], party) {
        var rest := Allocate(docs[0].totalBase, credit).1;
        WalkKeepsDocsTotal(docs[1..], party, rest, who);
        assert after[1..] == Walk(docs[1..], party, rest);
      } else {
        WalkKeepsDocsTotal(docs[1..], party, credit, who);
        assert after[1..] == Walk(docs[1..], party, credit);
      }
    }
  }
}
