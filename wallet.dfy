/** The client wallet: the balance due is the total price of the confirmed
    bookings of the signed-in client. Prices are whole numbers (cents). */
module Wallet {
  import opened Wrappers
  import Seqs
  import Session

  datatype Booking = Booking(id: string, status: string, serviceType: string, totalPrice: int)

  predicate IsConfirmed(b: Booking) {
    b.status == "Confirmed"
  }

  /** `bookings.filter(b => b.status === "Confirmed")`. */
  function ConfirmedOf(bookings: seq<Booking>): seq<Booking> {
    Seqs.Filter(bookings, IsConfirmed)
  }

  /** `reduce((sum, b) => sum + b.total_price, 0)`. */
  function Total(bookings: seq<Booking>): int {
    if bookings == [] then 0 else bookings[0].totalPrice + Total(bookings[1..])
  }

  /** Reference definition of the balance: every booking contributes its price
      when it is confirmed and nothing otherwise. */
  function ConfirmedSum(bookings: seq<Booking>): int {
    if bookings == [] then 0
    else (if IsConfirmed(bookings[0]) then bookings[0].totalPrice else 0) + ConfirmedSum(bookings[1..])
  }

  /** Every kept booking is confirmed, every confirmed booking is kept (as many
      times as it occurs), and the kept ones stay in their original order. */
  lemma ConfirmedOfMeaning(bookings: seq<Booking>, b: Booking)
    ensures forall i :: 0 <= i < |ConfirmedOf(bookings)| ==> ConfirmedOf(bookings)[i].status == "Confirmed"
    ensures b.status == "Confirmed" ==> multiset(ConfirmedOf(bookings))[b] == multiset(bookings)[b]
    ensures Seqs.IsSubsequence(ConfirmedOf(bookings), bookings)
  {
    Seqs.FilterAllPass(bookings, IsConfirmed);
    Seqs.FilterCount(bookings, IsConfirmed, b);
    Seqs.FilterIsSubsequence(bookings, IsConfirmed);
  }

  /** The filter-then-sum of the page equals the reference sum. */
  lemma {:induction false} TotalOfConfirmed(bookings: seq<Booking>)
    ensures Total(ConfirmedOf(bookings)) == ConfirmedSum(bookings)
  {
    if bookings != [] {
      TotalOfConfirmed(bookings[1..]);
      var rest := ConfirmedOf(bookings[1..]);
      if IsConfirmed(bookings[0]) {
        assert ConfirmedOf(bookings) == [bookings[0]] + rest;
        assert ([bookings[0]] + rest)[1..] == rest;
      } else {
        assert ConfirmedOf(bookings) == rest;
      }
    }
  }

  /** With no confirmed booking the balance is 0. */
  lemma {:induction false} NoConfirmedZeroBalance(bookings: seq<Booking>)
    requires forall i :: 0 <= i < |bookings| ==> !IsConfirmed(bookings[i])
    ensures ConfirmedOf(bookings) == [] && Total(ConfirmedOf(bookings)) == 0
  {
    if bookings != [] {
      NoConfirmedZeroBalance(bookings[1..]);
    }
  }

  /** With non-negative prices the balance is 0 exactly when every confirmed booking is free. */
  lemma {:induction false} ZeroBalanceIff(bookings: seq<Booking>)
    requires forall i :: 0 <= i < |bookings| ==> bookings[i].totalPrice >= 0
    ensures ConfirmedSum(bookings) >= 0
    ensures ConfirmedSum(bookings) == 0 <==>
      forall i :: 0 <= i < |bookings| && IsConfirmed(bookings[i]) ==> bookings[i].totalPrice == 0
  {
    if bookings != [] {
      ZeroBalanceIff(bookings[1..]);
      assert forall i :: 1 <= i < |bookings| ==> bookings[i] == bookings[1..][i - 1];
    }
  }

  /** The "Account in good standing" chip. */
  predicate GoodStanding(balance: int) {
    balance == 0
  }

  datatype BookingsReply = BookingsOk(bookings: seq<Booking>) | BookingsNotOk | BookingsThrown

  class WalletPage {
    var balance: int
    var confirmedBookings: seq<Booking>
    var loading: bool
    var storage: Session.Storage

    constructor (st: Session.Storage)
      ensures balance == 0 && confirmedBookings == [] && loading && storage == st
    {
      balance, confirmedBookings, loading, storage := 0, [], true, st;
    }

    /** `fetchWalletData`, run to completion. `request` is the e-mail the
        bookings were asked for; without a stored e-mail nothing happens at all. */
    method FetchWalletData(reply: BookingsReply) returns (request: Option<string>)
      modifies this`balance, this`confirmedBookings, this`loading
      ensures !Session.Truthy(Session.GetItem(storage, Session.EmailKey)) ==>
        && request == None
        && balance == old(balance) && confirmedBookings == old(confirmedBookings) && loading == old(loading)
      ensures Session.Truthy(Session.GetItem(storage, Session.EmailKey)) ==>
        && request == Some(storage[Session.EmailKey])
        && !loading
        && (reply.BookingsOk? ==>
              && confirmedBookings == ConfirmedOf(reply.bookings)
              && balance == Total(confirmedBookings) == ConfirmedSum(reply.bookings))
        && (!reply.BookingsOk? ==>
              confirmedBookings == old(confirmedBookings) && balance == old(balance))
    {
      var email := Session.GetItem(storage, Session.EmailKey);
      request := None;
      if !Session.Truthy(email) {
        return;
      }
      request := Some(email.value);
      if reply.BookingsOk? {
        var confirmed := ConfirmedOf(reply.bookings);
        var total := Total(confirmed);
        TotalOfConfirmed(reply.bookings);
        confirmedBookings := confirmed;
        balance := total;
      }
      loading := false;
    }
  }

  /** A fetch that finds no confirmed booking leaves a zero balance and shows
      the good-standing chip. */
  method NoConfirmedShowsGoodStanding(st: Session.Storage, bookings: seq<Booking>) returns (chip: bool)
    requires Session.Truthy(Session.GetItem(st, Session.EmailKey))
    requires forall i :: 0 <= i < |bookings| ==> !IsConfirmed(bookings[i])
    ensures chip
  {
    var page := new WalletPage(st);
    var _ := page.FetchWalletData(BookingsOk(bookings));
    NoConfirmedZeroBalance(bookings);
    TotalOfConfirmed(bookings);
    chip := GoodStanding(page.balance);
  }
}
