/** The offer record and the store that keeps it (ee/ownership/store.go): every
    write is one read-modify-write under the store's mutex. */
module Offers {
  import opened Prelude

  const MAX_BUNDLE := 50

  datatype OfferState = Open | Paused | Accepting | Accepted | Declined | Expired | Cancelled | Ended

  /** Open, paused and accepting are not final: the offer still holds its sites. */
  predicate IsFinal(st: OfferState) {
    !(st.Open? || st.Paused? || st.Accepting?)
  }

  datatype Offer = Offer(
    sites: seq<Site>,
    from: Account,
    toEmail: Email,
    availableFrom: Option<Time>,
    acceptBy: Time,
    state: OfferState,
    done: seq<Site>,
    acceptedBy: Account
  )

  type Book = map<OfferId, Offer>

  /** The sender may still change it. */
  predicate Editable(o: Offer) {
    o.state.Open? || o.state.Paused?
  }

  predicate InWindow(o: Offer, now: Time) {
    (o.availableFrom.Some? ==> o.availableFrom.value <= now) && now <= o.acceptBy
  }

  predicate SameSites(a: seq<Site>, b: seq<Site>) {
    Elems(a) == Elems(b)
  }

  /** No other offer that is not final holds one of the sites. */
  predicate SitesFree(book: Book, self: OfferId, sites: seq<Site>) {
    forall id | id in book && id != self && !IsFinal(book[id].state) ::
      forall x | x in sites :: x !in book[id].sites
  }

  /** The tail of UpdateOffer and CreateOffer: refused (None, nothing written)
      when a record that is not final would share a site with another. */
  function Put(book: Book, id: OfferId, o: Offer): Option<Book> {
    if !IsFinal(o.state) && !SitesFree(book, id, o.sites) then None else Some(book[id := o])
  }

  function Removed(cur: seq<Site>, remove: seq<Site>): seq<Site> {
    if cur == [] then []
    else Removed(cur[..|cur| - 1], remove) + (if cur[|cur| - 1] in remove then [] else [cur[|cur| - 1]])
  }

  function Added(cur: seq<Site>, add: seq<Site>): seq<Site> {
    if add == [] then cur
    else
      var out := Added(cur, add[..|add| - 1]);
      if add[|add| - 1] in out then out else out + [add[|add| - 1]]
  }

  function BundleAfter(cur: seq<Site>, add: seq<Site>, remove: seq<Site>): seq<Site> {
    Added(Removed(cur, remove), add)
  }

  lemma RemovedElems(cur: seq<Site>, remove: seq<Site>)
    ensures Elems(Removed(cur, remove)) == Elems(cur) - Elems(remove)
    ensures NoDup(cur) ==> NoDup(Removed(cur, remove))
  {
    if cur != [] {
      var front, last := cur[..|cur| - 1], cur[|cur| - 1];
      RemovedElems(front, remove);
      assert cur == front + [last];
      ElemsAppend(front, [last]);
      var tail := if last in remove then [] else [last];
      ElemsAppend(Removed(front, remove), tail);
      assert Elems(tail) == if last in remove then {} else {last};
      assert NoDup(cur) ==> last !in Elems(front) && last !in Elems(Removed(front, remove));
    }
  }

  lemma AddedElems(cur: seq<Site>, add: seq<Site>)
    ensures Elems(Added(cur, add)) == Elems(cur) + Elems(add)
    ensures NoDup(cur) ==> NoDup(Added(cur, add))
  {
    if add != [] {
      var front, last := add[..|add| - 1], add[|add| - 1];
      AddedElems(cur, front);
      ElemsAppend(front, [last]);
      assert add == front + [last];
      ElemsAppend(Added(cur, front), [last]);
    }
  }

  /** The bundle after an edit: exactly what was not removed, and what was
      added, each once. */
  lemma BundleAfterElems(cur: seq<Site>, add: seq<Site>, remove: seq<Site>)
    ensures Elems(BundleAfter(cur, add, remove)) == (Elems(cur) - Elems(remove)) + Elems(add)
    ensures NoDup(cur) ==> NoDup(BundleAfter(cur, add, remove))
  {
    RemovedElems(cur, remove);
    AddedElems(Removed(cur, remove), add);
  }

  method EditBundle(cur: seq<Site>, add: seq<Site>, remove: seq<Site>) returns (out: seq<Site>)
    ensures out == BundleAfter(cur, add, remove)
  {
    out := [];
    for i := 0 to |cur|
      invariant out == Removed(cur[..i], remove)
    {
      assert cur[..i + 1][..i] == cur[..i];
      if cur[i] !in remove { out := out + [cur[i]]; }
    }
    assert cur[..|cur|] == cur;
    for i := 0 to |add|
      invariant out == Added(Removed(cur, remove), add[..i])
    {
      assert add[..i + 1][..i] == add[..i];
      if add[i] !in out { out := out + [add[i]]; }
    }
    assert add[..|add|] == add;
  }

  /** A change to an offer that its UpdateOffer callback allows only while the
      offer is open or paused. */
  datatype Change =
    | SetSites(who: Account, add: seq<Site>, remove: seq<Site>)
    | SetDates(who: Account, until: Time, since: Option<Time>)
    | Cancel(who: Account)
    | Decline
    | Expire(now: Time)
    | Pause
    | Reopen
    | EndFor(deleted: Account)

  /** The callback's answer: the record to write, or None when it refuses. */
  function Apply(o: Offer, c: Change): (r: Option<Offer>)
    ensures r.Some? ==> Editable(o)
    ensures r.Some? ==> !r.value.state.Accepting? && !r.value.state.Accepted? && !r.value.state.Ended?
    ensures r.Some? ==>
              r.value.(sites := o.sites, availableFrom := o.availableFrom, acceptBy := o.acceptBy,
                state := o.state) == o
  {
    match c
    case SetSites(who, add, remove) =>
      var next := BundleAfter(o.sites, add, remove);
      if who == o.from && Editable(o) && 1 <= |next| <= MAX_BUNDLE then Some(o.(sites := next)) else None
    case SetDates(who, until, since) =>
      if who == o.from && Editable(o) then Some(o.(acceptBy := until, availableFrom := since)) else None
    case Cancel(who) =>
      if who == o.from && Editable(o) then Some(o.(state := Cancelled)) else None
    case Decline =>
      if Editable(o) then Some(o.(state := Declined)) else None
    case Expire(now) =>
      if Editable(o) && now > o.acceptBy then Some(o.(state := Expired)) else None
    case Pause =>
      if o.state.Open? then Some(o.(state := Paused)) else None
    case Reopen =>
      if o.state.Paused? then Some(o.(state := Open)) else None
    case EndFor(deleted) =>
      if Editable(o) then Some(o.(state := if o.from == deleted then Cancelled else Expired)) else None
  }

  /** The sites of an offer not yet moved; the source sorts them, and no
      property here depends on the order. */
  function NotDone(o: Offer): set<Site> {
    Elems(o.sites) - Elems(o.done)
  }
}
