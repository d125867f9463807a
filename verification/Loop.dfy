/** The background loop's steps on offers (ownershipTick): finish what was
    accepted, end what lapsed, reopen what a conflict paused. */
module Loop {
  import opened Prelude
  import opened Offers
  import opened Protocol
  import opened Safety
  import opened Theorems
  import opened Interference
  import opened AcceptCheck
  import opened Calls
  import opened Resume
  import opened Completion

  predicate Lapsed(o: Offer, now: Time) {
    Editable(o) && now > o.acceptBy
  }

  /** What the checks of a paused offer read: owners and locks as the store has
      them; who says the rest of its sender. */
  function PauseFacts(k: Oracle, n: nat, s: State, who: World): World {
    who.(owners := s.owners, locked := s.locked, sites := map x | x in s.owners :: k.about(n, x))
  }

  /** offerPause's answer, and then the host rule: nothing pauses the offer. */
  function Unpaused(w: World, o: Offer): Answer<bool> {
    if !w.sender.Live? then Known(false)
    else if SharingAllowed(w.sender, w.senderPlan).Unknown? then Unknown
    else Known(SharingAllowed(w.sender, w.senderPlan).value
               && !(exists x | x in o.sites :: x in w.owners && x in w.locked) && !w.mailSuspended
               && HostConflicts(w, Elems(o.sites), o.from) == {})
  }

  predicate Reopens(w: World, o: Offer, now: Time) {
    o.state.Paused? && now <= o.acceptBy && Unpaused(w, o) == Known(true)
  }

  /** When a paused offer is reopened, by what the store and the sites say: it is in
      its date, its sender is there on a plan that shares, its address is nobody
      suspended's, none of its sites is locked, and no other site of the sender
      shares a host with one of them. */
  lemma ReopensIs(k: Oracle, n: nat, s: State, who: World, o: Offer, now: Time)
    ensures Reopens(PauseFacts(k, n, s, who), o, now) <==>
              && o.state.Paused? && now <= o.acceptBy
              && who.sender.Live?
              && (who.senderPlan.NoTiers? || (who.senderPlan.OnTier? && who.senderPlan.tier.sharing))
              && !who.mailSuspended && (forall x | x in o.sites && x in s.owners :: x !in s.locked)
              && forall x, y | x in o.sites && x in s.owners
                               && y in s.owners && s.owners[y] == o.from && y !in o.sites ::
                   Hosts(k, n, x) !! Hosts(k, n, y)
  {
    var w := PauseFacts(k, n, s, who);
    if forall x, y | x in o.sites && x in s.owners && y in s.owners && s.owners[y] == o.from && y !in o.sites ::
         Hosts(k, n, x) !! Hosts(k, n, y) {
      forall x, y | x in Elems(o.sites) && y in s.owners && s.owners[y] == o.from && y !in Elems(o.sites)
        ensures !ShareHost(w, x, y)
      {
        ShareIs(k, n, s, who, x, y);
      }
      assert HostConflicts(w, Elems(o.sites), o.from) == {};
    }
    if HostConflicts(w, Elems(o.sites), o.from) == {} {
      forall x, y | x in o.sites && x in s.owners && y in s.owners && s.owners[y] == o.from && y !in o.sites
        ensures Hosts(k, n, x) !! Hosts(k, n, y)
      {
        assert x in Elems(o.sites) && y !in HostConflicts(w, Elems(o.sites), o.from);
        ShareIs(k, n, s, who, x, y);
      }
    }
  }

  /** The hosts a site has, as the n-th call sees it. */
  ghost function Hosts(k: Oracle, n: nat, x: Site): set<Host> {
    set i | 0 <= i < |k.about(n, x).addresses| :: k.about(n, x).addresses[i].host
  }

  lemma ShareIs(k: Oracle, n: nat, s: State, who: World, x: Site, y: Site)
    ensures ShareHost(PauseFacts(k, n, s, who), x, y) <==>
              x in s.owners && y in s.owners && !(Hosts(k, n, x) !! Hosts(k, n, y))
  {
    if x in s.owners && y in s.owners {
      var a, b := k.about(n, x).addresses, k.about(n, y).addresses;
      if h :| h in Hosts(k, n, x) && h in Hosts(k, n, y) {
        var i :| 0 <= i < |a| && a[i].host == h;
        assert OnHost(PauseFacts(k, n, s, who), y, a[i].host);
      }
      if ShareHost(PauseFacts(k, n, s, who), x, y) {
        var i :| 0 <= i < |a| && OnHost(PauseFacts(k, n, s, who), y, a[i].host);
        assert a[i].host in Hosts(k, n, x) && a[i].host in Hosts(k, n, y);
      }
    }
  }

  function ExpireAll(book: Book, now: Time, done: set<OfferId>): Book {
    map id | id in book :: if id in done && Lapsed(book[id], now) then book[id].(state := Expired) else book[id]
  }

  function ReopenAll(book: Book, now: Time, facts: OfferId -> World, done: set<OfferId>): Book {
    map id | id in book :: if id in done && Reopens(facts(id), book[id], now) then book[id].(state := Open)
      else book[id]
  }

  /** An edit that ends or reopens an offer always goes through when its own
      guard does. */
  lemma Goes(s: State, id: OfferId, c: Change)
    requires Inv(s) && id in s.offers && Apply(s.offers[id], c).Some? && (c.Expire? || c.Reopen?)
    ensures Step(s, Edit(id, c)) == s.(offers := s.offers[id := Apply(s.offers[id], c).value])
  {
    if c.Reopen? {
      forall i | i in s.offers && i != id && !IsFinal(s.offers[i].state)
        ensures forall x | x in s.offers[id].sites :: x !in s.offers[i].sites
      {
      }
    }
  }

  /** One offer of a step: its own update, after its own checks. */
  method Update(srv: Server, id: OfferId, c: Change)
    requires Inv(srv.st) && !c.SetSites?
    modifies srv
    ensures Inv(srv.st) && Leads(srv.k, old(srv.Now()), srv.Now()) && old(srv.log) < srv.log
    ensures Clean(srv.log, |old(srv.log)|)
    ensures |srv.log| == |old(srv.log)| + 1 && srv.log[|old(srv.log)|].op == Edits(id, c)
    ensures Quiet(srv.k, |old(srv.log)|) ==> srv.st == Step(old(srv.st), Edit(id, c))
  {
    hide Inv, Clean, Step;
    var n := |srv.log|;
    EveryRun(srv.st, srv.k.others(n));
    var found := Exec(srv.st, srv.k.others(n));
    assert srv.k.others(n) == [] ==> found == srv.st;
    EveryStep(found, Edit(id, c));
    OneIdle(srv.log, Call(None, Edits(id, c), found, srv.links));
    srv.log := srv.log + [Call(None, Edits(id, c), found, srv.links)];
    srv.st := if srv.k.fate(n).Fails? then found else Step(found, Edit(id, c));
    LeadsOne(srv.k, old(srv.Now()), srv.Now());
  }

  /** expireOffers: undisturbed, exactly the open and paused offers past their
      date end, as expired. */
  method ExpireOffers(srv: Server, now: Time)
    requires Inv(srv.st)
    modifies srv
    ensures Inv(srv.st) && Leads(srv.k, old(srv.Now()), srv.Now()) && old(srv.log) < srv.log
    ensures Clean(srv.log, |old(srv.log)|)
    ensures Quiet(srv.k, |old(srv.log)|) ==>
              srv.st == old(srv.st).(offers := ExpireAll(old(srv.st).offers, now, old(srv.st).offers.Keys))
    ensures srv.k.fate(|old(srv.log)|).Works? || |srv.log| == |old(srv.log)| + 1
  {
    hide Inv, Leads, Clean, ExpireAll, Step;
    ghost var s0, quiet := srv.st, Quiet(srv.k, |srv.log|);
    var ok := srv.Idle(OfferList);
    if !ok { return; }
    var listed := srv.st.offers;
    var left := listed.Keys;
    ExpireStart(s0.offers, now);
    assert listed.Keys - left == {};
    while left != {}
      invariant Inv(srv.st) && Leads(srv.k, old(srv.Now()), srv.Now()) && old(srv.log) < srv.log && left <= listed.Keys
      invariant Clean(srv.log, |old(srv.log)|)
      invariant quiet ==> listed == s0.offers && srv.st == s0.(offers := ExpireAll(s0.offers, now, listed.Keys - left))
    {
      var id :| id in left;
      ghost var a := srv.Now();
      if quiet { ExpireNext(s0.offers, now, listed.Keys - left, id); }
      if Lapsed(listed[id], now) {
        Update(srv, id, Expire(now));
        LeadsTrans(srv.k, old(srv.Now()), a, srv.Now());
        CleanOn(a.log, |old(srv.log)|, srv.log);
        if quiet { Goes(a.st, id, Expire(now)); }
      }
      assert listed.Keys - (left - {id}) == listed.Keys - left + {id};
      left := left - {id};
    }
    assert listed.Keys - left == listed.Keys;
  }

  lemma ExpireStart(book: Book, now: Time)
    ensures ExpireAll(book, now, {}) == book
  {
  }

  lemma ExpireNext(book: Book, now: Time, done: set<OfferId>, id: OfferId)
    requires id in book && id !in done
    ensures var part := ExpireAll(book, now, done);
            && id in part && part[id] == book[id]
            && ExpireAll(book, now, done + {id}) ==
               (if Lapsed(book[id], now) then part[id := book[id].(state := Expired)] else part)
  {
  }

  /** What the checks of the paused offers read now. */
  ghost function FactsNow(srv: Server, who: OfferId -> World): OfferId -> World
    reads srv
  {
    var k, n, s := srv.k, |srv.log|, srv.st;
    (id: OfferId) => PauseFacts(k, n, s, who(id))
  }

  /** reopenPaused, likewise: exactly the paused offers in their dates that nothing
      pauses, by the owners and locks of the store, open again. */
  method ReopenPaused(srv: Server, now: Time, who: OfferId -> World)
    requires Inv(srv.st)
    modifies srv
    ensures Inv(srv.st) && Leads(srv.k, old(srv.Now()), srv.Now()) && old(srv.log) < srv.log
    ensures Clean(srv.log, |old(srv.log)|)
    ensures Quiet(srv.k, |old(srv.log)|) && Steady(srv.k, |old(srv.log)|) ==>
              srv.st == old(srv.st).(offers := ReopenAll(old(srv.st).offers, now, old(FactsNow(srv, who)),
                old(srv.st).offers.Keys))
    ensures srv.k.fate(|old(srv.log)|).Works? || |srv.log| == |old(srv.log)| + 1
  {
    hide Inv, Leads, Clean, ReopenAll, Step, Unpaused;
    ghost var s0, n0, quiet := srv.st, |srv.log|, Quiet(srv.k, |srv.log|) && Steady(srv.k, |srv.log|);
    ghost var facts := FactsNow(srv, who);
    var ok := srv.Idle(OfferList);
    if !ok { return; }
    var listed := srv.st.offers;
    var left := listed.Keys;
    ReopenStart(s0.offers, now, facts);
    assert listed.Keys - left == {};
    while left != {}
      invariant Inv(srv.st) && Leads(srv.k, old(srv.Now()), srv.Now()) && old(srv.log) < srv.log && left <= listed.Keys
      invariant Clean(srv.log, |old(srv.log)|)
      invariant quiet ==>
                listed == s0.offers && srv.st == s0.(offers := ReopenAll(s0.offers, now, facts, listed.Keys - left))
    {
      var id :| id in left;
      ghost var a := srv.Now();
      if quiet { ReopenNext(s0.offers, now, facts, listed.Keys - left, id); }
      ReopenOne(srv, id, listed[id], now, who(id));
      LeadsTrans(srv.k, old(srv.Now()), a, srv.Now());
      CleanOn(a.log, |old(srv.log)|, srv.log);
      if quiet {
        SteadyFacts(srv.k, n0, |a.log|, s0, a.st, who(id));
      }
      assert listed.Keys - (left - {id}) == listed.Keys - left + {id};
      left := left - {id};
    }
    assert listed.Keys - left == listed.Keys;
  }

  /** One paused offer: what may pause it is read, and then it is reopened. */
  method ReopenOne(srv: Server, id: OfferId, o: Offer, now: Time, who: World)
    requires Inv(srv.st)
    modifies srv
    ensures Inv(srv.st) && Leads(srv.k, old(srv.Now()), srv.Now()) && old(srv.log) < srv.log
    ensures Clean(srv.log, |old(srv.log)|)
    ensures Quiet(srv.k, |old(srv.log)|) && id in old(srv.st).offers && old(srv.st).offers[id] == o ==>
              srv.st == if Reopens(PauseFacts(srv.k, |old(srv.log)|, old(srv.st), who), o, now)
                        then old(srv.st).(offers := old(srv.st).offers[id := o.(state := Open)]) else old(srv.st)
    ensures var n := |old(srv.log)|;
            if srv.k.fate(n).Works? && Reopens(PauseFacts(srv.k, n, srv.log[n].at, who), o, now)
            then |srv.log| == n + 2 && srv.log[n + 1].op == Edits(id, Change.Reopen)
            else |srv.log| == n + 1
  {
    hide Inv, Leads, Clean, Step, Unpaused;
    var n := |srv.log|;
    var read := srv.Idle(CheckFacts);
    if read && Reopens(PauseFacts(srv.k, n, srv.st, who), o, now) {
      ghost var a := srv.Now();
      Update(srv, id, Change.Reopen);
      LeadsTrans(srv.k, old(srv.Now()), a, srv.Now());
      CleanOn(a.log, n, srv.log);
      if Quiet(srv.k, n) && id in a.st.offers && a.st.offers[id] == o { Goes(a.st, id, Change.Reopen); }
    }
  }

  lemma SteadyFacts(k: Oracle, n: nat, m: nat, s: State, t: State, who: World)
    requires Steady(k, n) && m >= n && t.owners == s.owners && t.locked == s.locked
    ensures PauseFacts(k, m, t, who) == PauseFacts(k, n, s, who)
  {
    assert k.world(m) == k.world(n);
  }

  lemma ReopenStart(book: Book, now: Time, facts: OfferId -> World)
    ensures ReopenAll(book, now, facts, {}) == book
  {
  }

  lemma ReopenNext(book: Book, now: Time, facts: OfferId -> World, done: set<OfferId>, id: OfferId)
    requires id in book && id !in done
    ensures var part := ReopenAll(book, now, facts, done);
            && id in part && part[id] == book[id]
            && ReopenAll(book, now, facts, done + {id}) ==
               (if Reopens(facts(id), book[id], now) then part[id := book[id].(state := Open)] else part)
  {
  }

  /** What a tick leaves of an offer when all goes well. */
  ghost predicate Tidied(k: Oracle, n: nat, s: State, o: Offer, id: OfferId, now: Time, who: World) {
    && (o.state.Accepting? ==> id in s.runs)
    && !Lapsed(o, now)
    && !Reopens(PauseFacts(k, n, s, who), o, now)
  }

  /** A tick leaves no claim behind. One undisturbed tick leaves no offer accepting
      but those whose claim somebody else held before and holds, none open or paused
      past its date, and none paused that nothing pauses, as owners and locks are
      when it ends. */
  method Tick(srv: Server, now: Time, who: OfferId -> World)
    requires Inv(srv.st)
    modifies srv
    ensures Inv(srv.st) && Leads(srv.k, old(srv.Now()), srv.Now()) && old(srv.log) < srv.log
    ensures Clean(srv.log, |old(srv.log)|)
    ensures Quiet(srv.k, |old(srv.log)|) && Steady(srv.k, |old(srv.log)|) ==>
              && srv.st.runs.Keys == old(srv.st).runs.Keys
              && forall id | id in srv.st.offers ::
                   Tidied(srv.k, |srv.log|, srv.st, srv.st.offers[id], id, now, who(id))
  {
    hide Inv, Leads, Clean, Unpaused;
    srv.FinishAccepting();
    ghost var a := srv.Now();
    ExpireOffers(srv, now);
    LeadsTrans(srv.k, old(srv.Now()), a, srv.Now());
    CleanOn(a.log, |old(srv.log)|, srv.log);
    ghost var b := srv.Now();
    ReopenPaused(srv, now, who);
    LeadsTrans(srv.k, old(srv.Now()), b, srv.Now());
    CleanOn(b.log, |old(srv.log)|, srv.log);
    if Quiet(srv.k, |old(srv.log)|) && Steady(srv.k, |old(srv.log)|) {
      forall id | id in srv.st.offers ensures Tidied(srv.k, |srv.log|, srv.st, srv.st.offers[id], id, now, who(id)) {
        SteadyFacts(srv.k, |b.log|, |srv.log|, b.st, srv.st, who(id));
      }
    }
  }

  /** The loop and the accept agree on what stands in the way: an offer the loop
      reopens is refused by the accept's check neither for a pause nor for a host
      conflict; one it leaves paused though the answers are known would be
      refused, for one of these, or for a site that is no longer the sender's. */
  lemma LoopAndAcceptAgree(w: World, o: Offer, to: Account, now: Time)
    requires o.state.Paused? && now <= o.acceptBy
    ensures var c := Check(w, o.from, to, o.sites);
            && (Reopens(w, o, now) ==> c != Known(Some(PausedKind)) && c != Known(Some(HostKind)))
            && (!Reopens(w, o, now) && Unpaused(w, o).Known? ==>
                  c == Known(Some(PausedKind)) || c == Known(Some(HostKind)) || c == Known(Some(GoneKind)))
  {
  }
}
