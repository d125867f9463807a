/** Reconciling the accounts' site markers with meta.json (reconcileIndex),
    while everybody else goes on changing both. */
module Reconcile {
  import opened Prelude
  import opened Offers

  type Markers = map<(Account, Site), Time>   // with the time each was last linked

  const GRACE := 600                          // markerGrace, in seconds

  /** What one call of the reconciliation sees of the rest of the system. */
  datatype View = View(works: bool, owners: map<Site, Account>, book: Book)

  predicate Held(v: View, a: Account, x: Site) {
    exists id | id in v.book :: v.book[id].state.Accepting? && v.book[id].acceptedBy == a && x in v.book[id].sites
  }

  predicate Owns(v: View, a: Account, x: Site) {
    x in v.owners && v.owners[x] == a
  }

  predicate Ownerless(v: View, x: Site) {
    x in v.owners && v.owners[x] == NOBODY
  }

  /** Only such a marker may go: no owner's, no accepting recipient's, and none
      of a site without an owner. */
  predicate Stray(v: View, a: Account, x: Site) {
    !Owns(v, a, x) && !Ownerless(v, x) && !Held(v, a, x)
  }

  /** The verdict of a whole undisturbed pass on a marker. */
  predicate Stays(v: View, now: Time, p: (Account, Site), at: Time) {
    now - at < GRACE || !Stray(v, p.0, p.1)
  }

  function Swept(m: Markers, v: View, now: Time, visited: set<Account>): Markers {
    map p | p in m && (p.0 in visited ==> Stays(v, now, p, m[p])) :: m[p]
  }

  /** The markers while an account's are looked at, left still to come. */
  function Partly(m: Markers, v: View, now: Time, a: Account, left: set<Site>): Markers {
    map p | p in m && (p.0 == a && p.1 !in left ==> Stays(v, now, p, m[p])) :: m[p]
  }

  /** The account has the marker, and had it linked before the grace began. */
  predicate Aged(m: Markers, a: Account, x: Site, now: Time) {
    (a, x) in m && now - m[(a, x)] >= GRACE
  }

  function SitesIn(m: Markers, a: Account): set<Site> {
    set p | p in m && p.0 == a :: p.1
  }

  lemma PartlyNext(m: Markers, v: View, now: Time, a: Account, left: set<Site>, x: Site)
    requires x in left && (a, x) in m
    ensures var part := Partly(m, v, now, a, left);
            && (a, x) in part
            && Partly(m, v, now, a, left - {x}) == (if Stays(v, now, (a, x), m[(a, x)]) then part else part - {(a, x)})
            && SitesIn(part - {(a, x)}, a) == SitesIn(part, a) - {x}
  {
  }

  lemma PartlyEnds(m: Markers, v: View, now: Time, a: Account)
    ensures Partly(m, v, now, a, SitesIn(m, a)) == m
    ensures Partly(m, v, now, a, {}) == Swept(m, v, now, {a})
  {
  }

  function Pairs(walk: map<Site, Account>, within: set<Site>, known: set<Account>): set<(Account, Site)> {
    set x | x in within && x in walk && walk[x] != NOBODY && walk[x] in known :: (walk[x], x)
  }

  /** What one call did to the markers: nothing, be it the listing of an account's,
      or the unlink or link of one. */
  datatype Call =
    | Reads
    | Lists(account: Account)
    | Unlinks(account: Account, site: Site)
    | Links(account: Account, site: Site, at: Time)

  class Index {
    var markers: Markers
    var calls: seq<Call>                           // every call so far, in order
    const view: nat -> View                        // what the n-th call sees
    const others: nat -> (Markers -> Markers)      // what others do to the markers just before the n-th call

    constructor (markers: Markers, view: nat -> View, others: nat -> (Markers -> Markers))
      ensures this.markers == markers && calls == []
    {
      this.markers, this.calls, this.view, this.others := markers, [], view, others;
    }

    /** From the n-th call on nothing fails and nothing else changes. */
    ghost predicate Quiet(n: nat) {
      forall k: nat | k >= n :: view(k) == view(n) && view(k).works && forall m :: others(k)(m) == m
    }

    /** The n-th call on the markers, after what others did to them. */
    function Made(n: nat, c: Call, m: Markers): Markers {
      match c
      case Reads => others(n)(m)
      case Lists(a) => others(n)(m)
      case Unlinks(a, x) => others(n)(m) - {(a, x)}
      case Links(a, x, at) => others(n)(m)[(a, x) := at]
    }

    /** The markers after these calls, the first of them the n-th. */
    function Replay(n: nat, log: seq<Call>, m: Markers): Markers {
      if log == [] then m else Made(n + |log| - 1, log[|log| - 1], Replay(n, log[..|log| - 1], m))
    }

    /** An unlink only of a stray marker, a link only of an owner's, as the site
        was read at that very call. */
    ghost predicate Harmless(n: nat, c: Call) {
      match c
      case Reads => true
      case Lists(a) => true
      case Unlinks(a, x) => view(n).works && Stray(view(n), a, x)
      case Links(a, x, at) => view(n).works && a != NOBODY && Owns(view(n), a, x)
    }

    /** The account's markers were listed from some call on. */
    ghost predicate Listed(log: seq<Call>, from: nat, a: Account) {
      exists i :: from <= i < |log| && log[i] == Lists(a) && view(i).works
    }

    lemma ListedHere(log: seq<Call>, from: nat, n: nat, a: Account)
      requires from <= n < |log| && log[n] == Lists(a) && view(n).works
      ensures Listed(log, from, a)
    {
    }

    lemma ListedStill(log: seq<Call>, from: nat, more: seq<Call>)
      requires log <= more
      ensures forall a :: Listed(log, from, a) ==> Listed(more, from, a)
    {
      forall a | Listed(log, from, a) ensures Listed(more, from, a) {
        var i :| from <= i < |log| && log[i] == Lists(a) && view(i).works;
        assert more[i] == log[i];
      }
    }

    /** From one log and its markers to another: nothing but the calls in between
        and what others did changed the markers, and each call was harmless. */
    ghost predicate Leads(before: seq<Call>, m: Markers, after: seq<Call>, next: Markers) {
      && before <= after
      && next == Replay(|before|, after[|before|..], m)
      && forall n | |before| <= n < |after| :: Harmless(n, after[n])
    }

    /** What the n-th call unlinks was listed before, by a call that worked, and was
        past the grace then. */
    ghost predicate Old(from: nat, m: Markers, log: seq<Call>, n: nat, now: Time) {
      from <= n < |log| && log[n].Unlinks? ==>
        exists i :: from <= i < n && log[i] == Lists(log[n].account) && view(i).works
                    && Aged(Replay(from, log[from..i + 1], m), log[n].account, log[n].site, now)
    }

    ghost predicate AllOld(from: nat, m: Markers, log: seq<Call>, now: Time) {
      forall n | from <= n < |log| :: Old(from, m, log, n, now)
    }

    lemma NoneOld(log: seq<Call>, m: Markers, now: Time)
      ensures AllOld(|log|, m, log, now)
    {
    }

    lemma OldStill(from: nat, m: Markers, log: seq<Call>, more: seq<Call>, now: Time)
      requires log <= more && from <= |log| && AllOld(from, m, log, now)
      ensures forall n | from <= n < |log| :: Old(from, m, more, n, now)
    {
      hide Replay, Aged;
      forall n | from <= n < |log| ensures Old(from, m, more, n, now) {
        assert Old(from, m, log, n, now) && more[n] == log[n];
        if log[n].Unlinks? {
          var i :| from <= i < n && log[i] == Lists(log[n].account) && view(i).works
                   && Aged(Replay(from, log[from..i + 1], m), log[n].account, log[n].site, now);
          assert more[from..i + 1] == log[from..i + 1] && more[i] == log[i];
        }
      }
    }

    /** A call that unlinks nothing. */
    lemma OldKept(from: nat, m: Markers, log: seq<Call>, more: seq<Call>, now: Time)
      requires log <= more && from <= |log| && AllOld(from, m, log, now)
      requires forall n | |log| <= n < |more| :: !more[n].Unlinks?
      ensures AllOld(from, m, more, now)
    {
      OldStill(from, m, log, more, now);
    }

    /** What a sweep of the account calls: reads, and unlinks of its aged markers. */
    ghost predicate Sweeps(from: nat, log: seq<Call>, was: Markers, a: Account, now: Time) {
      forall n | from <= n < |log| ::
        log[n].Reads? || (log[n].Unlinks? && log[n].account == a && Aged(was, a, log[n].site, now))
    }

    lemma SweepsNone(log: seq<Call>, was: Markers, a: Account, now: Time)
      ensures Sweeps(|log|, log, was, a, now)
    {
    }

    lemma SweepsNext(from: nat, log: seq<Call>, c: Call, was: Markers, a: Account, now: Time)
      requires from <= |log| && Sweeps(from, log, was, a, now)
      requires c.Reads? || (c.Unlinks? && c.account == a && Aged(was, a, c.site, now))
      ensures Sweeps(from, log + [c], was, a, now)
    {
    }

    /** The listing of an account, and what its sweep unlinks. */
    lemma OldMore(from: nat, m: Markers, g: seq<Call>, listed: seq<Call>, at: Markers, log: seq<Call>, a: Account,
                  now: Time)
      requires from <= |g| && listed == g + [Lists(a)] && listed <= log && view(|g|).works
      requires AllOld(from, m, g, now) && Leads(g[..from], m, listed, at)
      requires Sweeps(|listed|, log, at, a, now)
      ensures AllOld(from, m, log, now)
    {
      hide Replay, Aged;
      OldStill(from, m, g, log, now);
      assert log[from..|g| + 1] == listed[from..];
      assert log[|g|] == Lists(a);
      forall n | from <= n < |log| ensures Old(from, m, log, n, now) {
        if n >= |listed| && log[n].Unlinks? {
          assert Aged(Replay(from, log[from..|g| + 1], m), a, log[n].site, now);
        }
      }
    }

    ghost predicate Since(before: seq<Call>, m: Markers)
      reads this
    {
      Leads(before, m, calls, markers)
    }

    lemma {:induction false} ReplayOn(n: nat, a: seq<Call>, b: seq<Call>, m: Markers)
      ensures Replay(n, a + b, m) == Replay(n + |a|, b, Replay(n, a, m))
    {
      if b == [] {
        assert a + b == a;
      } else {
        ReplayOn(n, a, b[..|b| - 1], m);
        assert (a + b)[..|a + b| - 1] == a + b[..|b| - 1];
      }
    }

    /** Two stretches of calls make one. */
    lemma Onward(g0: seq<Call>, m0: Markers, g1: seq<Call>, m1: Markers, g2: seq<Call>, m2: Markers)
      requires Leads(g0, m0, g1, m1) && Leads(g1, m1, g2, m2)
      ensures Leads(g0, m0, g2, m2)
    {
      ReplayOn(|g0|, g1[|g0|..], g2[|g1|..], m0);
      assert g2[|g0|..] == g1[|g0|..] + g2[|g1|..];
      assert forall n | |g0| <= n < |g1| :: g2[n] == g1[n];
    }

    lemma SinceNow(g: seq<Call>, m: Markers)
      ensures Leads(g, m, g, m)
    {
    }

    lemma SinceLog(g: seq<Call>, m: Markers, h: seq<Call>, n: Markers)
      requires Leads(g, m, h, n)
      ensures g <= h
    {
    }

    method Call(c: Call)
      requires Harmless(|calls|, c)
      modifies this
      ensures calls == old(calls) + [c]
      ensures markers == Made(|old(calls)|, c, old(markers)) && Since(old(calls), old(markers))
    {
      var n := |calls|;
      markers := Made(n, c, markers);
      calls := calls + [c];
      assert calls[n..] == [c] && [c][..0] == [];
    }

    /** One marker: from the fresh read of its site to the unlink. */
    method Candidate(a: Account, x: Site) returns (gone: bool)
      modifies this
      ensures Since(old(calls), old(markers)) && |calls| == |old(calls)| + 1
      ensures calls == old(calls) + [if gone then Unlinks(a, x) else Reads]
      ensures gone <==> view(|old(calls)|).works && Stray(view(|old(calls)|), a, x)
      ensures markers == others(|old(calls)|)(old(markers)) - (if gone then {(a, x)} else {})
    {
      var v := view(|calls|);
      gone := v.works && Stray(v, a, x);
      Call(if gone then Unlinks(a, x) else Reads);
    }

    /** The markers of one account. linked are the sites it has one for, as far
        as this pass knows. */
    method Sweep(now: Time, a: Account, walk: map<Site, Account>) returns (linked: set<Site>)
      modifies this
      ensures Since(old(calls), old(markers))
      ensures Sweeps(|old(calls)|, calls, old(markers), a, now)
      ensures Quiet(|old(calls)|) && WalkOf(walk, view(|old(calls)|)) ==>
                && markers == Swept(old(markers), view(|old(calls)|), now, {a})
                && linked == SitesIn(markers, a)
    {
      hide Stray, Sweeps, Leads, Partly, Swept;
      SinceNow(calls, markers);
      SweepsNone(calls, markers, a, now);
      ghost var was := markers;
      ghost var v := view(|calls|);
      ghost var quiet := Quiet(|calls|) && WalkOf(walk, v);
      PartlyEnds(was, v, now, a);
      linked := SitesIn(markers, a);
      var at := map x | x in linked :: markers[(a, x)];
      var left := linked;
      while left != {}
        invariant Since(old(calls), old(markers))
        invariant Sweeps(|old(calls)|, calls, was, a, now)
        invariant left <= at.Keys == SitesIn(was, a)
        invariant forall x | x in at :: (a, x) in was && at[x] == was[(a, x)]
        invariant quiet ==> markers == Partly(was, v, now, a, left) && linked == SitesIn(markers, a)
      {
        var x :| x in left;
        PartlyNext(was, v, now, a, left, x);
        if !(x in walk && (walk[x] == NOBODY || walk[x] == a)) && now - at[x] >= GRACE {
          ghost var g, m := calls, markers;
          var gone := Candidate(a, x);
          Onward(old(calls), old(markers), g, m, calls, markers);
          SinceLog(old(calls), old(markers), g, m);
          SweepsNext(|old(calls)|, g, calls[|g|], was, a, now);
          if gone { linked := linked - {x}; }
        } else {
          NotStray(walk, v, a, x);
        }
        left := left - {x};
      }
    }

    /** The link of a site whose owner has no marker: from the fresh read on. */
    method Link(now: Time, a: Account, x: Site)
      requires a != NOBODY
      modifies this
      ensures Since(old(calls), old(markers)) && |calls| == |old(calls)| + 1
      ensures calls[|old(calls)|].Reads? || calls[|old(calls)|] == Links(a, x, now)
      ensures var v, m := view(|old(calls)|), others(|old(calls)|)(old(markers));
              markers == if v.works && Owns(v, a, x) then m[(a, x) := now] else m
    {
      var v := view(|calls|);
      Call(if v.works && Owns(v, a, x) then Links(a, x, now) else Reads);
    }

    /** One account: its markers are listed, and those that are stray and past the
        grace go. None: they could not be listed, and nothing of it changes. */
    method SweepOne(now: Time, a: Account, walk: map<Site, Account>) returns (sites: Option<set<Site>>)
      modifies this
      ensures Since(old(calls), old(markers)) && old(calls) + [Lists(a)] <= calls
      ensures sites.Some? <==> view(|old(calls)|).works
      ensures sites.None? ==> |calls| == |old(calls)| + 1
      ensures Sweeps(|old(calls)| + 1, calls, others(|old(calls)|)(old(markers)), a, now)
      ensures Quiet(|old(calls)|) && WalkOf(walk, view(|old(calls)|)) ==>
                && markers == Swept(old(markers), view(|old(calls)|), now, {a})
                && sites == Some(SitesIn(markers, a))
    {
      hide Sweeps, Leads, Swept;
      Call(Lists(a));
      ghost var g, m := calls, markers;
      SweepsNone(calls, markers, a, now);
      if !view(|calls| - 1).works { return None; }
      var linked := Sweep(now, a, walk);
      SinceLog(g, m, calls, markers);
      Onward(old(calls), old(markers), g, m, calls, markers);
      sites := Some(linked);
    }

    ghost predicate NoneLinked(log: seq<Call>, from: nat) {
      forall n | from <= n < |log| :: !log[n].Links?
    }

    lemma NothingLinked(log: seq<Call>)
      ensures NoneLinked(log, |log|)
    {
    }

    lemma QuietOn(n: nat, m: nat)
      requires n <= m
      ensures Quiet(n) ==> Quiet(m) && view(m) == view(n)
    {
    }

    /** What one account adds to the log. */
    lemma OneMore(from: nat, m: Markers, g: seq<Call>, at: Markers, log: seq<Call>, a: Account, now: Time)
      requires from <= |g| && g + [Lists(a)] <= log && AllOld(from, m, g, now) && Leads(g[..from], m, g, at)
      requires Sweeps(|g| + 1, log, others(|g|)(at), a, now) && (view(|g|).works || |log| == |g| + 1)
      ensures AllOld(from, m, log, now)
      ensures NoneLinked(g, from) ==> NoneLinked(log, from)
    {
      hide Leads, AllOld, Aged;
      var listed := g + [Lists(a)];
      assert log[|g|] == listed[|g|];
      assert forall n | from <= n < |g| :: log[n] == g[n];
      if view(|g|).works {
        ListedLeads(g, at, a);
        Onward(g[..from], m, g, at, listed, others(|g|)(at));
        OldMore(from, m, g, listed, others(|g|)(at), log, a, now);
      } else {
        OldKept(from, m, g, log, now);
      }
    }

    lemma ListedLeads(g: seq<Call>, at: Markers, a: Account)
      ensures Leads(g, at, g + [Lists(a)], others(|g|)(at))
    {
      assert (g + [Lists(a)])[|g|..] == [Lists(a)];
      assert [Lists(a)][..0] == [];
      assert Replay(|g|, [], at) == at;
    }

    method SweepAll(now: Time, accounts: seq<Account>, walk: map<Site, Account>)
      returns (linked: map<Account, set<Site>>)
      requires NoDup(accounts)
      modifies this
      ensures Since(old(calls), old(markers)) && linked.Keys <= Elems(accounts)
      ensures AllOld(|old(calls)|, old(markers), calls, now)
      ensures NoneLinked(calls, |old(calls)|)
      ensures forall a :: a in linked ==> Listed(calls, |old(calls)|, a)
      ensures Quiet(|old(calls)|) && WalkOf(walk, view(|old(calls)|)) ==>
                && markers == Swept(old(markers), view(|old(calls)|), now, Elems(accounts))
                && linked.Keys == Elems(accounts) && forall a | a in linked :: linked[a] == SitesIn(markers, a)
    {
      hide Sweeps, Leads, AllOld, Old, Listed, Swept, SitesIn, NoneLinked, WalkOf, Quiet;
      SinceNow(calls, markers);
      NoneOld(calls, markers, now);
      NothingLinked(calls);
      ghost var was, v := markers, view(|calls|);
      ghost var quiet := Quiet(|calls|) && WalkOf(walk, v);
      linked := map[];
      SweptNone(was, v, now);
      assert Elems(accounts[..0]) == {};
      for i := 0 to |accounts|
        invariant Since(old(calls), old(markers)) && linked.Keys <= Elems(accounts[..i])
        invariant AllOld(|old(calls)|, old(markers), calls, now)
        invariant NoneLinked(calls, |old(calls)|)
        invariant forall a :: a in linked ==> Listed(calls, |old(calls)|, a)
        invariant quiet ==>
                    && markers == Swept(was, v, now, Elems(accounts[..i]))
                    && linked.Keys == Elems(accounts[..i]) && forall a | a in linked :: linked[a] == SitesIn(markers, a)
      {
        var a := accounts[i];
        assert accounts[..i + 1] == accounts[..i] + [a] && a !in accounts[..i];
        ElemsAppend(accounts[..i], [a]);
        assert Elems(accounts[..i + 1]) == Elems(accounts[..i]) + {a};
        ghost var g, m := calls, markers;
        SinceLog(old(calls), old(markers), g, m);
        QuietOn(|old(calls)|, |g|);
        var sites := SweepOne(now, a, walk);
        SinceLog(g, m, calls, markers);
        Onward(old(calls), old(markers), g, m, calls, markers);
        assert g[..|old(calls)|] == old(calls);
        OneMore(|old(calls)|, old(markers), g, m, calls, a, now);
        ListedStill(g, |old(calls)|, calls);
        if sites.Some? {
          ListedHere(calls, |old(calls)|, |g|, a);
          if quiet { SweptMore(was, v, now, Elems(accounts[..i]), a); }
          linked := linked[a := sites.value];
        }
      }
      assert accounts[..|accounts|] == accounts;
    }

    /** reconcileIndex. Whatever happens meanwhile, the markers change by nothing
        but what others do and the calls of the pass, and none of these unlinks an
        owner's marker, one an accepting offer waits on, or one of an ownerless
        site. An undisturbed pass leaves, of the markers, those that are their
        owner's, young, held or on an ownerless site, and links every owner the
        walk names. */
    method Reconcile(now: Time, accounts: seq<Account>, walk: map<Site, Account>)
      requires NoDup(accounts)
      modifies this
      ensures Since(old(calls), old(markers))
      ensures AllOld(|old(calls)|, old(markers), calls, now)
      ensures forall n | |old(calls)| <= n < |calls| && calls[n].Links? :: Listed(calls, |old(calls)|, calls[n].account)
      ensures Quiet(|old(calls)|) && WalkOf(walk, view(|old(calls)|)) ==>
                markers.Keys == Swept(old(markers), view(|old(calls)|), now, Elems(accounts)).Keys
                                + Pairs(walk, walk.Keys, Elems(accounts))
    {
      hide Leads, AllOld, Old, Listed, Swept, Pairs, SitesIn;
      PairsNone(walk, Elems(accounts));
      ghost var v := view(|calls|);
      ghost var quiet := Quiet(|calls|) && WalkOf(walk, v);
      var linked := SweepAll(now, accounts, walk);
      ghost var swept := markers;
      var left := walk.Keys;
      assert walk.Keys - left == {};
      while left != {}
        invariant Since(old(calls), old(markers)) && left <= walk.Keys
        invariant AllOld(|old(calls)|, old(markers), calls, now)
        invariant forall a :: a in linked ==> Listed(calls, |old(calls)|, a)
        invariant forall n | |old(calls)| <= n < |calls| && calls[n].Links? ::
                    Listed(calls, |old(calls)|, calls[n].account)
        invariant quiet ==> markers.Keys == swept.Keys + Pairs(walk, walk.Keys - left, Elems(accounts))
      {
        var x :| x in left;
        var a := walk[x];
        ghost var g, m := calls, markers;
        ghost var did := a != NOBODY && a in linked && x !in linked[a];
        if a != NOBODY && a in linked && x !in linked[a] {
          SinceLog(old(calls), old(markers), g, m);
          Link(now, a, x);
          Onward(old(calls), old(markers), g, m, calls, markers);
          SinceLog(g, m, calls, markers);
          OldKept(|old(calls)|, old(markers), g, calls, now);
          ListedStill(g, |old(calls)|, calls);
        }
        if quiet { PairLinked(swept, m, walk, left, Elems(accounts), x, now, did, markers); }
        left := left - {x};
      }
      assert walk.Keys - left == walk.Keys;
    }
  }

  /** One site of the walk, when nothing fails. */
  lemma PairLinked(swept: Markers, m: Markers, walk: map<Site, Account>, left: set<Site>, known: set<Account>, x: Site,
                   now: Time, did: bool, next: Markers)
    requires x in left && left <= walk.Keys && m.Keys == swept.Keys + Pairs(walk, walk.Keys - left, known)
    requires did <==> walk[x] != NOBODY && walk[x] in known && x !in SitesIn(swept, walk[x])
    requires next == if did then m[(walk[x], x) := now] else m
    ensures next.Keys == swept.Keys + Pairs(walk, walk.Keys - (left - {x}), known)
  {
    hide Pairs;
    assert x in SitesIn(swept, walk[x]) <==> (walk[x], x) in swept;
    PairsNext(walk, walk.Keys - left, known, x);
    assert walk.Keys - (left - {x}) == walk.Keys - left + {x};
  }

  lemma NotStray(walk: map<Site, Account>, v: View, a: Account, x: Site)
    ensures WalkOf(walk, v) && x in walk && (walk[x] == NOBODY || walk[x] == a) ==> !Stray(v, a, x)
  {
  }

  lemma SweptNone(m: Markers, v: View, now: Time)
    ensures Swept(m, v, now, {}) == m
  {
  }

  lemma SweptMore(m: Markers, v: View, now: Time, visited: set<Account>, a: Account)
    requires a !in visited
    ensures var part := Swept(m, v, now, visited);
            && Swept(part, v, now, {a}) == Swept(m, v, now, visited + {a})
            && forall b | b in visited :: SitesIn(part, b) == SitesIn(Swept(part, v, now, {a}), b)
  {
  }

  lemma PairsNone(walk: map<Site, Account>, known: set<Account>)
    ensures Pairs(walk, {}, known) == {}
  {
  }

  lemma PairsNext(walk: map<Site, Account>, within: set<Site>, known: set<Account>, x: Site)
    requires x in walk
    ensures Pairs(walk, within + {x}, known) ==
            Pairs(walk, within, known) + (if walk[x] != NOBODY && walk[x] in known then {(walk[x], x)} else {})
  {
    forall p ensures p in Pairs(walk, within + {x}, known) <==>
                     p in Pairs(walk, within, known) + (if walk[x] != NOBODY && walk[x] in known then
                       {(walk[x], x)} else {})
    {
    }
  }

  /** With every site walked and every owner an account, the markers are the
      owned pairs and those that must be left alone. */
  lemma WholePass(m: Markers, v: View, now: Time, accounts: set<Account>, p: (Account, Site))
    requires p.0 in accounts && p.0 != NOBODY
    ensures p in Swept(m, v, now, accounts).Keys + Pairs(v.owners, v.owners.Keys, accounts) <==>
              || (p.1 in v.owners && v.owners[p.1] == p.0)
              || (p in m && (now - m[p] < GRACE || (p.1 in v.owners && v.owners[p.1] == NOBODY)
                             || Awaited(v, p.0, p.1)))
  {
  }

  /** An offer that the account is accepting has the site. */
  predicate Awaited(v: View, a: Account, x: Site) {
    exists id | id in v.book && v.book[id].state.Accepting? && v.book[id].acceptedBy == a :: x in v.book[id].sites
  }

  /** The walk may be partial, but what it holds is true. */
  ghost predicate WalkOf(walk: map<Site, Account>, v: View) {
    forall x | x in walk :: x in v.owners && v.owners[x] == walk[x]
  }
}
