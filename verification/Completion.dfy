/** The forward completion of an accepting offer (runAccepting and what calls
    it), as it runs: one call after the other, each of which may fail, or take
    effect and still report an error, while every other actor acts in between. */
module Completion {
  import opened Prelude
  import opened Offers
  import opened Protocol
  import opened Safety
  import opened Theorems
  import opened Interference
  import opened AcceptCheck
  import opened Progress
  import opened Calls
  import opened Resume

  /** What one run did: the sites it moved with their new edit passwords, the
      offer as it left it, and whether that is final. */
  datatype AcceptRun = AcceptRun(moved: seq<(Site, nat)>, offer: Option<Offer>, complete: bool, ended: bool)

  const NOTHING := AcceptRun([], None, false, false)

  datatype Verdict = Stop | Leave | Go | Again

  function Ids(moved: seq<(Site, nat)>): set<Site> {
    set m | m in moved :: m.0
  }

  lemma IdsAppend(moved: seq<(Site, nat)>, m: (Site, nat))
    ensures Ids(moved + [m]) == Ids(moved) + {m.0}
  {
    assert (moved + [m])[|moved|] == m;
    forall x | x in Ids(moved) + {m.0} ensures x in Ids(moved + [m]) {
      if x in Ids(moved) {
        var k :| k in moved && k.0 == x;
        assert k in moved + [m];
      } else {
        assert m in moved + [m];
      }
    }
  }

  /** The account's markers only grow, and only on these sites. */
  ghost predicate Grows(was: Links, links: Links, to: Account, sites: seq<Site>) {
    forall x :: ((to, x) in was ==> (to, x) in links) && ((to, x) in links ==> (to, x) in was || x in sites)
  }

  // ---- what a run may say ----

  /** The sites still to move are not the run's own account's, but for those whose
      owner could not be read. */
  ghost predicate Rest(k: Oracle, log: seq<Call>, n: nat, s: State, to: Account, todo: seq<Site>) {
    forall x | x in todo :: NotTheirs(s, to, x) || Evident(k, log, n, Unread(x))
  }

  /** How far a run's own copy of the offer, with the sites it moved, may be behind
      the store: by a write that took effect behind an error. */
  ghost predicate Shown(k: Oracle, log: seq<Call>, n: nat, o: Offer, stored: Offer, moved: set<Site>) {
    && stored.(state := o.state, done := o.done) == o
    && (o.state == stored.state || (o.state.Accepting? && Evident(k, log, n, EndedUnsaid)))
    && Elems(o.done) <= Elems(stored.done) + moved
    && forall x | x in stored.done && x !in o.done :: x in moved || Evident(k, log, n, MarkedUnsaid(x))
  }

  /** The passwords are those TransferSite answered with. */
  ghost predicate AllGiven(k: Oracle, log: seq<Call>, n: nat, me: OfferId, moved: seq<(Site, nat)>) {
    forall m | m in moved :: Evident(k, log, n, Given(me, m.0, m.1))
  }

  /** Of the sites that moved, at most one is missing from the list, moved by a
      call that answered with an error. */
  ghost predicate AllTold(k: Oracle, log: seq<Call>, n: nat, me: OfferId, moved: seq<(Site, nat)>, gone: set<Site>) {
    && Ids(moved) <= gone
    && (gone == Ids(moved) || exists x :: gone == Ids(moved) + {x} && Evident(k, log, n, MovedUnsaid(me, x)))
  }

  lemma NoneOf(todo: seq<Site>)
    ensures Ids([]) == {} && Elems(todo[|todo|..]) == {}
  {
  }

  lemma LookedMore(k: Oracle, g: seq<Call>, n: nat, h: seq<Call>, gone: set<Site>, x: Site)
    requires n <= |g| && g <= h && forall y | y in gone :: Evident(k, g, n, Looked(y))
    ensures forall y | y in gone :: Evident(k, h, n, Looked(y))
    ensures Evident(k, h, |g|, Looked(x)) ==> Evident(k, h, n, Looked(x))
  {
    hide Evident;
    EvidentAll(k, g, n, h, n);
    EvidentAll(k, h, |g|, h, n);
  }

  lemma NoneGiven(k: Oracle, log: seq<Call>, me: OfferId)
    ensures AllGiven(k, log, |log|, me, [])
  {
  }

  lemma GivenMore(k: Oracle, g: seq<Call>, n: nat, h: seq<Call>, me: OfferId, moved: seq<(Site, nat)>, x: Site,
                  pw: Option<nat>)
    requires AllGiven(k, g, n, me, moved) && n <= |g| && g <= h
    requires pw.Some? ==> Evident(k, h, |g|, Given(me, x, pw.value))
    ensures AllGiven(k, h, n, me, if pw.Some? then moved + [(x, pw.value)] else moved)
  {
    hide Evident;
    EvidentAll(k, g, n, h, n);
    EvidentAll(k, h, |g|, h, n);
  }

  lemma SameShown(k: Oracle, log: seq<Call>, n: nat, o: Offer)
    ensures Shown(k, log, n, o, o, {})
  {
    assert o.(state := o.state, done := o.done) == o;
  }

  lemma BehindShown(k: Oracle, log: seq<Call>, n: nat, o: Offer, stored: Offer, x: Site)
    requires stored == o || (Behind(o, stored, x) && Evident(k, log, n, MarkedUnsaid(x)))
    ensures Shown(k, log, n, o, stored, {})
  {
    hide Evident;
    ElemsAppend(o.done, [x]);
  }

  /** After the site moved, the copy lists it as done, recorded or not. */
  lemma ShownMoved(k: Oracle, log: seq<Call>, n: nat, o: Offer, stored: Offer, x: Site, ok: bool)
    requires !ok ==> stored == o || Behind(o, stored, x)
    ensures var shown := if ok then stored else o.(done := o.done + [x]);
            Shown(k, log, n, shown, stored, {x}) && (!ok ==> NotDone(shown) == NotDone(o) - {x})
  {
    hide Evident;
    ElemsAppend(o.done, [x]);
    assert Elems([x]) == {x};
    assert stored.(state := stored.state, done := stored.done) == stored;
  }

  lemma ShownWider(k: Oracle, log: seq<Call>, n: nat, o: Offer, stored: Offer, moved: set<Site>, more: set<Site>)
    requires Shown(k, log, n, o, stored, moved) && moved <= more
    ensures Shown(k, log, n, o, stored, more)
  {
    hide Evident;
  }

  lemma ShownMore(k: Oracle, log: seq<Call>, n: nat, m: nat, o: Offer, stored: Offer, moved: set<Site>)
    requires Shown(k, log, n, o, stored, moved) && m <= n
    ensures Shown(k, log, m, o, stored, moved)
  {
    hide Evident;
    EvidentAll(k, log, n, log, m);
  }

  /** What is left stays so while nothing moves. */
  lemma RestOn(k: Oracle, a: Moment, b: Moment, n: nat, me: OfferId, to: Account, todo: seq<Site>)
    requires Goes(k, a, b, me, to, {}) && a.log <= b.log && Rest(k, a.log, n, a.st, to, todo)
    requires Elems(todo) <= Elems(a.st.offers[me].sites)
    ensures Rest(k, b.log, n, b.st, to, todo)
  {
    hide Leads, Evident, Moved;
    EvidentAll(k, a.log, n, b.log, n);
    forall x | x in todo && NotTheirs(a.st, to, x) ensures NotTheirs(b.st, to, x) {
      assert x in Elems(todo);
      NotTheirsStays(a.st, b.st, me, to, x);
    }
  }

  /** A check objected; and if it was to a site that is no longer the sender's, it
      was the second look. */
  ghost predicate Objected(k: Oracle, log: seq<Call>, n: nat, from: Account, to: Account, todo: seq<Site>) {
    && Evident(k, log, n, Refused(from, to, todo))
    && (Evident(k, log, n, Barred(from, to, todo)) || Twice(log, n))
  }

  lemma ObjectedIs(k: Oracle, log: seq<Call>, n: nat, from: Account, to: Account, todo: seq<Site>)
    ensures Evident(k, log, n, Barred(from, to, todo)) || Twice(log, n) ==>
              (Evident(k, log, n, Refused(from, to, todo)) ==> Objected(k, log, n, from, to, todo))
  {
  }

  lemma ObjectedOn(k: Oracle, g: seq<Call>, n: nat, h: seq<Call>, m: nat, from: Account, to: Account, todo: seq<Site>)
    requires g <= h && m <= n <= |g|
    ensures Objected(k, g, n, from, to, todo) ==> Objected(k, h, m, from, to, todo)
  {
    hide Evident;
    EvidentAll(k, g, n, h, m);
    TwiceOn(g, n, h);
  }

  /** Why the rest of a bundle is left: the recipient's account is gone, or a check
      objected. */
  ghost predicate WhyLeft(k: Oracle, log: seq<Call>, n: nat, recheck: bool, from: Account, to: Account,
                          todo: seq<Site>) {
    Evident(k, log, n, NoRecipient) || (recheck && Objected(k, log, n, from, to, todo))
  }

  /** And what is known when it is moved. */
  ghost predicate WhyGone(k: Oracle, log: seq<Call>, n: nat, recheck: bool, from: Account, to: Account,
                          todo: seq<Site>) {
    Evident(k, log, n, HasRecipient) && (recheck ==> Evident(k, log, n, Cleared(from, to, todo)))
  }

  /** What a run reports is what it did. */
  ghost predicate Reports(k: Oracle, log: seq<Call>, n: nat, me: OfferId, run: AcceptRun, ok: bool, gone: set<Site>,
                          stored: Offer) {
    && AllGiven(k, log, n, me, run.moved) && AllTold(k, log, n, me, run.moved, gone)
    && (ok <==> run.complete || run.ended) && !(run.complete && run.ended)
    && (ok ==> gone == Ids(run.moved) && run.offer == Some(stored))
    && (run.complete ==> stored.state.Accepted? && NotDone(stored) == {})
    && (run.offer.Some? ==> Shown(k, log, n, run.offer.value, stored, Ids(run.moved)))
  }

  /** What an ended run leaves with the sender. */
  ghost predicate Stays(k: Oracle, log: seq<Call>, n: nat, s: State, to: Account, run: AcceptRun, stayed: seq<Site>,
                        recheck: bool) {
    && run.moved == [] && run.offer.Some?
    && var o := run.offer.value;
       && o.state == (if o.done == [] then Ended else Accepted)
       && NotDone(o) == Elems(stayed) && stayed != []
       && Rest(k, log, n, s, to, stayed) && WhyLeft(k, log, n, recheck, o.from, to, stayed)
  }

  /** Sites move only for an account that is there and whose plan's caps were read,
      each after it was read itself, and, on a re-check, only after a clear one of
      them and the rest. */
  ghost predicate MovesFor(k: Oracle, log: seq<Call>, n: nat, recheck: bool, from: Account, to: Account,
                           gone: set<Site>) {
    && Evident(k, log, n, Capped) && (forall x | x in gone :: Evident(k, log, n, Looked(x)))
    && exists todo :: gone <= Elems(todo) && WhyGone(k, log, n, recheck, from, to, todo)
  }

  lemma ReportsNothing(k: Oracle, log: seq<Call>, n: nat, me: OfferId, o: Option<Offer>)
    ensures o.Some? ==> Reports(k, log, n, me, NOTHING.(offer := o), false, {}, o.value)
    ensures forall stored | o.None? :: Reports(k, log, n, me, NOTHING.(offer := o), false, {}, stored)
  {
    if o.Some? { SameShown(k, log, n, o.value); }
  }

  lemma ReportsMore(k: Oracle, log: seq<Call>, n: nat, m: nat, me: OfferId, run: AcceptRun, ok: bool, gone: set<Site>,
                    stored: Offer)
    requires Reports(k, log, n, me, run, ok, gone, stored) && m <= n
    ensures Reports(k, log, m, me, run, ok, gone, stored)
  {
    hide Evident, Shown;
    EvidentAll(k, log, n, log, m);
    if run.offer.Some? { ShownMore(k, log, n, m, run.offer.value, stored, Ids(run.moved)); }
  }

  lemma ReportsFinal(k: Oracle, log: seq<Call>, n: nat, me: OfferId, run: AcceptRun, ok: bool, gone: set<Site>,
                     stored: Offer)
    requires Reports(k, log, n, me, run, ok, gone, stored)
    ensures ok ==> run.offer == Some(stored) && (run.complete || run.ended)
    ensures run.complete ==> stored.state.Accepted? && NotDone(stored) == {}
  {
  }

  lemma StaysFinal(k: Oracle, log: seq<Call>, n: nat, s: State, to: Account, run: AcceptRun, stayed: seq<Site>,
                   recheck: bool)
    requires Stays(k, log, n, s, to, run, stayed, recheck)
    ensures run.offer.Some? && IsFinal(run.offer.value.state)
  {
  }

  lemma ReportsOn(k: Oracle, g: seq<Call>, h: seq<Call>, n: nat, me: OfferId, run: AcceptRun, ok: bool,
                  gone: set<Site>, stored: Offer)
    requires Reports(k, g, n, me, run, ok, gone, stored) && g <= h
    ensures Reports(k, h, n, me, run, ok, gone, stored)
  {
    hide Evident;
    EvidentAll(k, g, n, h, n);
  }

  lemma StaysMore(k: Oracle, log: seq<Call>, n: nat, m: nat, s: State, to: Account, run: AcceptRun, stayed: seq<Site>,
                  recheck: bool)
    requires m <= n
    ensures Stays(k, log, n, s, to, run, stayed, recheck) ==> Stays(k, log, m, s, to, run, stayed, recheck)
  {
    hide Evident;
    EvidentAll(k, log, n, log, m);
    if run.offer.Some? && n <= |log| { ObjectedOn(k, log, n, log, m, run.offer.value.from, to, stayed); }
  }

  lemma MovesMore(k: Oracle, log: seq<Call>, n: nat, m: nat, recheck: bool, from: Account, to: Account, gone: set<Site>)
    requires m <= n
    ensures MovesFor(k, log, n, recheck, from, to, gone) ==> MovesFor(k, log, m, recheck, from, to, gone)
  {
    hide Evident;
    EvidentAll(k, log, n, log, m);
    if MovesFor(k, log, n, recheck, from, to, gone) {
      var todo :| gone <= Elems(todo) && WhyGone(k, log, n, recheck, from, to, todo);
      assert WhyGone(k, log, m, recheck, from, to, todo);
    }
  }

  lemma MovesOn(k: Oracle, g: seq<Call>, h: seq<Call>, n: nat, recheck: bool, from: Account, to: Account,
                gone: set<Site>)
    requires MovesFor(k, g, n, recheck, from, to, gone) && g <= h
    ensures MovesFor(k, h, n, recheck, from, to, gone)
  {
    hide Evident;
    EvidentAll(k, g, n, h, n);
    var todo :| gone <= Elems(todo) && WhyGone(k, g, n, recheck, from, to, todo);
    assert WhyGone(k, h, n, recheck, from, to, todo);
  }

  lemma SinceMoved(s: State, t: State, me: OfferId, to: Account, gone: set<Site>)
    requires Moved(s, t, me, to, gone)
    ensures MovedSince(s, t, me, gone)
  {
  }

  /** The store's record as the run knew it, or ended behind an error. */
  lemma ShownAfter(k: Oracle, log: seq<Call>, n: nat, o: Offer, stored: Offer, can: bool)
    requires o.state.Accepting? && stored == o.(state := stored.state)
    requires if can then Evident(k, log, n, EndedUnsaid) else stored == o
    ensures Shown(k, log, n, o, stored, {})
  {
    hide Evident;
    assert o.(state := o.state, done := o.done) == o;
  }

  lemma UnlistedNow(g: seq<Call>)
    ensures NoListing(g, |g|)
  {
  }

  lemma UnlistedOn(g: seq<Call>, n: nat, h: seq<Call>)
    requires g <= h && NoListing(g, n) && NoListing(h, |g|)
    ensures NoListing(h, n)
  {
  }

  lemma NewlyDone(o: Offer, p: Offer, links: Links, from: Account, to: Account, x: Site)
    requires NotDone(p) == NotDone(o) - {x} && (to, x) in links && (from, x) !in links
    ensures Handed(links, from, to, NotDone(o) - NotDone(p))
  {
  }

  lemma SinceClaimed(s: State, c: State, t: State, me: OfferId, gone: set<Site>)
    requires c.moves == s.moves && ((c == t && gone == {}) || MovedSince(c, t, me, gone))
    ensures MovedSince(s, t, me, gone)
  {
  }

  /** A claim, and what is done under it, lists no offers. */
  lemma NoneListed(g: seq<Call>, n: nat, me: OfferId, h: seq<Call>)
    requires n <= |g| && g <= h && |h| == |g| + 1 && (h[|g|].op.Takes? || h[|g|].op.Frees?)
    requires n < |g| ==> g[n].op.Takes? && AllOf(g, n + 1, me)
    ensures NoListing(h, n)
  {
  }

  /** Before the offer is closed, and when the close fails. */
  lemma ShownEnd(k: Oracle, log: seq<Call>, n: nat, m: nat, o: Offer, stored: Offer, ok: bool)
    requires n <= m && (!ok ==> Shown(k, log, m, o, stored, {}))
    ensures Shown(k, log, n, if ok then stored else o, stored, {})
  {
    hide Evident;
    if ok { SameShown(k, log, n, stored); } else { ShownMore(k, log, m, n, o, stored, {}); }
  }

  /** Undisturbed from the n-th call on, with an accepting offer whose check was
      clear and that only its own moves have changed since. */
  ghost predicate FitsAt(k: Oracle, n: nat, s: State, links: Links, me: OfferId, to: Account) {
    && Quiet(k, n) && Steady(k, n) && Accepts(s, me, to)
    && Interrupted(FactsFrom(k, n, s, links, to), s.offers[me], to)
  }

  lemma FitsOn(k: Oracle, n: nat, s: State, t: State, links: Links, me: OfferId, to: Account)
    requires t.owners == s.owners && t.locked == s.locked && t.offers == s.offers
    ensures FitsAt(k, n, s, links, me, to) ==> FitsAt(k, n + 1, t, links, me, to)
  {
    if FitsAt(k, n, s, links, me, to) { FactsSteady(k, n, n + 1, s, t, links, to); }
  }

  lemma FitsAlone(k: Oracle, n: nat, s: State, links: Links, me: OfferId, to: Account)
    ensures FitsAt(k, n, s, links, me, to) ==> k.others(n) == []
  {
  }

  class Server {
    var st: State
    var links: Links           // the accounts' site markers
    var log: seq<Call>         // every call so far, in order
    const k: Oracle

    constructor (st: State, links: Links, k: Oracle)
      ensures this.st == st && this.links == links && log == [] && this.k == k
    {
      this.st, this.links, this.log, this.k := st, links, [], k;
    }

    function Now(): Moment
      reads this
    {
      Moment(st, links, log)
    }

    function Facts(n: nat, to: Account): World
      reads this
    {
      FactsFrom(k, n, st, links, to)
    }

    /** Undisturbed from now on, with an accepting offer whose check was clear and
        that only its own moves have changed since. */
    ghost predicate Fits(me: OfferId, to: Account)
      reads this
    {
      FitsAt(k, |log|, st, links, me, to)
    }

    /** t is the store when the n-th call reached it, s when the last one ended. */
    ghost predicate Between(s: State, t: State, me: OfferId, n: nat) {
      && Inv(t) && t == Env(s, me, k.others(n))
      && me in s.runs && me in t.runs && t.runs[me] == s.runs[me]
      && (me in s.offers && s.offers[me].state.Accepting? ==> Untouched(s, t, me))
      && (k.others(n) == [] ==> t == s)
    }

    /** What everybody else does before a call of the run. */
    lemma Others(s: State, me: OfferId, n: nat)
      requires Inv(s) && me in s.runs
      ensures Between(s, Env(s, me, k.others(n)), me, n)
    {
      EnvInv(s, me, k.others(n));
      EnvKeepsClaim(s, me, k.others(n));
      if me in s.offers && s.offers[me].state.Accepting? { EnvKeepsOffer(s, me, k.others(n)); }
    }

    /** A read, or a call that only touches what is not modelled. */
    method Ask(me: OfferId, q: Question) returns (ok: bool)
      requires Inv(st) && me in st.runs && !q.OfferList?
      modifies this
      ensures Between(old(st), st, me, |old(log)|) && links == old(links) && AllOf(log, |old(log)|, me)
      ensures log == old(log) + [Call(Some(me), Asks(q), st, links)] && ok == k.fate(|old(log)|).Works?
      ensures Leads(k, old(Now()), Now())
    {
      hide Inv, Env, Between;
      var n := |log|;
      Others(st, me, n);
      InEnv(st, me, n);
      st := Env(st, me, k.others(n));
      OneOf(log, Call(Some(me), Asks(q), st, links), me);
      log := log + [Call(Some(me), Asks(q), st, links)];
      ok := k.fate(n).Works?;
      LeadsOne(k, old(Now()), Now());
    }

    lemma InEnv(s: State, me: OfferId, n: nat)
      requires Between(s, Env(s, me, k.others(n)), me, n)
      ensures me in Env(s, me, k.others(n)).runs
    {
    }

    /** The same, of a run that is moving its offer. */
    method Wait(me: OfferId, to: Account, o: Offer, q: Question) returns (ok: bool)
      requires Going(st, me, to, o) && !q.OfferList?
      modifies this
      ensures Going(st, me, to, o) && Goes(k, old(Now()), Now(), me, to, {})
      ensures st.runs[me] == old(st).runs[me] && links == old(links)
      ensures log == old(log) + [Call(Some(me), Asks(q), st, links)] && ok == k.fate(|old(log)|).Works?
      ensures k.others(|old(log)|) == [] ==> st == old(st)
    {
      hide Leads, AllOf;
      AcceptedByRun(st, me, to, o);
      ok := Ask(me, q);
      OthersMoveNothing(old(st), st, me, to, o);
      GoesPlain(k, old(Now()), Now(), me, to, {});
    }

    /** One step of the run against the store. */
    method Do(me: OfferId, op: RunOp) returns (ok: bool, ghost mid: State)
      requires Inv(st) && me in st.runs && !op.Release?
      modifies this
      ensures Between(old(st), mid, me, |old(log)|) && links == old(links) && AllOf(log, |old(log)|, me)
      ensures log == old(log) + [Call(Some(me), Acts(op), mid, links)]
      ensures st == if k.fate(|old(log)|).Fails? then mid else StepRun(mid, me, mid.runs[me], op)
      ensures ok <==> k.fate(|old(log)|).Works? && Can(mid, me, mid.runs[me], op)
      ensures Inv(st) && Leads(k, old(Now()), Now())
    {
      hide Inv, Env, Between, StepRun, Can;
      var n := |log|;
      Others(st, me, n);
      InEnv(st, me, n);
      var e := Env(st, me, k.others(n));
      mid := e;
      EnvInv(st, me, k.others(n));
      RunStep(e, me, op);
      OneOf(log, Call(Some(me), Acts(op), e, links), me);
      log := log + [Call(Some(me), Acts(op), e, links)];
      ok := k.fate(n).Works? && Can(e, me, e.runs[me], op);
      st := if k.fate(n).Fails? then e else StepRun(e, me, e.runs[me], op);
      LeadsOne(k, old(Now()), Now());
    }

    /** LinkSite or UnlinkSite. */
    method Mark(me: OfferId, to: Account, o: Offer, a: Account, x: Site, on: bool) returns (ok: bool)
      requires Going(st, me, to, o) && x in o.sites && a == if on then to else o.from
      modifies this
      ensures Going(st, me, to, o) && Goes(k, old(Now()), Now(), me, to, {}) && st.runs[me] == old(st).runs[me]
      ensures log == old(log) + [Call(Some(me), Marks(a, x, on), st, old(links))] && ok == k.fate(|old(log)|).Works?
      ensures links == if k.fate(|old(log)|).Fails? then old(links)
                       else if on then old(links) + {(a, x)} else old(links) - {(a, x)}
      ensures k.others(|old(log)|) == [] ==> st == old(st)
    {
      hide Inv, Env, Going, Moved, AllOf, Untouched, Between, Check, Clear, Objects, FactsFrom, StepRun, Step, Can;
      var n := |log|;
      ghost var s := st;
      Loaded(st, me, to, o);
      Others(st, me, n);
      InBetween(s, Env(s, me, k.others(n)), me, n);
      WaitOf(s, Env(s, me, k.others(n)), me, to, o, n);
      st := Env(st, me, k.others(n));
      OneOf(log, Call(Some(me), Marks(a, x, on), st, links), me);
      log := log + [Call(Some(me), Marks(a, x, on), st, links)];
      if !k.fate(n).Fails? { links := if on then links + {(a, x)} else links - {(a, x)}; }
      ok := k.fate(n).Works?;
      LeadsOne(k, old(Now()), Now());
      assert x in Elems(o.sites);
      GoesMarking(k, old(Now()), Now(), me, to);
    }

    /** What everybody else does before a call that writes nothing of the store. */
    lemma WaitOf(s: State, t: State, me: OfferId, to: Account, o: Offer, n: nat)
      requires Going(s, me, to, o) && Between(s, t, me, n)
      ensures Going(t, me, to, o) && Moved(s, t, me, to, {}) && me in t.runs && t.runs[me] == s.runs[me]
      ensures me in t.offers && t.offers[me] == o && (k.others(n) == [] ==> t == s)
      ensures t == Env(s, me, k.others(n))
    {
      hide Inv, Env;
      OthersMoveNothing(s, t, me, to, o);
    }

    /** The owner read of recordMoved: is the site the recipient's already? */
    method Look(me: OfferId, to: Account, o: Offer, x: Site) returns (theirs: bool)
      requires Going(st, me, to, o) && x in o.sites
      modifies this
      ensures Going(st, me, to, o) && Goes(k, old(Now()), Now(), me, to, {}) && links == old(links)
      ensures old(log) < log && |log| == |old(log)| + 1
      ensures theirs ==> x in st.runs[me].known
      ensures !theirs ==> NotTheirs(st, to, x) || Evident(k, log, |old(log)|, Unread(x))
      ensures Quiet(k, |old(log)|) ==> Still(old(st), st, me)
    {
      hide Inv, Leads, AllOf, Linked, Handed, Env, Check, Clear, Objects, FactsFrom;
      ghost var mid;
      AcceptedByRun(st, me, to, o);
      theirs, mid := Do(me, See(x));
      OthersMoveNothing(old(st), mid, me, to, o);
      SeeGoes(mid, me, to, o, x);
      RunIsAlone(mid, me, See(x));
      MovedTrans(old(st), mid, st, me, to, {}, {});
      GoesPlain(k, old(Now()), Now(), me, to, {});
      EvidentLast(k, old(log), log[|old(log)|], Unread(x));
    }

    /** markDone. On an error the run's own copy stays as it was. */
    method MarkDone(me: OfferId, to: Account, o: Offer, x: Site) returns (ok: bool, cur: Offer)
      requires Going(st, me, to, o) && x in o.sites && x in st.runs[me].known
      modifies this
      ensures me in st.offers && Going(st, me, to, st.offers[me]) && Steps(k, old(Now()), Now(), me, to, {})
      ensures links == old(links) && |log| == |old(log)| + 1
      ensures ok ==> cur == st.offers[me] && NotDone(cur) == NotDone(o) - {x}
      ensures !ok ==> cur == o && (st.offers[me] == o || Behind(o, st.offers[me], x))
      ensures st.offers[me] != o && !ok ==> Evident(k, log, |old(log)|, MarkedUnsaid(x))
      ensures Quiet(k, |old(log)|) ==> ok && Still(old(st), st, me)
      ensures !ok ==> Evident(k, log, |old(log)|, Halted)
    {
      hide Inv, Leads, AllOf, Linked, Going, Moved, Between, Env, StepRun, Can, Still, Behind, NotDone, Check, Clear,
        Objects, FactsFrom;
      ghost var s, n := st, |log|;
      ghost var mid;
      Loaded(st, me, to, o);
      ok, mid := Do(me, RunOp.MarkDone(x));
      InBetween(s, mid, me, n);
      MarkDoneOf(s, mid, me, to, o, x, n, k.fate(n).Fails?);
      StepsPlain(k, old(Now()), Now(), me, to);
      EvidentLast(k, old(log), log[n], MarkedUnsaid(x));
      EvidentLast(k, old(log), log[n], Halted);
      cur := if ok then st.offers[me] else o;
    }

    /** A write of done, and what everybody else does before it. */
    lemma MarkDoneOf(s: State, mid: State, me: OfferId, to: Account, o: Offer, x: Site, n: nat, fails: bool)
      requires Going(s, me, to, o) && x in o.sites && x in s.runs[me].known && Between(s, mid, me, n) && me in mid.runs
      ensures var can := !fails && Can(mid, me, mid.runs[me], RunOp.MarkDone(x));
              var t := if fails then mid else StepRun(mid, me, mid.runs[me], RunOp.MarkDone(x));
              && me in t.offers && Going(t, me, to, t.offers[me]) && Moved(s, t, me, to, {})
              && (can ==> NotDone(t.offers[me]) == NotDone(o) - {x})
              && (if can then t.offers[me] == o || Behind(o, t.offers[me], x) else t.offers[me] == o)
              && (k.others(n) == [] && !fails ==> can && Still(s, t, me))
    {
      hide Inv, Env;
      OthersMoveNothing(s, mid, me, to, o);
      MarkGoes(mid, me, to, o, x);
      RunIsAlone(mid, me, RunOp.MarkDone(x));
      NothingMoved(mid, me, to);
      MovedTrans(s, mid, if fails then mid else StepRun(mid, me, mid.runs[me], RunOp.MarkDone(x)), me, to, {}, {});
      var none: set<Site> := {};
      assert none + none == none;
    }

    /** afterMove, whose failures are only logged, and markDone. */
    method AfterMove(me: OfferId, to: Account, o: Offer, x: Site) returns (ok: bool, cur: Offer)
      requires Going(st, me, to, o) && x in o.sites && x in st.runs[me].known
      modifies this
      ensures me in st.offers && Going(st, me, to, st.offers[me]) && Steps(k, old(Now()), Now(), me, to, {})
      ensures links == old(links) || links == old(links) - {(o.from, x)}
      ensures Quiet(k, |old(log)|) ==> links == old(links) - {(o.from, x)}
      ensures |log| == |old(log)| + 2
      ensures ok ==> cur == st.offers[me] && NotDone(cur) == NotDone(o) - {x}
      ensures !ok ==> cur == o && (st.offers[me] == o || Behind(o, st.offers[me], x))
      ensures st.offers[me] != o && !ok ==> Evident(k, log, |old(log)|, MarkedUnsaid(x))
      ensures Quiet(k, |old(log)|) ==> ok && Still(old(st), st, me)
      ensures !ok ==> Evident(k, log, |old(log)|, Halted)
    {
      hide Inv, Leads, AllOf, Linked, Handed, Moved, Evident;
      AcceptedByRun(st, me, to, o);
      var unlinked := Mark(me, to, o, o.from, x, false);
      ghost var mid := Now();
      ok, cur := MarkDone(me, to, o, x);
      StepsOn(k, old(Now()), mid, Now(), me, to);
      EvidentAll(k, log, |mid.log|, log, |old(log)|);
    }

    /** One site of recordMoved. */
    method RecordOne(me: OfferId, to: Account, o0: Offer, x: Site) returns (o: Offer, again: bool, ok: bool)
      requires Going(st, me, to, o0) && x in NotDone(o0)
      modifies this
      ensures me in st.offers && Going(st, me, to, st.offers[me]) && Goes(k, old(Now()), Now(), me, to, {})
      ensures old(log) < log && Grows(old(links), links, to, o0.sites)
      ensures ok ==> o == st.offers[me] && NotDone(o) == if again then NotDone(o0) else NotDone(o0) - {x}
      ensures !ok ==> o == o0
      ensures Shown(k, log, |old(log)|, o, st.offers[me], {})
      ensures again ==> NotTheirs(st, to, x) || Evident(k, log, |old(log)|, Unread(x))
      ensures Quiet(k, |old(log)|) ==> ok && Still(old(st), st, me)
      ensures !ok ==> Evident(k, log, |old(log)|, Halted)
    {
      hide Inv, Leads, AllOf, Linked, Handed, Moved, Evident;
      o, ok := o0, true;
      AcceptedByRun(st, me, to, o);
      var theirs := Look(me, to, o, x);
      again := !theirs;
      SameShown(k, log, |old(log)|, o);
      if theirs {
        ghost var a := Now();
        var linked := Mark(me, to, o, to, x, true);
        ghost var b := Now();
        ok, o := AfterMove(me, to, o, x);
        GoesOn(k, old(Now()), a, b, me, to);
        if Quiet(k, |old(log)|) { NewlyDone(o0, st.offers[me], links, o0.from, to, x); }
        GoesDone(k, old(Now()), b, Now(), me, to, {});
        EvidentAll(k, log, |b.log|, log, |old(log)|);
        BehindShown(k, log, |old(log)|, o, st.offers[me], x);
      }
    }

    /** recordMoved: what is the recipient's already is recorded; the rest is
        still to move, but for sites whose owner could not be read not the
        recipient's. */
    method RecordMoved(me: OfferId, to: Account, o0: Offer) returns (todo: seq<Site>, o: Offer, ok: bool)
      requires Going(st, me, to, o0)
      modifies this
      ensures me in st.offers && Going(st, me, to, st.offers[me]) && Goes(k, old(Now()), Now(), me, to, {})
      ensures old(log) <= log && Grows(old(links), links, to, o0.sites)
      ensures ok ==> o == st.offers[me] && NoDup(todo) && Elems(todo) == NotDone(o)
      ensures ok ==> Rest(k, log, |old(log)|, st, to, todo)
      ensures Shown(k, log, |old(log)|, o, st.offers[me], {})
      ensures Quiet(k, |old(log)|) ==> ok && Still(old(st), st, me)
      ensures !ok ==> Evident(k, log, |old(log)|, Halted)
    {
      hide Inv, Leads, AllOf, Linked, Handed, Moved, Evident;
      todo, o, ok := [], o0, true;
      AcceptedByRun(st, me, to, st.offers[me]);
      GoesNowhere(k, Now(), me, to);
      var left := NotDone(o);
      while left != {}
        invariant Going(st, me, to, o) && Goes(k, old(Now()), Now(), me, to, {}) && old(log) <= log
        invariant left !! Elems(todo) && left + Elems(todo) == NotDone(o) && NoDup(todo)
        invariant Rest(k, log, |old(log)|, st, to, todo)
        invariant Grows(old(links), links, to, o0.sites) && o.sites == o0.sites
        invariant Quiet(k, |old(log)|) ==> Still(old(st), st, me)
      {
        var x :| x in left;
        ghost var a := Now();
        var again;
        o, again, ok := RecordOne(me, to, o, x);
        GoesOn(k, old(Now()), a, Now(), me, to);
        EvidentAll(k, log, |a.log|, log, |old(log)|);
        if !ok {
          ShownMore(k, log, |a.log|, |old(log)|, o, st.offers[me], {});
          return;
        }
        RestOn(k, a, Now(), |old(log)|, me, to, todo);
        SameSender(a.st, st, me, to, {});
        if again {
          ElemsAppend(todo, [x]);
          todo := todo + [x];
        }
        left := left - {x};
      }
      SameShown(k, log, |old(log)|, o);
    }

    lemma Loaded(s: State, me: OfferId, to: Account, o: Offer)
      requires Going(s, me, to, o)
      ensures Inv(s) && me in s.runs && me in s.offers && s.offers[me] == o
      ensures o.from != to && o.acceptedBy == to
    {
      AcceptedByRun(s, me, to, o);
    }

    lemma InBetween(s: State, t: State, me: OfferId, n: nat)
      requires Between(s, t, me, n)
      ensures me in t.runs
    {
    }

    lemma GoesMoving(k: Oracle, a: Moment, b: Moment, me: OfferId, to: Account, o: Offer, moved: set<Site>)
      requires Going(a.st, me, to, o) && Going(b.st, me, to, o)
      requires Leads(k, a, b) && AllOf(b.log, |a.log|, me) && Moved(a.st, b.st, me, to, moved) && b.links == a.links
      requires forall x | x in moved :: (to, x) in b.links
      ensures Goes(k, a, b, me, to, moved)
    {
      hide Leads, AllOf, Moved;
      AcceptedByRun(a.st, me, to, o);
      GoesPlain(k, a, b, me, to, moved);
    }

    /** A TransferSite, and what everybody else does before it. */
    lemma TransferOf(s: State, mid: State, me: OfferId, to: Account, o: Offer, x: Site, n: nat, fails: bool)
      requires Going(s, me, to, o) && x in o.sites && Between(s, mid, me, n) && me in mid.runs
      ensures var can := !fails && Can(mid, me, mid.runs[me], Move(x));
              var t := if fails then mid else StepRun(mid, me, mid.runs[me], Move(x));
              && Going(t, me, to, o) && Moved(s, t, me, to, if can then {x} else {})
              && me in t.runs && (can ==> x in t.runs[me].known)
              && (k.others(n) == [] && !fails && x in s.owners && s.owners[x] == o.from && x !in s.locked ==>
                    can && t.owners == s.owners[x := to] && Alone(s, t, me))
    {
      hide Inv, Env;
      OthersMoveNothing(s, mid, me, to, o);
      MoveGoes(mid, me, to, o, x);
      RunIsAlone(mid, me, Move(x));
      NothingMoved(mid, me, to);
      var can := !fails && Can(mid, me, mid.runs[me], Move(x));
      var t := if fails then mid else StepRun(mid, me, mid.runs[me], Move(x));
      MovedTrans(s, mid, t, me, to, {}, if can then {x} else {});
      assert {} + {x} == {x};
    }

    /** TransferSite, when the site is there. */
    method Transfer(me: OfferId, to: Account, o: Offer, x: Site) returns (ok: bool, pw: nat, ghost moved: set<Site>)
      requires Going(st, me, to, o) && x in o.sites && (to, x) in links
      modifies this
      ensures Going(st, me, to, o) && Goes(k, old(Now()), Now(), me, to, moved) && links == old(links)
      ensures moved <= {x} && (ok ==> moved == {x} && x in st.runs[me].known)
      ensures ok ==> Evident(k, log, |old(log)|, Given(me, x, pw))
      ensures !ok && moved == {x} ==> Evident(k, log, |old(log)|, MovedUnsaid(me, x))
      ensures Quiet(k, |old(log)|) && x in old(st).owners && old(st).owners[x] == o.from && x !in old(st).locked ==>
                ok && st.owners == old(st).owners[x := to] && Alone(old(st), st, me)
      ensures !ok ==> Evident(k, log, |old(log)|, Halted)
    {
      hide Inv, Leads, AllOf, Linked, Handed, Going, Moved, Between, Env, StepRun, Can, Alone, Check, Clear,
        Objects, FactsFrom;
      ghost var mid;
      var n := |log|;
      ghost var s := st;
      pw := k.password(n);
      Loaded(st, me, to, o);
      ok, mid := Do(me, Move(x));
      InBetween(s, mid, me, n);
      TransferOf(s, mid, me, to, o, x, n, k.fate(n).Fails?);
      moved := if !k.fate(n).Fails? && Can(mid, me, mid.runs[me], Move(x)) then {x} else {};
      GoesMoving(k, old(Now()), Now(), me, to, o, moved);
      EvidentLast(k, old(log), log[n], Given(me, x, pw));
      EvidentLast(k, old(log), log[n], MovedUnsaid(me, x));
      EvidentLast(k, old(log), log[n], Halted);
    }

    /** moveSite from TransferSite on. Once the site moved, the result has its
        password, as the call answered, and no longer lists it as still to move,
        even when recording it failed. */
    method MoveAndRecord(me: OfferId, to: Account, o: Offer, x: Site)
      returns (ok: bool, pw: Option<nat>, shown: Offer, ghost moved: set<Site>)
      requires Going(st, me, to, o) && x in NotDone(o) && (to, x) in links
      modifies this
      ensures me in st.offers && Going(st, me, to, st.offers[me]) && Goes(k, old(Now()), Now(), me, to, moved)
      ensures moved <= {x} && (pw.Some? ==> moved == {x} && Evident(k, log, |old(log)|, Given(me, x, pw.value)))
      ensures pw.None? && moved == {x} ==> Evident(k, log, |old(log)|, MovedUnsaid(me, x))
      ensures ok ==> pw.Some? && shown == st.offers[me]
      ensures NotDone(shown) == if pw.Some? then NotDone(o) - {x} else NotDone(o)
      ensures Shown(k, log, |old(log)|, shown, st.offers[me], if pw.Some? then {x} else {})
      ensures Quiet(k, |old(log)|) && x in old(st).owners && old(st).owners[x] == o.from && x !in old(st).locked ==>
                ok && st.owners == old(st).owners[x := to] && Alone(old(st), st, me)
      ensures !ok ==> Evident(k, log, |old(log)|, Halted)
    {
      hide Inv, Leads, AllOf, Linked, Handed, Moved, Evident;
      pw, shown := None, o;
      AcceptedByRun(st, me, to, o);
      var word;
      ok, word, moved := Transfer(me, to, o, x);
      SameShown(k, log, |old(log)|, o);
      if !ok { return; }
      ghost var mid := Now();
      pw := Some(word);
      var cur;
      ok, cur := AfterMove(me, to, o, x);
      LeadsLog(k, old(Now()), mid);
      QuietOn(k, |old(log)|, |mid.log|);
      if Quiet(k, |old(log)|) { NewlyDone(o, st.offers[me], links, o.from, to, x); }
      GoesDone(k, old(Now()), mid, Now(), me, to, moved);
      EvidentAll(k, mid.log, |old(log)|, log, |old(log)|);
      EvidentAll(k, log, |mid.log|, log, |old(log)|);
      ShownMoved(k, log, |old(log)|, o, st.offers[me], x, ok);
      shown := if ok then cur else o.(done := o.done + [x]);
    }

    /** moveSite. */
    method MoveSite(me: OfferId, to: Account, o: Offer, x: Site)
      returns (ok: bool, pw: Option<nat>, shown: Offer, ghost moved: set<Site>)
      requires Going(st, me, to, o) && x in NotDone(o)
      modifies this
      ensures me in st.offers && Going(st, me, to, st.offers[me])
      ensures Goes(k, old(Now()), Now(), me, to, moved) && old(log) < log
      ensures moved <= {x} && (pw.Some? ==> moved == {x} && Evident(k, log, |old(log)|, Given(me, x, pw.value)))
      ensures pw.None? && moved == {x} ==> Evident(k, log, |old(log)|, MovedUnsaid(me, x))
      ensures moved != {} ==> Evident(k, log, |old(log)|, Looked(x))
      ensures ok ==> pw.Some? && shown == st.offers[me]
      ensures NotDone(shown) == if pw.Some? then NotDone(o) - {x} else NotDone(o)
      ensures Shown(k, log, |old(log)|, shown, st.offers[me], if pw.Some? then {x} else {})
      ensures Quiet(k, |old(log)|) && x in old(st).owners && old(st).owners[x] == o.from && x !in old(st).locked ==>
                ok && st.owners == old(st).owners[x := to] && Alone(old(st), st, me)
      ensures !ok ==> Evident(k, log, |old(log)|, Halted)
    {
      hide Inv, Leads, AllOf, Linked, Handed, Moved, Evident;
      pw, shown, moved := None, o, {};
      ok := Wait(me, to, o, FormerAdmins(x));
      EvidentLast(k, old(log), log[|old(log)|], Halted);
      EvidentLast(k, old(log), log[|old(log)|], Looked(x));
      ghost var first := log;
      ok := ok && x in st.owners;
      SameShown(k, log, |old(log)|, o);
      if !ok { return; }
      ghost var a := Now();
      ok := Mark(me, to, o, to, x, true);
      EvidentLast(k, a.log, log[|a.log|], Halted);
      EvidentAll(k, log, |a.log|, log, |old(log)|);
      GoesOn(k, old(Now()), a, Now(), me, to);
      SameShown(k, log, |old(log)|, o);
      if !ok { return; }
      ghost var b := Now();
      ok, pw, shown, moved := MoveAndRecord(me, to, o, x);
      GoesThen(k, old(Now()), b, Now(), me, to, moved);
      EvidentMore(k, first, |old(log)|, log, |old(log)|, Looked(x));
      EvidentAll(k, log, |b.log|, log, |old(log)|);
      ShownMore(k, log, |b.log|, |old(log)|, shown, st.offers[me], if pw.Some? then {x} else {});
    }

    /** The moves of runAccepting, one site after the other, stopping at the
        first that fails. */
    method MoveRest(me: OfferId, to: Account, o0: Offer, todo: seq<Site>)
      returns (ok: bool, moved: seq<(Site, nat)>, shown: Offer, ghost gone: set<Site>)
      requires Going(st, me, to, o0) && NoDup(todo) && Elems(todo) == NotDone(o0)
      modifies this
      ensures me in st.offers && Going(st, me, to, st.offers[me])
      ensures Goes(k, old(Now()), Now(), me, to, gone) && old(log) <= log
      ensures |moved| <= |todo| && forall i | 0 <= i < |moved| :: moved[i].0 == todo[i]
      ensures AllGiven(k, log, |old(log)|, me, moved)
      ensures AllTold(k, log, |old(log)|, me, moved, gone) && gone <= Elems(todo)
      ensures forall x | x in gone :: Evident(k, log, |old(log)|, Looked(x))
      ensures ok ==> gone == Ids(moved) && shown == st.offers[me] && NotDone(shown) == {}
      ensures NotDone(shown) == NotDone(o0) - Ids(moved)
      ensures Shown(k, log, |old(log)|, shown, st.offers[me], Ids(moved))
      ensures Quiet(k, |old(log)|) && Movable(old(st), o0.from, todo) ==> ok && Alone(old(st), st, me)
      ensures !ok ==> Evident(k, log, |old(log)|, Halted)
    {
      hide Inv, Leads, AllOf, Linked, Handed, AllGiven, Alone, Moved, Evident, Shown, Elems, Ids, NotDone;
      moved, shown, gone, ok := [], o0, {}, true;
      AcceptedByRun(st, me, to, st.offers[me]);
      GoesNowhere(k, Now(), me, to);
      assert todo[0..] == todo;
      NoneGiven(k, log, me);
      NothingElse(st, me);
      NoneOf(todo);
      ghost var quiet := Quiet(k, |log|) && Movable(st, o0.from, todo);
      for i := 0 to |todo|
        invariant Going(st, me, to, shown) && Goes(k, old(Now()), Now(), me, to, gone) && old(log) <= log
        invariant shown.from == o0.from
        invariant |moved| == i && forall j | 0 <= j < i :: moved[j].0 == todo[j]
        invariant AllGiven(k, log, |old(log)|, me, moved)
        invariant forall x | x in gone :: Evident(k, log, |old(log)|, Looked(x))
        invariant Ids(moved) == gone && gone + Elems(todo[i..]) == NotDone(o0)
        invariant NotDone(shown) == NotDone(o0) - gone && gone !! Elems(todo[i..])
        invariant quiet ==> Movable(st, o0.from, todo[i..]) && Alone(old(st), st, me)
      {
        Pick(todo, i);
        ghost var a := Now();
        ghost var landed;
        var pw;
        ok, pw, shown, landed := MoveSite(me, to, shown, todo[i]);
        GoesTrans(k, old(Now()), a, Now(), me, to, gone, landed);
        SameSender(a.st, st, me, to, landed);
        GivenMore(k, a.log, |old(log)|, log, me, moved, todo[i], pw);
        EvidentMore(k, log, |a.log|, log, |old(log)|, MovedUnsaid(me, todo[i]));
        EvidentMore(k, log, |a.log|, log, |old(log)|, Halted);
        LookedMore(k, a.log, |old(log)|, log, gone, todo[i]);
        ShownMore(k, log, |a.log|, |old(log)|, shown, st.offers[me], if pw.Some? then {todo[i]} else {});
        gone := gone + landed;
        if quiet {
          MovableNext(a.st, st, me, o0.from, to, todo, i);
          AloneTrans(old(st), a.st, st, me);
        }
        if pw.Some? {
          IdsAppend(moved, (todo[i], pw.value));
          moved := moved + [(todo[i], pw.value)];
        }
        if !ok {
          ShownWider(k, log, |old(log)|, shown, st.offers[me], if pw.Some? then {todo[i]} else {}, Ids(moved));
          assert Elems(todo[i..]) <= Elems(todo) by {
            assert todo == todo[..i] + todo[i..]; ElemsAppend(todo[..i], todo[i..]);
          }
          return;
        }
      }
      SameShown(k, log, |old(log)|, shown);
      ShownWider(k, log, |old(log)|, shown, st.offers[me], {}, Ids(moved));
    }

    /** What acceptCheck reads, taken as one call. */
    method ReadFacts(me: OfferId, to: Account, o: Offer, todo: seq<Site>) returns (ok: bool, facts: World)
      requires Going(st, me, to, o)
      modifies this
      ensures Going(st, me, to, o) && Goes(k, old(Now()), Now(), me, to, {}) && old(log) < log && links == old(links)
      ensures ok == k.fate(|old(log)|).Works? && FactsOf(facts, st) && facts == Facts(|old(log)|, to)
      ensures ok && Clear(facts, o.from, to, todo) ==> Evident(k, log, |old(log)|, Cleared(o.from, to, todo))
      ensures ok && Objects(facts, o.from, to, todo) ==> Evident(k, log, |old(log)|, Refused(o.from, to, todo))
      ensures ok && Objects(facts, o.from, to, todo) && Check(facts, o.from, to, todo).value != Some(GoneKind) ==>
                Evident(k, log, |old(log)|, Barred(o.from, to, todo))
      ensures ok && Check(facts, o.from, to, todo) == Known(Some(GoneKind)) ==>
                Evident(k, log, |old(log)|, Strayed(o.from, to, todo))
      ensures Once(log, |old(log)|)
      ensures Quiet(k, |old(log)|) ==> ok && st == old(st) && !facts.senderPlan.UnknownTier? && !facts.plan.UnknownTier?
      ensures !ok || facts.senderPlan.UnknownTier? || facts.plan.UnknownTier? ==> Evident(k, log, |old(log)|, Halted)
    {
      hide Inv, Leads, AllOf, Linked, Handed, Moved, Clear, Objects;
      var n := |log|;
      ok := Wait(me, to, o, CheckFacts);
      facts := Facts(n, to);
      EvidentLast(k, old(log), log[n], Cleared(o.from, to, todo));
      EvidentLast(k, old(log), log[n], Refused(o.from, to, todo));
      EvidentLast(k, old(log), log[n], Barred(o.from, to, todo));
      EvidentLast(k, old(log), log[n], Strayed(o.from, to, todo));
      assert log[n].op == Asks(CheckFacts);
      EvidentLast(k, old(log), log[n], Halted);
    }

    /** One pass of runAccepting before anything moves: what is the recipient's
        already is recorded, the rest re-checked. Again says that the check found
        a site no longer the sender's. */
    method Pass(me: OfferId, to: Account, o0: Offer, recheck: bool, gone: bool)
      returns (v: Verdict, todo: seq<Site>, o: Offer)
      requires Going(st, me, to, o0)
      modifies this
      ensures me in st.offers && Going(st, me, to, st.offers[me])
      ensures Goes(k, old(Now()), Now(), me, to, {}) && old(log) <= log
      ensures !v.Stop? ==> o == st.offers[me] && NoDup(todo) && Elems(todo) == NotDone(o)
      ensures !v.Stop? ==> Rest(k, log, |old(log)|, st, to, todo)
      ensures Shown(k, log, |old(log)|, o, st.offers[me], {})
      ensures v.Leave? ==> todo != [] && (gone || (recheck && Objected(k, log, |old(log)|, o.from, to, todo)))
      ensures v.Again? ==>
                todo != [] && recheck && Evident(k, log, |old(log)|, Refused(o.from, to, todo)) && Once(log, |old(log)|)
                && Evident(k, log, |old(log)|, Strayed(o.from, to, todo))
      ensures v.Go? && todo != [] ==> !gone && (recheck ==> Evident(k, log, |old(log)|, Cleared(o.from, to, todo)))
      ensures Quiet(k, |old(log)|) ==>
                !v.Stop? && Still(old(st), st, me) && (v.Go? && recheck ==> Movable(st, o.from, todo))
      ensures Quiet(k, |old(log)|) && Steady(k, |old(log)|) && recheck && !gone &&
              Interrupted(old(Facts(|log|, to)), o0, to) ==>
                v.Go?
      ensures v.Stop? ==> Evident(k, log, |old(log)|, Halted)
    {
      hide Inv, Leads, AllOf, Linked, Handed, Moved, Evident, Objected, Twice, Once, Interrupted, Shown;
      v := Stop;
      ghost var was := Facts(|log|, to);
      var ok;
      todo, o, ok := RecordMoved(me, to, o0);
      if !ok { return; }
      if todo != [] && gone { v := Leave; return; }
      if todo == [] || !recheck { v := Go; return; }
      ghost var a := Now();
      var facts;
      ok, facts := ReadFacts(me, to, o, todo);
      GoesOn(k, old(Now()), a, Now(), me, to);
      SameShown(k, log, |old(log)|, o);
      RestOn(k, a, Now(), |old(log)|, me, to, todo);
      EvidentAll(k, log, |a.log|, log, |old(log)|);
      TwiceOn(a.log, |old(log)|, log);
      ObjectedIs(k, log, |old(log)|, o.from, to, todo);
      if !ok { return; }
      CheckKnown(facts, o.from, to, todo);
      if Quiet(k, |old(log)|) && Clear(facts, o.from, to, todo) { ClearMovable(facts, st, o.from, to, todo); }
      if Quiet(k, |old(log)|) && Steady(k, |old(log)|) && Interrupted(was, o0, to) {
        QuietReads(k, |old(log)|, log);
        SameFacts(|old(log)|, |a.log|, was, facts, old(links), to, o0.sites);
        SameSender(old(st), st, me, to, {});
        FitsNow(st, me, to, o0, o, todo, was, facts);
      }
      var answer := Check(facts, o.from, to, todo);
      if answer.Unknown? { return; }
      v := if answer.value.None? then Go else if answer.value == Some(GoneKind) then Again else Leave;
    }

    lemma SameFacts(n: nat, m: nat, v: World, facts: World, was: Links, to: Account, sites: seq<Site>)
      requires Steady(k, n) && m >= n && facts == Facts(m, to)
      requires v == FactsFrom(k, n, st, was, to) && Grows(was, links, to, sites)
      ensures facts.(links := v.links) == v && v.links <= facts.links <= v.links + Elems(sites)
    {
    }

    /** The passes of runAccepting: a site the first check finds no longer the
        sender's is looked at once more. */
    method Settle(me: OfferId, to: Account, o0: Offer, recheck: bool, gone: bool)
      returns (v: Verdict, todo: seq<Site>, o: Offer)
      requires Going(st, me, to, o0)
      modifies this
      ensures me in st.offers && Going(st, me, to, st.offers[me])
      ensures Goes(k, old(Now()), Now(), me, to, {}) && old(log) <= log
      ensures !v.Again? && (!v.Stop? ==> o == st.offers[me] && NoDup(todo) && Elems(todo) == NotDone(o))
      ensures !v.Stop? ==> Rest(k, log, |old(log)|, st, to, todo)
      ensures Shown(k, log, |old(log)|, o, st.offers[me], {})
      ensures v.Leave? ==> todo != [] && (gone || (recheck && Objected(k, log, |old(log)|, o.from, to, todo)))
      ensures v.Go? && todo != [] ==> !gone && (recheck ==> Evident(k, log, |old(log)|, Cleared(o.from, to, todo)))
      ensures Quiet(k, |old(log)|) ==>
                !v.Stop? && Still(old(st), st, me) && (v.Go? && recheck ==> Movable(st, o.from, todo))
      ensures Quiet(k, |old(log)|) && Steady(k, |old(log)|) && recheck && !gone &&
              Interrupted(old(Facts(|log|, to)), o0, to) ==>
                v.Go?
      ensures v.Stop? ==> Evident(k, log, |old(log)|, Halted)
    {
      hide Inv, Leads, AllOf, Linked, Handed, Moved, Evident, Objected, Twice, Once, Interrupted, Shown;
      v, todo, o := Pass(me, to, o0, recheck, gone);
      if v.Again? {
        ghost var a := Now();
        v, todo, o := Pass(me, to, o, recheck, gone);
        GoesOn(k, old(Now()), a, Now(), me, to);
        EvidentAll(k, log, |a.log|, log, |old(log)|);
        TwiceOn(a.log, |old(log)|, log);
        ObjectedIs(k, log, |old(log)|, o.from, to, todo);
        ObjectedOn(k, log, |a.log|, log, |old(log)|, o.from, to, todo);
        ShownMore(k, log, |a.log|, |old(log)|, o, st.offers[me], {});
        if v.Again? { v := Leave; }
      }
    }

    /** runAccepting from its read of the recipient's account to the moves. */
    method Prepare(me: OfferId, to: Account, o0: Offer, recheck: bool) returns (v: Verdict, todo: seq<Site>, o: Offer)
      requires Going(st, me, to, o0)
      modifies this
      ensures me in st.offers && Going(st, me, to, st.offers[me])
      ensures Goes(k, old(Now()), Now(), me, to, {}) && old(log) < log
      ensures !v.Again? && (!v.Stop? ==> o == st.offers[me] && NoDup(todo) && Elems(todo) == NotDone(o))
      ensures !v.Stop? ==> Rest(k, log, |old(log)|, st, to, todo)
      ensures Shown(k, log, |old(log)|, o, st.offers[me], {})
      ensures v.Leave? ==> todo != [] && WhyLeft(k, log, |old(log)|, recheck, o.from, to, todo)
      ensures v.Go? && todo != [] ==> WhyGone(k, log, |old(log)|, recheck, o.from, to, todo)
      ensures Quiet(k, |old(log)|) ==> !v.Stop? && Alone(old(st), st, me)
      ensures Quiet(k, |old(log)|) && v.Go? && (recheck || Ready(old(st), me, to)) ==> Movable(st, o.from, todo)
      ensures Quiet(k, |old(log)|) && v.Leave? && !recheck ==> k.world(|old(log)|).recipient.Missing?
      ensures Quiet(k, |old(log)|) && Steady(k, |old(log)|) && recheck && Interrupted(old(Facts(|log|, to)), o0, to) ==>
                v.Go?
      ensures v.Stop? ==> Evident(k, log, |old(log)|, Halted)
    {
      hide Inv, Leads, AllOf, Linked, Handed, Moved, Evident, Objected, Twice, Once, Interrupted, Shown;
      var n := |log|;
      v, todo, o := Stop, [], o0;
      var ok := Wait(me, to, o0, RecipientAccount);
      EvidentLast(k, old(log), log[n], NoRecipient);
      EvidentLast(k, old(log), log[n], HasRecipient);
      EvidentLast(k, old(log), log[n], Halted);
      SameShown(k, log, n, o0);
      if !ok { return; }
      if Quiet(k, n) && Steady(k, n) && Interrupted(old(Facts(|log|, to)), o0, to) {
        FactsSteady(k, n, |log|, old(st), st, links, to);
        StillLive(old(Facts(|log|, to)), o0, to);
      }
      ghost var a := Now();
      v, todo, o := Settle(me, to, o0, recheck, k.world(n).recipient.Missing?);
      GoesOn(k, old(Now()), a, Now(), me, to);
      EvidentAll(k, log, |a.log|, log, n);
      EvidentAll(k, a.log, n, log, n);
      ObjectedOn(k, log, |a.log|, log, n, o.from, to, todo);
      ShownMore(k, log, |a.log|, n, o, st.offers[me], {});
      if Quiet(k, n) && v.Go? && !recheck && Ready(old(st), me, to) {
        QuietReads(k, n, log);
        ReadyMovable(old(st), st, me, to, o, todo);
      }
    }

    /** transferGrant, when something is to move. */
    method Caps(me: OfferId, to: Account, o: Offer, todo: seq<Site>) returns (ok: bool)
      requires Going(st, me, to, o)
      modifies this
      ensures Going(st, me, to, o) && Goes(k, old(Now()), Now(), me, to, {}) && old(log) <= log
      ensures if todo == [] then log == old(log) else ok ==> Evident(k, log, |old(log)|, Capped)
      ensures Quiet(k, |old(log)|) ==> ok && st == old(st)
      ensures !ok ==> Evident(k, log, |old(log)|, Halted)
    {
      hide Inv, Leads, AllOf, Linked, Handed, Moved, Evident, Check, Clear, Objects, FactsFrom;
      ok := true;
      AcceptedByRun(st, me, to, st.offers[me]);
      GoesNowhere(k, Now(), me, to);
      if todo != [] {
        ok := Wait(me, to, o, PlanCaps);
        EvidentLast(k, old(log), log[|old(log)|], Halted);
        EvidentLast(k, old(log), log[|old(log)|], Capped);
        ok := ok && !k.world(|log| - 1).plan.UnknownTier?;
      }
    }

    /** The run's last write: the offer becomes final. */
    method Close(me: OfferId, to: Account, o: Offer, op: RunOp) returns (ok: bool)
      requires Going(st, me, to, o) && (op.Finish? || op.GiveUp?)
      modifies this
      ensures Inv(st) && me in st.runs && st.runs[me].to == to && old(log) < log
      ensures Goes(k, old(Now()), Now(), me, to, {}) && me in st.offers
      ensures ok ==> st.offers[me] == o.(state := if op.GiveUp? && o.done == [] then Ended else Accepted)
      ensures ok && op.Finish? ==> NotDone(o) == {}
      ensures !ok ==> Shown(k, log, |old(log)|, o, st.offers[me], {})
      ensures Quiet(k, |old(log)|) && (op.Finish? ==> NotDone(o) == {}) ==> ok && Still(old(st), st, me)
      ensures !ok ==> Evident(k, log, |old(log)|, Halted)
    {
      hide Inv, Leads, AllOf, Linked, Handed, Going, Moved, Between, Env, StepRun, Can, Still, Shown, Check,
        Clear, Objects, FactsFrom;
      ghost var s, n := st, |log|;
      ghost var mid;
      Loaded(st, me, to, o);
      ok, mid := Do(me, op);
      InBetween(s, mid, me, n);
      CloseOf(s, mid, me, to, o, op, n, k.fate(n).Fails?);
      GoesPlain(k, old(Now()), Now(), me, to, {});
      EvidentLast(k, old(log), log[n], EndedUnsaid);
      EvidentLast(k, old(log), log[n], Halted);
      ghost var can := Can(mid, me, mid.runs[me], op);
      if !ok { ShownAfter(k, log, n, o, st.offers[me], !k.fate(n).Fails? && can); }
    }

    /** The last write, and what everybody else does before it. */
    lemma CloseOf(s: State, mid: State, me: OfferId, to: Account, o: Offer, op: RunOp, n: nat, fails: bool)
      requires Going(s, me, to, o) && (op.Finish? || op.GiveUp?) && Between(s, mid, me, n) && me in mid.runs
      ensures var can := !fails && Can(mid, me, mid.runs[me], op);
              var t := if fails then mid else StepRun(mid, me, mid.runs[me], op);
              && me in t.runs && t.runs[me].to == to && me in t.offers && Moved(s, t, me, to, {})
              && (can ==> t.offers[me] == o.(state := if op.GiveUp? && o.done == [] then Ended else Accepted)
                          && (op.Finish? ==> NotDone(o) == {}))
              && (!can ==> t.offers[me] == o)
              && (k.others(n) == [] && !fails && (op.Finish? ==> NotDone(o) == {}) ==> can && Still(s, t, me))
              && o.state.Accepting?
    {
      hide Inv, Env;
      OthersMoveNothing(s, mid, me, to, o);
      CloseGoes(mid, me, to, o, op);
      RunIsAlone(mid, me, op);
      NothingMoved(mid, me, to);
      MovedTrans(s, mid, if fails then mid else StepRun(mid, me, mid.runs[me], op), me, to, {}, {});
      var none: set<Site> := {};
      assert none + none == none;
    }

    /** runAccepting once nothing stands in the way: the caps, the moves, and
        the end. */
    method MoveAndFinish(me: OfferId, to: Account, o: Offer, todo: seq<Site>)
      returns (ok: bool, moved: seq<(Site, nat)>, shown: Offer, ghost gone: set<Site>)
      requires Going(st, me, to, o) && NoDup(todo) && Elems(todo) == NotDone(o)
      modifies this
      ensures Inv(st) && me in st.runs && st.runs[me].to == to && me in st.offers
      ensures Goes(k, old(Now()), Now(), me, to, gone) && old(log) <= log
      ensures AllGiven(k, log, |old(log)|, me, moved)
      ensures AllTold(k, log, |old(log)|, me, moved, gone) && gone <= Elems(todo)
      ensures gone != {} ==>
                Evident(k, log, |old(log)|, Capped) && forall x | x in gone :: Evident(k, log, |old(log)|, Looked(x))
      ensures ok ==> gone == Ids(moved) && shown == st.offers[me] && shown.state.Accepted? && NotDone(shown) == {}
      ensures Shown(k, log, |old(log)|, shown, st.offers[me], Ids(moved))
      ensures Quiet(k, |old(log)|) && Movable(old(st), o.from, todo) ==> ok && Alone(old(st), st, me)
      ensures !ok ==> Evident(k, log, |old(log)|, Halted)
    {
      hide Inv, Leads, AllOf, Linked, Handed, Alone, Moved, Evident, Shown;
      moved, shown, gone := [], o, {};
      ok := Caps(me, to, o, todo);
      SameShown(k, log, |old(log)|, o);
      if !ok { return; }
      ghost var a := Now();
      ok, moved, shown, gone := MoveRest(me, to, o, todo);
      GoesThen(k, old(Now()), a, Now(), me, to, gone);
      EvidentAll(k, log, |a.log|, log, |old(log)|);
      EvidentAll(k, a.log, |old(log)|, log, |old(log)|);
      ShownMore(k, log, |a.log|, |old(log)|, shown, st.offers[me], Ids(moved));
      if !ok { return; }
      ghost var b := Now();
      ok := Close(me, to, shown, Finish);
      GoesLast(k, old(Now()), b, Now(), me, to, gone);
      EvidentAll(k, b.log, |old(log)|, log, |old(log)|);
      if Quiet(k, |old(log)|) && Movable(old(st), o.from, todo) { StillIsAlone(old(st), b.st, st, me); }
      if ok {
        shown := st.offers[me];
        SameShown(k, log, |old(log)|, shown);
        ShownWider(k, log, |old(log)|, shown, st.offers[me], {}, Ids(moved));
      } else {
        EvidentAll(k, log, |b.log|, log, |old(log)|);
        ShownMore(k, log, |b.log|, |old(log)|, shown, st.offers[me], {});
        ShownWider(k, log, |old(log)|, shown, st.offers[me], {}, Ids(moved));
      }
    }

    /** runAccepting once it has read the offer. */
    method Advance(me: OfferId, to: Account, o0: Offer, recheck: bool)
      returns (run: AcceptRun, stayed: seq<Site>, ok: bool, ghost gone: set<Site>)
      requires Going(st, me, to, o0)
      modifies this
      ensures Inv(st) && me in st.runs && st.runs[me].to == to && me in st.offers
      ensures Goes(k, old(Now()), Now(), me, to, gone) && old(log) < log
      ensures Reports(k, log, |old(log)|, me, run, ok, gone, st.offers[me]) && run.offer.Some?
      ensures run.ended ==> Stays(k, log, |old(log)|, st, to, run, stayed, recheck)
      ensures gone != {} ==> MovesFor(k, log, |old(log)|, recheck, o0.from, to, gone)
      ensures Quiet(k, |old(log)|) && recheck ==> ok && Alone(old(st), st, me)
      ensures Quiet(k, |old(log)|) && !recheck && Ready(old(st), me, to) && !k.world(|old(log)|).recipient.Missing? ==>
                run.complete
      ensures Quiet(k, |old(log)|) && Steady(k, |old(log)|) && recheck && Interrupted(old(Facts(|log|, to)), o0, to) ==>
                run.complete
      ensures !ok ==> Evident(k, log, |old(log)|, Halted)
    {
      hide Inv, Leads, AllOf, Linked, Handed, Alone, Moved, Evident, Objected, Twice, Once, Interrupted, Shown;
      run, stayed, ok, gone := NOTHING, [], false, {};
      var v, todo, o;
      v, todo, o := Prepare(me, to, o0, recheck);
      run := run.(offer := Some(o));
      assert Ids([]) == {};
      ghost var a := Now();
      SameSender(old(st), st, me, to, {});
      match v
      case Leave =>
        ok := Close(me, to, o, GiveUp);
        GoesOn(k, old(Now()), a, Now(), me, to);
        RestOn(k, a, Now(), |old(log)|, me, to, todo);
        EvidentAll(k, a.log, |old(log)|, log, |old(log)|);
        ObjectedOn(k, a.log, |old(log)|, log, |old(log)|, o.from, to, todo);
        EvidentAll(k, log, |a.log|, log, |old(log)|);
        ShownEnd(k, log, |old(log)|, |a.log|, o, st.offers[me], ok);
        if ok { run, stayed := run.(offer := Some(st.offers[me]), ended := true), todo; }
        if Quiet(k, |old(log)|) { StillIsAlone(old(st), a.st, st, me); }
      case Go =>
        var moved, shown;
        ok, moved, shown, gone := MoveAndFinish(me, to, o, todo);
        GoesThen(k, old(Now()), a, Now(), me, to, gone);
        EvidentAll(k, log, |a.log|, log, |old(log)|);
        EvidentAll(k, a.log, |old(log)|, log, |old(log)|);
        ShownMore(k, log, |a.log|, |old(log)|, shown, st.offers[me], Ids(moved));
        run := run.(moved := moved, offer := Some(shown), complete := ok);
        assert gone != {} ==> todo != [];
        if gone != {} { assert MovesFor(k, log, |old(log)|, recheck, o0.from, to, gone); }
        if Quiet(k, |old(log)|) && recheck { AloneTrans(old(st), a.st, st, me); }
      case _ =>
    }

    /** GetOffer, and that the offer is being accepted by this account. */
    method Load(me: OfferId, to: Account) returns (ok: bool, o: Option<Offer>)
      requires Inv(st) && me in st.runs && st.runs[me].to == to
      modifies this
      ensures Inv(st) && me in st.runs && st.runs[me].to == to && old(log) < log
      ensures Leads(k, old(Now()), Now()) && links == old(links) && AllOf(log, |old(log)|, me)
      ensures ok ==> o.Some? && Going(st, me, to, o.value) && Accepts(old(st), me, to)
      ensures o.Some? ==> me in st.offers && o == Some(st.offers[me])
      ensures o.Some? <==> k.fate(|old(log)|).Works? && me in st.offers
      ensures MovedSince(old(st), st, me, {})
      ensures Accepts(old(st), me, to) ==> Moved(old(st), st, me, to, {}) && st.offers[me] == old(st).offers[me]
      ensures Quiet(k, |old(log)|) && Accepts(old(st), me, to) ==>
                ok && Still(old(st), st, me) && o.value == old(st).offers[me]
      ensures !ok ==> Evident(k, log, |old(log)|, Halted)
    {
      hide Inv, Leads, AllOf, Linked, Handed, Going, Moved, MovedSince, Between, Env, StepRun, Can, Still,
        Accepts, Check, Clear, Objects, FactsFrom;
      ghost var s, n := st, |log|;
      var f := k.fate(|log|);
      ghost var mid;
      ok, mid := Do(me, RunOp.Load);
      InBetween(s, mid, me, n);
      LoadOf(s, mid, me, to, n, f.Fails?);
      EvidentLast(k, old(log), log[n], Halted);
      o := if f.Works? && me in st.offers then Some(st.offers[me]) else None;
    }

    /** A read of the offer, and what everybody else does before it. */
    lemma LoadOf(s: State, mid: State, me: OfferId, to: Account, n: nat, fails: bool)
      requires Inv(s) && Between(s, mid, me, n) && me in mid.runs && s.runs[me].to == to
      ensures var can := !fails && Can(mid, me, mid.runs[me], RunOp.Load);
              var t := if fails then mid else StepRun(mid, me, mid.runs[me], RunOp.Load);
              && me in t.runs && t.runs[me].to == to && MovedSince(s, t, me, {})
              && (can ==> Accepts(s, me, to) && me in t.offers && Going(t, me, to, t.offers[me]))
              && (Accepts(s, me, to) ==>
                    me in s.offers && me in t.offers && Moved(s, t, me, to, {}) && t.offers[me] == s.offers[me])
              && (k.others(n) == [] && !fails && Accepts(s, me, to) ==> can && Still(s, t, me))
    {
      hide Inv, Env;
      RunIsAlone(mid, me, RunOp.Load);
      RunStep(mid, me, RunOp.Load);
      EnvStartsNone(s, me, k.others(n));
      var t := if fails then mid else StepRun(mid, me, mid.runs[me], RunOp.Load);
      if Accepts(s, me, to) { LoadMoves(s, mid, t, me, to); }
    }

    /** runAccepting; the caller holds the claim. gone are the sites TransferSite
        moved. */
    method RunAccepting(me: OfferId, to: Account, recheck: bool)
      returns (run: AcceptRun, stayed: seq<Site>, ok: bool, ghost gone: set<Site>)
      requires Inv(st) && me in st.runs && st.runs[me].to == to
      modifies this
      ensures Inv(st) && me in st.runs && st.runs[me].to == to && old(log) < log
      ensures Leads(k, old(Now()), Now()) && AllOf(log, |old(log)|, me)
      ensures Accepts(old(st), me, to) ==> Goes(k, old(Now()), Now(), me, to, gone)
      ensures MovedSince(old(st), st, me, gone)
      ensures run.offer.Some? ==> k.fate(|old(log)|).Works?
      ensures !Accepts(old(st), me, to) ==> links == old(links)
      ensures if me in st.offers then Reports(k, log, |old(log)|, me, run, ok, gone, st.offers[me])
        else run == NOTHING && !ok && gone == {}
      ensures Accepts(old(st), me, to) && run.offer.None? ==> st.offers[me] == old(st).offers[me]
      ensures run.ended ==> Stays(k, log, |old(log)|, st, to, run, stayed, recheck)
      ensures gone != {} ==>
                Accepts(old(st), me, to) && MovesFor(k, log, |old(log)|, recheck, old(st).offers[me].from, to, gone)
      ensures Quiet(k, |old(log)|) && Accepts(old(st), me, to) && recheck ==> ok && Alone(old(st), st, me)
      ensures Quiet(k, |old(log)|) && Present(k, |old(log)|) && Accepts(old(st), me, to) &&
              !recheck && Ready(old(st), me, to) ==>
                run.complete
      ensures recheck && old(Fits(me, to)) ==> run.complete
      ensures !ok ==> Evident(k, log, |old(log)|, Halted)
    {
      hide Inv, Leads, AllOf, Linked, Handed, Alone, Interrupted, Moved, Evident, Reports, Stays, MovesFor;
      stayed, gone := [], {};
      var loaded;
      ok, loaded := Load(me, to);
      run := NOTHING.(offer := loaded);
      ReportsNothing(k, log, |old(log)|, me, loaded);
      if Accepts(old(st), me, to) {
        Apart(old(st), me, to);
        GoesPlain(k, old(Now()), Now(), me, to, {});
      }
      if !ok { return; }
      ghost var a := Now();
      if Quiet(k, |old(log)|) && Steady(k, |old(log)|) && Accepts(old(st), me, to) {
        StillIs(old(st), st, me);
        FactsSteady(k, |old(log)|, |log|, old(st), st, links, to);
      }
      run, stayed, ok, gone := Advance(me, to, loaded.value, recheck);
      LeadsTrans(k, old(Now()), a, Now());
      LeadsLog(k, a, Now());
      EvidentAll(k, log, |a.log|, log, |old(log)|);
      ReportsMore(k, log, |a.log|, |old(log)|, me, run, ok, gone, st.offers[me]);
      StaysMore(k, log, |a.log|, |old(log)|, st, to, run, stayed, recheck);
      MovesMore(k, log, |a.log|, |old(log)|, recheck, loaded.value.from, to, gone);
      GoesThen(k, old(Now()), a, Now(), me, to, gone);
      SinceMoved(old(st), st, me, to, gone);
      SameSender(old(st), a.st, me, to, {});
      if Accepts(old(st), me, to) {
        if Quiet(k, |old(log)|) {
          if recheck { StillFirst(old(st), a.st, st, me); }
          if Ready(old(st), me, to) { ReadyStays(old(st), a.st, me, to); }
        }
      }
    }

    /** A claim (claimAccept), in memory: it is got if nobody holds the offer. */
    method Claim(id: OfferId, a: Claiming) returns (got: bool)
      requires Inv(st) && a.id == id
      modifies this
      ensures Inv(st) && old(log) < log && |log| == |old(log)| + 1 && links == old(links) && Leads(k, old(Now()), Now())
      ensures var found := Exec(old(st), k.others(|old(log)|));
              st == Step(found, a) && got == (id !in found.runs) &&
                log == old(log) + [Call(None, Takes(a), found, links)]
      ensures !got || id !in st.runs ==> Clean(log, |old(log)|)
      ensures k.others(|old(log)|) == [] ==> log[|old(log)|].at == old(st)
    {
      hide Inv, Step;
      var n := |log|;
      EveryRun(st, k.others(n));
      var found := Exec(st, k.others(n));
      assert k.others(n) == [] ==> found == st;
      EveryStep(found, a);
      got := id !in found.runs;
      OneClaim(log, Call(None, Takes(a), found, links));
      log := log + [Call(None, Takes(a), found, links)];
      st := Step(found, a);
      LeadsOne(k, old(Now()), Now());
    }

    /** Its release. */
    method Free(id: OfferId)
      requires Inv(st) && id in st.runs
      modifies this
      ensures Inv(st) && old(log) < log && |log| == |old(log)| + 1 && links == old(links) && Leads(k, old(Now()), Now())
      ensures st == old(st).(runs := old(st).runs - {id}) && log == old(log) + [Call(None, Frees(id), old(st), links)]
    {
      hide Inv;
      EveryStep(st, OnRun(id, Release));
      log := log + [Call(None, Frees(id), st, links)];
      st := Step(st, OnRun(id, Release));
      LeadsOne(k, old(Now()), Now());
    }

    /** completeAccepting under the claim, to its release. */
    method CompleteClaimed(id: OfferId, to: Account) returns (run: AcceptRun, ok: bool, ghost gone: set<Site>)
      requires Inv(st) && id in st.runs && st.runs[id].to == to
      modifies this
      ensures Inv(st) && old(log) < log && Leads(k, old(Now()), Now()) && id !in st.runs
      ensures AllOf(log[..|log| - 1], |old(log)|, id) && log[|log| - 1].who.None? && log[|log| - 1].op == Frees(id)
      ensures ok ==> id in st.offers && run.offer == Some(st.offers[id]) && IsFinal(st.offers[id].state)
      ensures id in st.offers ==> Reports(k, log, |old(log)|, id, run, ok, gone, st.offers[id])
      ensures MovedSince(old(st), st, id, gone)
      ensures !Accepts(old(st), id, to) ==> links == old(links)
      ensures Accepts(old(st), id, to) ==>
                && id in st.offers
                && HandsOver(k, |old(log)|, old(st).offers[id], st.offers[id], old(links), links, to, gone)
      ensures gone != {} ==>
                Accepts(old(st), id, to) && MovesFor(k, log, |old(log)|, true, old(st).offers[id].from, to, gone)
      ensures Quiet(k, |old(log)|) && Accepts(old(st), id, to) ==> ok && AndRelease(old(st), st, id)
      ensures old(Fits(id, to)) ==> run.complete && NotDone(st.offers[id]) == {}
      ensures !ok ==> Evident(k, log, |old(log)|, Halted)
    {
      hide Inv, Leads, AllOf, Goes, HandsOver, Check, Clear, Objects, AndRelease, FitsAt, Alone, Moved,
        Evident, Reports, Stays, MovesFor;
      var stayed;
      run, stayed, ok, gone := RunAccepting(id, to, true);
      ghost var b := Now();
      if Accepts(old(st), id, to) { GoesHands(k, old(Now()), b, id, to, gone); }
      if id in st.offers {
        ReportsFinal(k, log, |old(log)|, id, run, ok, gone, st.offers[id]);
        if run.ended { StaysFinal(k, log, |old(log)|, st, to, run, stayed, true); }
      }
      if Quiet(k, |old(log)|) && Accepts(old(st), id, to) { RunAndRelease(old(st), b.st, id); }
      Free(id);
      LeadsTrans(k, old(Now()), b, Now());
      EvidentMore(k, b.log, |old(log)|, log, |old(log)|, Halted);
      assert log[..|log| - 1] == b.log;
      if id in st.offers { ReportsOn(k, b.log, log, |old(log)|, id, run, ok, gone, st.offers[id]); }
      if gone != {} { MovesOn(k, b.log, log, |old(log)|, true, old(st).offers[id].from, to, gone); }
    }

    /** completeAccepting, from the claim to its release. Whatever fails, exactly
        the sites in gone were moved since the claim, and only after a clear check.
        An undisturbed call makes the offer final; and an acceptance whose check was
        clear, with nothing but its own moves since, wherever it stopped, it
        completes whole. */
    method CompleteAccepting(id: OfferId, to: Account)
      returns (busy: bool, run: AcceptRun, ok: bool, ghost gone: set<Site>)
      requires Inv(st) && to != NOBODY
      modifies this
      ensures Inv(st) && old(log) < log && Leads(k, old(Now()), Now())
      ensures Clean(log, |old(log)|) && NoListing(log, |old(log)|)
      ensures busy == (id in Exec(old(st), k.others(|old(log)|)).runs)
      ensures busy ==> st == Exec(old(st), k.others(|old(log)|)) && !ok && gone == {}
      ensures !busy ==> id !in st.runs
      ensures ok ==> id in st.offers && run.offer == Some(st.offers[id]) && IsFinal(st.offers[id].state)
      ensures !busy && id in st.offers ==> Reports(k, log, |old(log)|, id, run, ok, gone, st.offers[id])
      ensures var found := log[|old(log)|].at;
              && log[|old(log)|].op == Takes(Resume(id, to)) && MovedSince(found, st, id, gone)
              && (gone != {} ==> Accepts(found, id, to)
                                 && MovesFor(k, log, |old(log)|, true, found.offers[id].from, to, gone))
      ensures busy || !Accepts(log[|old(log)|].at, id, to) ==> links == old(links)
      ensures !busy && Accepts(log[|old(log)|].at, id, to) ==>
                && id in st.offers
                && HandsOver(k, |old(log)|, log[|old(log)|].at.offers[id], st.offers[id], old(links), links, to, gone)
      ensures Quiet(k, |old(log)|) ==> busy == (id in old(st).runs) && (busy ==> st == old(st))
      ensures Quiet(k, |old(log)|) && !busy && Accepts(old(st), id, to) ==> ok && OnlyOffer(old(st), st, id)
      ensures !busy && old(Fits(id, to)) ==> run.complete && NotDone(st.offers[id]) == {}
      ensures !ok && !busy ==> Evident(k, log, |old(log)|, Halted)
    {
      hide Inv, Leads, AllOf, HandsOver, Clean, NoListing, Step, Exec, Evident, Reports, MovesFor, FitsAt, OnlyOffer,
        AndRelease, MovedSince, Quiet, Accepts, Check, Clear, Objects, Tells;
      run, ok, gone := NOTHING, false, {};
      var got := Claim(id, Resume(id, to));
      busy := !got;
      ghost var a := Now();
      ghost var found := log[|old(log)|].at;
      Claimed(found, id, to);
      NoneListed(old(log), |old(log)|, id, log);
      SinceClaimed(found, st, st, id, {});
      QuietOn(k, |old(log)|, |log|);
      FitsAlone(k, |old(log)|, old(st), links, id, to);
      FitsOn(k, |old(log)|, found, st, links, id, to);
      if busy { return; }
      run, ok, gone := CompleteClaimed(id, to);
      LeadsTrans(k, old(Now()), a, Now());
      SinceClaimed(found, a.st, st, id, gone);
      if Accepts(found, id, to) {
        StillOffered(found, id, to);
        HandsEarlier(k, |a.log|, |old(log)|, found.offers[id], st.offers[id], old(links), links, to, gone);
      }
      EvidentAll(k, log, |a.log|, log, |old(log)|);
      assert log == log[..|log| - 1] + [log[|log| - 1]];
      Bracket(old(log), a.log[|old(log)|], log[..|log| - 1], log[|log| - 1]);
      NoneListed(log[..|log| - 1], |old(log)|, id, log);
      if id in st.offers { ReportsMore(k, log, |a.log|, |old(log)|, id, run, ok, gone, st.offers[id]); }
      if gone != {} {
        StillOffered(found, id, to);
        MovesMore(k, log, |a.log|, |old(log)|, true, found.offers[id].from, to, gone);
      }
    }

    /** A call of the background loop outside any claim. */
    method Idle(q: Question) returns (ok: bool)
      requires Inv(st)
      modifies this
      ensures Inv(st) && old(log) < log && |log| == |old(log)| + 1 && links == old(links) && Leads(k, old(Now()), Now())
      ensures log == old(log) + [Call(None, Asks(q), st, links)] && Clean(log, |old(log)|)
      ensures st == Exec(old(st), k.others(|old(log)|)) && ok == k.fate(|old(log)|).Works?
      ensures Quiet(k, |old(log)|) ==> ok && st == old(st)
    {
      var n := |log|;
      EveryRun(st, k.others(n));
      ok := k.fate(n).Works?;
      assert k.others(n) == [] ==> Exec(st, k.others(n)) == st;
      st := Exec(st, k.others(n));
      OneIdle(log, Call(None, Asks(q), st, links));
      log := log + [Call(None, Asks(q), st, links)];
      LeadsOne(k, old(Now()), Now());
    }

    /** One offer of finishAccepting. */
    method FinishOne(id: OfferId, to: Account)
      requires Inv(st)
      modifies this
      ensures Inv(st) && old(log) < log && Leads(k, old(Now()), Now())
      ensures Clean(log, |old(log)|) && NoListing(log, |old(log)|)
      ensures log[|old(log)|].op == Asks(AccountOf(id))
      ensures if k.fate(|old(log)|).Works? && to != NOBODY
              then |log| > |old(log)| + 1 && log[|old(log)| + 1].op == Takes(Resume(id, to))
              else |log| == |old(log)| + 1
      ensures Quiet(k, |old(log)|) && id in old(st).runs ==> st == old(st)
      ensures Quiet(k, |old(log)|) && id !in old(st).runs && to != NOBODY && Accepts(old(st), id, to) ==>
                OnlyOffer(old(st), st, id) && id in st.offers && IsFinal(st.offers[id].state)
    {
      hide Inv, Leads, Clean, OnlyOffer, Evident, Reports, MovesFor, MovedSince, Accepts;
      var read := Idle(AccountOf(id));
      if read && to != NOBODY {
        ghost var b := Now();
        var busy, run, ok, gone := CompleteAccepting(id, to);
        LeadsTrans(k, old(Now()), b, Now());
        CleanOn(b.log, |old(log)|, log);
      }
    }

    /** The offer was tried: its account was asked for, and if it was known the offer
        was claimed for it. */
    ghost predicate Tried(calls: seq<Call>, n: nat, id: OfferId, to: Account) {
      exists i :: n <= i < |calls| && calls[i].op == Asks(AccountOf(id))
                  && (k.fate(i).Works? && to != NOBODY ==>
                        i + 1 < |calls| && calls[i + 1].op == Takes(Resume(id, to)))
    }

    lemma TriedMore(g: seq<Call>, n: nat, h: seq<Call>, id: OfferId, to: Account)
      requires g <= h && Tried(g, n, id, to)
      ensures Tried(h, n, id, to)
    {
      var i :| n <= i < |g| && g[i].op == Asks(AccountOf(id))
               && (k.fate(i).Works? && to != NOBODY ==> i + 1 < |g| && g[i + 1].op == Takes(Resume(id, to)));
      assert h[i] == g[i];
      if i + 1 < |g| { assert h[i + 1] == g[i + 1]; }
      TriedNow(h, n, i, id, to);
    }

    lemma TriedOn(g: seq<Call>, n: nat, h: seq<Call>, accounts: map<OfferId, Account>, ids: set<OfferId>)
      requires g <= h && ids <= accounts.Keys && forall id | id in ids :: Tried(g, n, id, accounts[id])
      ensures forall id | id in ids :: Tried(h, n, id, accounts[id])
    {
      hide Tried;
      forall id | id in ids ensures Tried(h, n, id, accounts[id]) { TriedMore(g, n, h, id, accounts[id]); }
    }

    lemma TriedNow(calls: seq<Call>, n: nat, i: nat, id: OfferId, to: Account)
      requires n <= i < |calls| && calls[i].op == Asks(AccountOf(id))
      requires k.fate(i).Works? && to != NOBODY ==> i + 1 < |calls| && calls[i + 1].op == Takes(Resume(id, to))
      ensures Tried(calls, n, id, to)
    {
    }

    /** finishAccepting: every accepting offer is completed forward. An
        undisturbed step leaves none accepting but those whose claim somebody else
        holds. */
    method FinishAccepting()
      requires Inv(st)
      modifies this
      ensures Inv(st) && old(log) < log && Leads(k, old(Now()), Now())
      ensures log[|old(log)|].op == Asks(OfferList) && NoListing(log, |old(log)| + 1)
      ensures Clean(log, |old(log)|)
      ensures if k.fate(|old(log)|).Works?
              then var found := log[|old(log)|].at.offers;
                   forall id | id in found && found[id].state.Accepting? ::
                     Tried(log, |old(log)|, id, found[id].acceptedBy)
              else |log| == |old(log)| + 1
      ensures Quiet(k, |old(log)|) ==> st.runs.Keys == old(st).runs.Keys && OnlyHeld(st)
    {
      hide Inv, Leads, Clean, NoListing, Quiet, OpenAre, Acceptances, Tried;
      var listed := Idle(OfferList);
      UnlistedNow(log);
      if !listed { return; }
      ghost var a := Now();
      ListedOpen(st);
      AcceptancesAre(st.offers);
      QuietOn(k, |old(log)|, |log|);
      FinishEach(Acceptances(st.offers));
      LeadsTrans(k, old(Now()), a, Now());
      CleanOn(a.log, |old(log)|, log);
      TriedEarlier(|a.log|, |old(log)|);
    }

    lemma TriedEarlier(n: nat, m: nat)
      requires m <= n
      ensures forall calls, id, to :: Tried(calls, n, id, to) ==> Tried(calls, m, id, to)
    {
    }

    /** The listed offers, one after the other. */
    method FinishEach(accounts: map<OfferId, Account>)
      requires Inv(st)
      modifies this
      ensures Inv(st) && old(log) <= log && Leads(k, old(Now()), Now())
      ensures NoListing(log, |old(log)|) && Clean(log, |old(log)|)
      ensures forall id | id in accounts :: Tried(log, |old(log)|, id, accounts[id])
      ensures Quiet(k, |old(log)|) && OpenAre(old(st), accounts.Keys, accounts) ==>
                st.runs.Keys == old(st).runs.Keys && OnlyHeld(st)
    {
      hide Inv, Leads, Clean, NoListing, Quiet, OnlyOffer, OpenAre, OnlyHeld, Accepts, Tried;
      var left := accounts.Keys;
      ghost var quiet := Quiet(k, |old(log)|) && OpenAre(st, accounts.Keys, accounts);
      LeadsNow(k, Now());
      CleanNow(log);
      UnlistedNow(log);
      while left != {}
        invariant Inv(st) && Leads(k, old(Now()), Now()) && old(log) <= log
        invariant NoListing(log, |old(log)|) && Clean(log, |old(log)|) && left <= accounts.Keys
        invariant forall id | id in accounts.Keys - left :: Tried(log, |old(log)|, id, accounts[id])
        invariant quiet ==> st.runs.Keys == old(st).runs.Keys && OpenAre(st, left, accounts)
      {
        var id :| id in left;
        ghost var a := Now();
        QuietOn(k, |old(log)|, |a.log|);
        if quiet { OpenIs(st, left, accounts, id); }
        FinishOne(id, accounts[id]);
        LeadsTrans(k, old(Now()), a, Now());
        CleanOn(a.log, |old(log)|, log);
        TriedOn(a.log, |old(log)|, log, accounts, accounts.Keys - left);
        TriedNow(log, |old(log)|, |a.log|, id, accounts[id]);
        assert accounts.Keys - (left - {id}) == accounts.Keys - left + {id};
        UnlistedOn(a.log, |old(log)|, log);
        if quiet && id !in a.st.runs { OneLess(a.st, st, left, accounts, id); }
        left := left - {id};
      }
      if quiet { NoneOpen(st, accounts); }
    }

    /** Tick after tick of the loop; last is the moment the last one starts, with the
        last listing of the offers. The ticks leave no claim behind, and with the
        faults over by then every offer is final but those whose claim somebody else
        holds. */
    method Ticks(n: nat) returns (ghost last: Moment)
      requires Inv(st)
      modifies this
      ensures Inv(st) && Leads(k, old(Now()), last) && Leads(k, last, Now())
      ensures Clean(last.log, |old(log)|) && Clean(log, |old(log)|)
      ensures |last.log| >= |old(log)| + n - 1
      ensures n > 0 ==>
                last.log < log && log[|last.log|].op == Asks(OfferList) && NoListing(log, |last.log| + 1)
      ensures n > 0 && Quiet(k, |last.log|) ==> OnlyHeld(st) && st.runs.Keys == last.st.runs.Keys
      ensures Quiet(k, |old(log)|) ==> st.runs.Keys == old(st).runs.Keys
    {
      hide Inv, Leads, Held, NoListing;
      last := Now();
      LeadsNow(k, Now());
      CleanNow(log);
      for i := 0 to n
        invariant Inv(st) && Leads(k, old(Now()), last) && Leads(k, last, Now()) && Leads(k, old(Now()), Now())
        invariant Clean(last.log, |old(log)|) && Clean(log, |old(log)|)
        invariant |old(log)| + i - 1 <= |last.log| && |old(log)| + i <= |log| && old(log) <= log
        invariant i > 0 ==>
                    last.log < log && log[|last.log|].op == Asks(OfferList) && NoListing(log, |last.log| + 1)
        invariant i > 0 && Quiet(k, |last.log|) ==> OnlyHeld(st) && st.runs.Keys == last.st.runs.Keys
        invariant Quiet(k, |old(log)|) ==> st.runs.Keys == old(st).runs.Keys
      {
        last := Now();
        FinishAccepting();
        LeadsTrans(k, old(Now()), last, Now());
        CleanOn(last.log, |old(log)|, log);
      }
    }
  }

  /** The record has one more done site than the copy. */
  ghost predicate Behind(o: Offer, stored: Offer, x: Site) {
    stored == o.(done := o.done + [x])
  }
}
