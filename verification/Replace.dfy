/** Creating an offer in place of older ones (planOffer, createOffer): the
    older ones are cancelled first, and put back when the rest fails. */
module Replace {
  import opened Prelude
  import opened Offers
  import opened Protocol
  import opened Safety
  import opened Theorems
  import opened Interference

  /** The offers, not final, that hold one of the sites. */
  function Holders(book: Book, sites: set<Site>): set<OfferId> {
    set id | id in book && !IsFinal(book[id].state) && Elems(book[id].sites) * sites != {}
  }

  /** openOffersOf, with the store's offers of one site as bySite gives them. */
  method OpenOffersOf(book: Book, ids: seq<Site>, except: Option<OfferId>, bySite: map<Site, seq<OfferId>>)
    returns (out: seq<OfferId>)
    requires forall x | x in ids :: x in bySite && Elems(bySite[x]) == set id | id in book && x in book[id].sites
    ensures NoDup(out)
    ensures Elems(out) == Holders(book, Elems(ids)) - (if except.Some? then {except.value} else {})
  {
    out := [];
    for i := 0 to |ids|
      invariant NoDup(out)
      invariant Elems(out) == Holders(book, Elems(ids[..i])) - (if except.Some? then {except.value} else {})
    {
      var offers := bySite[ids[i]];
      HoldersGrow(book, ids, i);
      ghost var before := Elems(out);
      for j := 0 to |offers|
        invariant NoDup(out)
        invariant Elems(out) == before + (set id | id in offers[..j] && id in book &&
          !IsFinal(book[id].state) && Some(id) != except)
      {
        assert offers[j] in Elems(offers);
        assert offers[..j + 1] == offers[..j] + [offers[j]];
        if !(IsFinal(book[offers[j]].state) || Some(offers[j]) == except || offers[j] in out) {
          ElemsAppend(out, [offers[j]]);
          out := out + [offers[j]];
        }
      }
      assert offers[..|offers|] == offers && forall id :: id in offers <==> id in Elems(offers);
    }
    assert ids[..|ids|] == ids;
  }

  lemma HoldersGrow(book: Book, ids: seq<Site>, i: nat)
    requires i < |ids|
    ensures Holders(book, Elems(ids[..i + 1])) ==
            Holders(book, Elems(ids[..i])) + set id | id in book && ids[i] in book[id].sites && !IsFinal(book[id].state)
  {
    ElemsAppend(ids[..i], [ids[i]]);
    assert ids[..i + 1] == ids[..i] + [ids[i]];
    forall id | id in book
      ensures Elems(book[id].sites) * Elems(ids[..i + 1]) != {} <==>
              Elems(book[id].sites) * Elems(ids[..i]) != {} || ids[i] in book[id].sites
    {
      Shared(book[id].sites, ids[..i]);
      Shared(book[id].sites, ids[..i + 1]);
    }
  }

  /** The book with these offers cancelled and every other as it was. */
  function CancelAll(book: Book, ids: set<OfferId>): Book {
    map id | id in book :: if id in ids then book[id].(state := Cancelled) else book[id]
  }

  predicate Ours(book: Book, from: Account, id: OfferId) {
    id in book && Editable(book[id]) && book[id].from == from
  }

  predicate Mine(book: Book, from: Account, ids: seq<OfferId>) {
    forall id | id in ids :: Ours(book, from, id)
  }

  /** The end of planOffer: the offers to replace, or None when a site is in
      somebody else's open offer, or in one being accepted. */
  method PlanReplace(book: Book, from: Account, sites: seq<Site>, bySite: map<Site, seq<OfferId>>)
    returns (replace: Option<seq<OfferId>>)
    requires forall x | x in sites :: x in bySite && Elems(bySite[x]) == set id | id in book && x in book[id].sites
    ensures replace.Some? ==>
              NoDup(replace.value) && Elems(replace.value) == Holders(book, Elems(sites)) &&
                Mine(book, from, replace.value)
    ensures replace.None? <==> exists id | id in Holders(book, Elems(sites)) ::
      book[id].from != from || !Editable(book[id])
  {
    var others := OpenOffersOf(book, sites, None, bySite);
    assert forall id :: id in others <==> id in Elems(others);
    for i := 0 to |others|
      invariant forall id | id in others[..i] :: id in book && book[id].from == from && Editable(book[id])
    {
      assert others[i] in Elems(others);
      if book[others[i]].from != from || !Editable(book[others[i]]) { return None; }
    }
    assert others[..|others|] == others;
    replace := Some(others);
  }

  function Created(p: Draft): Offer {
    Offer(p.sites, p.from, p.toEmail, p.availableFrom, p.acceptBy, Open, [], NOBODY)
  }

  /** Cancelling some of them leaves the rest free to be put back. */
  lemma FreeAgain(book: Book, ids: set<OfferId>, id: OfferId)
    requires Exclusive(book) && id in book && !IsFinal(book[id].state)
    ensures SitesFree(CancelAll(book, ids), id, book[id].sites)
  {
  }

  /** With every holder of its sites cancelled, the new offer's sites are free. */
  lemma FreeForNew(book: Book, ids: set<OfferId>, id: OfferId, sites: seq<Site>)
    requires id !in book
    ensures SitesFree(CancelAll(book, ids), id, sites) <==> Holders(book, Elems(sites)) <= ids
  {
    var b := CancelAll(book, ids);
    forall i | i in book ensures (exists x :: x in sites && x in b[i].sites) <==>
      Elems(book[i].sites) * Elems(sites) != {} {
      Shared(b[i].sites, sites);
    }
  }

  lemma Shared(a: seq<Site>, b: seq<Site>)
    ensures (exists x :: x in b && x in a) <==> Elems(a) * Elems(b) != {}
  {
    if x :| x in b && x in a { assert x in Elems(a) * Elems(b); }
    if Elems(a) * Elems(b) != {} { var x :| x in Elems(a) * Elems(b); }
  }

  /** One write of the store that this call makes. */
  function Act(s: State, d: nat, op: DraftOp): State {
    Step(s, OnDraft(d, op))
  }

  lemma Acts(s0: State, s: State, d: nat, op: DraftOp)
    requires Inv(s) && Reaches(s0, s)
    ensures Inv(Act(s, d, op)) && Reaches(s0, Act(s, d, op))
  {
    EveryStep(s, OnDraft(d, op));
    ReachesStep(s0, s, OnDraft(d, op));
  }

  function Prev(book: Book, ids: seq<OfferId>): map<OfferId, OfferState> {
    map id | id in ids && id in book :: book[id].state
  }

  /** The listed offers are cancelled and wait to be put back if it comes to that. */
  ghost predicate At(s0: State, s: State, d: nat, plan: Draft, next: nat, phase: DraftPhase, waiting: seq<OfferId>,
                     stuck: set<OfferId>) {
    && s == s0.(offers := CancelAll(s0.offers, Elems(waiting) + stuck),
                drafts := s0.drafts[d := plan.(next := next, done := Prev(s0.offers, waiting), phase := phase)])
    && Mine(s0.offers, plan.from, waiting)
  }

  lemma OursStill(s0: State, s: State, d: nat, plan: Draft, i: nat)
    requires i < |plan.replace| && NoDup(plan.replace) && At(s0, s, d, plan, i, Cancelling, plan.replace[..i], {})
    ensures var id := plan.replace[i];
            && (Ours(s.offers, plan.from, id) <==> Ours(s0.offers, plan.from, id))
            && (id in s.offers ==> s.offers[id] == s0.offers[id])
  {
    assert plan.replace[i] !in plan.replace[..i];
  }

  lemma CancelsNext(s0: State, s: State, d: nat, plan: Draft, i: nat)
    requires i < |plan.replace| && NoDup(plan.replace) && At(s0, s, d, plan, i, Cancelling, plan.replace[..i], {})
    requires Ours(s.offers, plan.from, plan.replace[i])
    ensures At(s0, Act(s, d, CancelNext), d, plan, i + 1, Cancelling, plan.replace[..i + 1], {})
  {
    var id := plan.replace[i];
    OursStill(s0, s, d, plan, i);
    assert plan.replace[..i + 1] == plan.replace[..i] + [id];
    ElemsAppend(plan.replace[..i], [id]);
    assert CancelAll(s0.offers, Elems(plan.replace[..i + 1]) + {}) == s.offers[id := s.offers[id].(state := Cancelled)];
    assert Prev(s0.offers, plan.replace[..i + 1]) == Prev(s0.offers, plan.replace[..i])[id := s.offers[id].state];
  }

  lemma FirstWaiting(book: Book, id: OfferId, rest: seq<OfferId>)
    requires NoDup([id] + rest)
    ensures id !in rest && Elems([id] + rest) == {id} + Elems(rest)
    ensures Prev(book, rest) == Prev(book, [id] + rest) - {id}
  {
    ElemsAppend([id], rest);
    assert ([id] + rest)[0] == id;
    assert forall k | 0 <= k < |rest| :: ([id] + rest)[k + 1] == rest[k];
  }

  lemma PutsBackNext(s0: State, s: State, d: nat, plan: Draft, next: nat, id: OfferId, rest: seq<OfferId>,
                     stuck: set<OfferId>)
    requires Exclusive(s0.offers) && NoDup([id] + rest) && id !in stuck
    requires At(s0, s, d, plan, next, Restoring, [id] + rest, stuck)
    ensures At(s0, Act(s, d, PutBack(id)), d, plan, next, Restoring, rest, stuck)
  {
    FirstWaiting(s0.offers, id, rest);
    assert id in [id] + rest;
    FreeAgain(s0.offers, {id} + Elems(rest) + stuck, id);
    assert CancelAll(s0.offers, Elems(rest) + stuck) == s.offers[id := s.offers[id].(state := s0.offers[id].state)];
    assert forall x | x in rest :: x in [id] + rest;
  }

  lemma SkipsNext(s0: State, s: State, d: nat, plan: Draft, next: nat, id: OfferId, rest: seq<OfferId>,
                  stuck: set<OfferId>)
    requires NoDup([id] + rest)
    requires At(s0, s, d, plan, next, Restoring, [id] + rest, stuck)
    ensures At(s0, Act(s, d, Skip(id)), d, plan, next, Restoring, rest, stuck + {id})
  {
    FirstWaiting(s0.offers, id, rest);
    assert id in [id] + rest;
    assert CancelAll(s0.offers, Elems(rest) + (stuck + {id})) == s.offers;
    assert forall x | x in rest :: x in [id] + rest;
  }

  /** How many replaced offers get cancelled: up to the first whose call fails
      or which is no longer the sender's to change. */
  function Cancels(book: Book, plan: Draft, works: nat -> bool, i: nat): (n: nat)
    requires i <= |plan.replace|
    ensures i <= n <= |plan.replace|
    ensures n == |plan.replace| || !(works(n) && Ours(book, plan.from, plan.replace[n]))
    ensures forall k | i <= k < n :: works(k) && Ours(book, plan.from, plan.replace[k])
    decreases |plan.replace| - i
  {
    if i < |plan.replace| && works(i) && Ours(book, plan.from, plan.replace[i]) then
      Cancels(book, plan, works, i + 1) else i
  }

  /** Of the n cancelled offers, those whose own rollback call fails; the calls
      follow the one that stopped the create. */
  function Stuck(replace: seq<OfferId>, n: nat, works: nat -> bool): set<OfferId>
    requires n <= |replace|
  {
    StuckAmong(replace, n, works, n)
  }

  function StuckAmong(replace: seq<OfferId>, n: nat, works: nat -> bool, upTo: nat): set<OfferId>
    requires upTo <= n <= |replace|
  {
    set j | 0 <= j < upTo && !works(n + 1 + j) :: replace[j]
  }

  lemma NoneStuck(replace: seq<OfferId>, n: nat, works: nat -> bool)
    requires n <= |replace|
    ensures StuckAmong(replace, n, works, 0) == {}
    ensures (forall k | n < k <= 2 * n :: works(k)) ==> Stuck(replace, n, works) == {}
  {
  }

  lemma StuckNext(replace: seq<OfferId>, n: nat, works: nat -> bool, j: nat)
    requires j < n <= |replace|
    ensures StuckAmong(replace, n, works, j + 1) ==
      StuckAmong(replace, n, works, j) + (if works(n + 1 + j) then {} else {replace[j]})
    ensures StuckAmong(replace, n, works, j) <= Elems(replace[..j])
  {
  }

  /** createOffer; its k-th call on the store works if works(k) says so, and
      changes nothing otherwise; limit says that the daily limit is reached. All
      or nothing: the new offer with every replaced one cancelled, or everything
      as it was but for the offers whose own way back failed. */
  method CreateOffer(s0: State, d: nat, plan: Draft, limit: bool, works: nat -> bool)
    returns (s: State, made: Option<OfferId>)
    requires Inv(s0) && d !in s0.drafts && GoodPlan(s0, plan)
    ensures Inv(s) && Reaches(s0, s)
    ensures var n := Cancels(s0.offers, plan, works, 0);
            && (made.Some? <==>
                 n == |plan.replace| && !limit && works(n) &&
                 Holders(s0.offers, Elems(plan.sites)) <= Elems(plan.replace))
            && (made.None? ==> s.offers == CancelAll(s0.offers, Stuck(plan.replace, n, works)))
            && (made.None? && (forall k | n < k <= 2 * n :: works(k)) ==> s.offers == s0.offers)
    ensures made.Some? ==>
              && made.value == s0.nextId
              && s.offers == CancelAll(s0.offers, Elems(plan.replace))[s0.nextId := Created(plan)]
              && Holders(s.offers, Elems(plan.sites)) == {s0.nextId}
              && s.offers[s0.nextId] ==
                 Offer(plan.sites, plan.from, plan.toEmail, plan.availableFrom, plan.acceptBy, Open, [], NOBODY)
    ensures s.(offers := s0.offers, drafts := s0.drafts, nextId := s0.nextId) == s0
  {
    hide Inv, Reaches, At;
    made := None;
    var i;
    s, i := CancelReplaced(s0, d, plan, works);
    Unborn(s0);
    assert plan.replace[..|plan.replace|] == plan.replace;
    if i == |plan.replace| { FreeAfter(s0, s, d, plan); }
    if i == |plan.replace| && !limit && works(i) && SitesFree(s.offers, s.nextId, plan.sites) {
      Acts(s0, s, d, Create);
      Creates(s0, s, d, plan);
      s := Act(s, d, Create);
      made := Some(s0.nextId);
    } else {
      Acts(s0, s, d, Fail);
      TurnsBack(s0, s, d, plan, i);
      s := Act(s, d, Fail);
      s := Restore(s0, s, d, plan, i, works);
      AtEnd(s0, s, d, plan, i, Stuck(plan.replace, i, works));
      NoneStuck(plan.replace, i, works);
    }
  }

  lemma FreeAfter(s0: State, s: State, d: nat, plan: Draft)
    requires At(s0, s, d, plan, |plan.replace|, Cancelling, plan.replace, {}) && s0.nextId !in s0.offers
    ensures SitesFree(s.offers, s.nextId, plan.sites) <==> Holders(s0.offers, Elems(plan.sites)) <= Elems(plan.replace)
    ensures Mine(s0.offers, plan.from, plan.replace)
  {
    FreeForNew(s0.offers, Elems(plan.replace), s0.nextId, plan.sites);
    assert Elems(plan.replace) + {} == Elems(plan.replace);
  }

  lemma Creates(s0: State, s: State, d: nat, plan: Draft)
    requires At(s0, s, d, plan, |plan.replace|, Cancelling, plan.replace, {})
    requires s0.nextId !in s0.offers && |plan.sites| >= 1
    requires SitesFree(s.offers, s.nextId, plan.sites)
    ensures var t := Act(s, d, Create);
            && t.offers == CancelAll(s0.offers, Elems(plan.replace))[s0.nextId := Created(plan)]
            && Holders(t.offers, Elems(plan.sites)) == {s0.nextId}
            && t.(offers := s0.offers, drafts := s0.drafts, nextId := s0.nextId) == s0
  {
    FreeAfter(s0, s, d, plan);
    assert Elems(plan.replace) + {} == Elems(plan.replace);
    NewHolds(s0.offers, Elems(plan.replace), s0.nextId, plan);
  }

  lemma TurnsBack(s0: State, s: State, d: nat, plan: Draft, i: nat)
    requires i <= |plan.replace| && At(s0, s, d, plan, i, Cancelling, plan.replace[..i], {})
    ensures At(s0, Act(s, d, Fail), d, plan, i, Restoring, plan.replace[..i], {})
  {
  }

  lemma AtEnd(s0: State, s: State, d: nat, plan: Draft, i: nat, stuck: set<OfferId>)
    requires At(s0, s, d, plan, i, Restoring, [], stuck)
    ensures s.offers == CancelAll(s0.offers, stuck) && (stuck == {} ==> s.offers == s0.offers)
    ensures s.(offers := s0.offers, drafts := s0.drafts, nextId := s0.nextId) == s0
  {
    assert Elems<OfferId>([]) + stuck == stuck;
    assert CancelAll(s0.offers, {}) == s0.offers;
  }

  method CancelReplaced(s0: State, d: nat, plan: Draft, works: nat -> bool) returns (s: State, i: nat)
    requires Inv(s0) && d !in s0.drafts && GoodPlan(s0, plan)
    ensures Inv(s) && Reaches(s0, s)
    ensures i <= |plan.replace| && At(s0, s, d, plan, i, Cancelling, plan.replace[..i], {})
    ensures i == Cancels(s0.offers, plan, works, 0)
  {
    hide Inv, Reaches;
    ReachesNow(s0);
    s, i := Step(s0, Plan(d, plan)), 0;
    EveryStep(s0, Plan(d, plan));
    ReachesStep(s0, s0, Plan(d, plan));
    assert CancelAll(s0.offers, Elems([]) + {}) == s0.offers;
    assert Prev(s0.offers, []) == map[];
    while i < |plan.replace|
      invariant Inv(s) && Reaches(s0, s)
      invariant i <= |plan.replace| && At(s0, s, d, plan, i, Cancelling, plan.replace[..i], {})
      invariant Cancels(s0.offers, plan, works, 0) == Cancels(s0.offers, plan, works, i)
    {
      var id := plan.replace[i];
      Acts(s0, s, d, CancelNext);
      OursStill(s0, s, d, plan, i);
      if !(works(i) && Ours(s.offers, plan.from, id)) { return; }
      CancelsNext(s0, s, d, plan, i);
      s := Act(s, d, CancelNext);
      i := i + 1;
    }
  }

  lemma Unborn(s: State)
    requires Inv(s)
    ensures s.nextId !in s.offers && Exclusive(s.offers)
  {
  }

  lemma NewHolds(book: Book, ids: set<OfferId>, id: OfferId, plan: Draft)
    requires Holders(book, Elems(plan.sites)) <= ids && id !in book && |plan.sites| >= 1
    ensures Holders(CancelAll(book, ids)[id := Created(plan)], Elems(plan.sites)) == {id}
  {
    assert plan.sites[0] in Elems(plan.sites) * Elems(plan.sites);
  }

  /** restore: every cancelled offer goes back to the state it had, but for those
      whose own call fails. */
  method Restore(s0: State, s1: State, d: nat, plan: Draft, n: nat, works: nat -> bool) returns (s: State)
    requires Inv(s0) && Inv(s1) && Reaches(s0, s1) && n <= |plan.replace| && NoDup(plan.replace)
    requires At(s0, s1, d, plan, n, Restoring, plan.replace[..n], {})
    ensures Inv(s) && Reaches(s0, s)
    ensures At(s0, s, d, plan, n, Restoring, [], Stuck(plan.replace, n, works))
  {
    hide Inv, Reaches, At, StuckAmong;
    s := s1;
    ghost var stuck := {};
    Unborn(s0);
    ghost var first := plan.replace[..n];
    assert first[0..] == first;
    NoneStuck(plan.replace, n, works);
    for j := 0 to n
      invariant Inv(s) && Reaches(s0, s)
      invariant At(s0, s, d, plan, n, Restoring, first[j..], stuck)
      invariant stuck == StuckAmong(plan.replace, n, works, j)
    {
      var id := plan.replace[j];
      assert first[j..] == [id] + first[j + 1..] && NoDup(first[j..]);
      StuckNext(plan.replace, n, works, j);
      assert id !in plan.replace[..j];
      if works(n + 1 + j) {
        PutsBackNext(s0, s, d, plan, n, id, first[j + 1..], stuck);
        Acts(s0, s, d, PutBack(id));
        s := Act(s, d, PutBack(id));
      } else {
        SkipsNext(s0, s, d, plan, n, id, first[j + 1..], stuck);
        Acts(s0, s, d, Skip(id));
        s := Act(s, d, Skip(id));
        stuck := stuck + {id};
      }
    }
    assert first[n..] == [];
  }

  // ---- with everybody else acting in between ----

  ghost predicate NeverPutBack(trace: seq<Action>, d: nat, id: OfferId) {
    forall k | 0 <= k < |trace| :: trace[k] != OnDraft(d, PutBack(id))
  }

  /** A cancelled offer that waits in a draft, and in no other, or in none any
      more. */
  ghost predicate WaitsIn(s: State, d: nat, id: OfferId, o: Offer) {
    && id < s.nextId
    && (id in s.offers ==> s.offers[id] == o.(state := Cancelled))
    && (forall e | e in s.drafts && id in s.drafts[e].done :: e == d && s.drafts[e].done[id] == o.state)
  }

  lemma WaitStep(s: State, a: Action, d: nat, id: OfferId, o: Offer)
    requires Inv(s) && WaitsIn(s, d, id, o) && a != OnDraft(d, PutBack(id))
    ensures WaitsIn(Step(s, a), d, id, o)
  {
    hide Inv;
    IdsNeverReturn(s, a, id);
    if id in s.offers { OnlyPutBackReopens(s, a, id); }
    DraftsHold(s, a, d, id, o);
  }

  lemma OneDraft(s: State, e: nat, op: DraftOp)
    requires e in s.drafts
    ensures var t := StepDraft(s, e, s.drafts[e], op);
            e in t.drafts && t.drafts == s.drafts[e := t.drafts[e]]
  {
    assert s.drafts == s.drafts[e := s.drafts[e]];
  }

  lemma DraftHolds(s: State, e: nat, op: DraftOp, id: OfferId)
    requires e in s.drafts && (id in s.offers ==> !Editable(s.offers[id]))
    ensures var t := StepDraft(s, e, s.drafts[e], op);
            && e in t.drafts
            && (id in t.drafts[e].done ==> id in s.drafts[e].done && t.drafts[e].done[id] == s.drafts[e].done[id])
  {
    var p := s.drafts[e];
    match op
    case CancelNext => assert p.next < |p.replace| && id == p.replace[p.next] ==>
      !(id in s.offers && Editable(s.offers[id]));
    case Create => assert id in StepDraft(s, e, p, Create).drafts[e].done ==> id in p.done;
    case Fail => assert StepDraft(s, e, p, Fail).drafts[e].done == p.done;
    case PutBack(i) => assert StepDraft(s, e, p, PutBack(i)).drafts[e].done.Keys <= p.done.Keys;
    case Skip(i) => assert StepDraft(s, e, p, Skip(i)).drafts[e].done.Keys <= p.done.Keys;
  }

  lemma DraftsHold(s: State, a: Action, d: nat, id: OfferId, o: Offer)
    requires WaitsIn(s, d, id, o)
    ensures var t := Step(s, a);
            forall e | e in t.drafts && id in t.drafts[e].done :: e == d && t.drafts[e].done[id] == o.state
  {
    match a
    case OnSite(x, op) => assert StepSite(s, x, op).drafts == s.drafts;
    case OnDraft(e, op) => if e in s.drafts { OneDraft(s, e, op); DraftHolds(s, e, op, id); }
    case Edit(i, c) => assert StepEdit(s, i, c).drafts == s.drafts;
    case OnRun(i, op) => assert i in s.runs ==> StepRun(s, i, s.runs[i], op).drafts == s.drafts;
    case _ =>
  }

  lemma {:induction false} WaitsOn(s: State, trace: seq<Action>, d: nat, id: OfferId, o: Offer)
    requires Inv(s) && WaitsIn(s, d, id, o) && NeverPutBack(trace, d, id)
    ensures Inv(Exec(s, trace)) && WaitsIn(Exec(s, trace), d, id, o)
  {
    if trace != [] {
      var front := trace[..|trace| - 1];
      assert forall k | 0 <= k < |front| :: front[k] == trace[k];
      WaitsOn(s, front, d, id, o);
      EveryStep(Exec(s, front), trace[|trace| - 1]);
      WaitStep(Exec(s, front), trace[|trace| - 1], d, id, o);
    }
  }

  /** The next offer the draft would cancel, which is the sender's to change. */
  predicate Next(s: State, d: nat, id: OfferId) {
    && d in s.drafts && s.drafts[d].phase.Cancelling? && s.drafts[d].next < |s.drafts[d].replace|
    && id == s.drafts[d].replace[s.drafts[d].next] && Ours(s.offers, s.drafts[d].from, id)
  }

  /** A replaced offer is put back exactly as it was, whatever anybody did since
      it was cancelled: unless its record was pruned, or one of its sites is in
      another open offer by then. */
  lemma PutBackRestores(s: State, d: nat, id: OfferId, trace: seq<Action>)
    requires Inv(s) && Next(s, d, id) && NeverPutBack(trace, d, id)
    ensures var o, t := s.offers[id], Exec(Act(s, d, CancelNext), trace);
            && (id in t.offers ==> t.offers[id] == o.(state := Cancelled))
            && (d in t.drafts && t.drafts[d].phase.Restoring? && id in t.drafts[d].done && id in t.offers ==>
                  var u := Act(t, d, PutBack(id));
                  id in u.offers && u.offers[id] == if SitesFree(t.offers, id, o.sites) then o
                    else o.(state := Cancelled))
  {
    hide Inv;
    var o, t := s.offers[id], Exec(Act(s, d, CancelNext), trace);
    EveryStep(s, OnDraft(d, CancelNext));
    CancelWaits(s, d, id);
    WaitsOn(Act(s, d, CancelNext), trace, d, id, o);
    assert o.(state := Cancelled).(state := o.state) == o;
  }

  lemma CancelWaits(s: State, d: nat, id: OfferId)
    requires Inv(s) && Next(s, d, id)
    ensures WaitsIn(Act(s, d, CancelNext), d, id, s.offers[id])
  {
    NobodyWaits(s, id);
    assert forall e | e in s.drafts :: id !in s.drafts[e].done || Waits(s.drafts, id);
  }
}
