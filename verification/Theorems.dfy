/** What holds in every run of the transfer protocol: any actions, in any
    order, with crashes and failures anywhere. */
module Theorems {
  import opened Prelude
  import opened Offers
  import opened Protocol
  import opened Safety

  lemma {:induction false} EveryRun(s: State, trace: seq<Action>)
    requires Inv(s)
    ensures Inv(Exec(s, trace))
  {
    if trace != [] {
      EveryRun(s, trace[..|trace| - 1]);
      EveryStep(Exec(s, trace[..|trace| - 1]), trace[|trace| - 1]);
    }
  }

  lemma Reachable(trace: seq<Action>)
    ensures Inv(Exec(INIT, trace))
  {
    assert Inv(INIT);
    EveryRun(INIT, trace);
  }

  lemma {:induction false} ExecAppend(s: State, a: seq<Action>, b: seq<Action>)
    ensures Exec(s, a + b) == Exec(Exec(s, a), b)
  {
    if b == [] {
      assert a + b == a;
    } else {
      ExecAppend(s, a, b[..|b| - 1]);
      assert (a + b)[..|a + b| - 1] == a + b[..|b| - 1];
    }
  }

  /** No offer moves a site twice. */
  lemma MovedAtMostOnce(trace: seq<Action>)
    ensures NoDup(Exec(INIT, trace).moves)
  {
    Reachable(trace);
  }

  /** A site that moved but is not recorded yet is the recipient's (or gone)
      for as long as the offer is accepting: the recipient cannot have sent it
      on, and TransferSite would refuse it. */
  lemma MovedStaysMoved(trace: seq<Action>, id: OfferId, x: Site)
    requires var s := Exec(INIT, trace);
             id in s.offers && s.offers[id].state.Accepting? && x in s.offers[id].sites && (id, x) in s.moves
    ensures var s := Exec(INIT, trace);
            x in s.owners ==> s.owners[x] == s.offers[id].acceptedBy && s.owners[x] != s.offers[id].from
  {
    Reachable(trace);
    var s := Exec(INIT, trace);
    assert Placed(id, s.offers[id], s.starts[id].owners, s.owners, s.moves, x);
  }

  /** A site is in at most one offer that is not final. */
  lemma OneOpenOfferPerSite(trace: seq<Action>, a: OfferId, b: OfferId, x: Site)
    requires var s := Exec(INIT, trace);
             && a in s.offers && b in s.offers && !IsFinal(s.offers[a].state) && !IsFinal(s.offers[b].state)
             && x in s.offers[a].sites && x in s.offers[b].sites
    ensures a == b
  {
    Reachable(trace);
  }

  /** A done site was moved by this offer exactly if the sender still owned it
      at the instant the acceptance started. */
  lemma DoneExactly(trace: seq<Action>, id: OfferId, x: Site)
    requires var s := Exec(INIT, trace); id in s.offers && x in s.offers[id].done
    ensures var s := Exec(INIT, trace);
            && id in s.starts && x in s.starts[id].owners
            && ((id, x) in s.moves <==> s.starts[id].owners[x] == s.offers[id].from)
            && (s.starts[id].owners[x] == s.offers[id].from || s.starts[id].owners[x] == s.offers[id].acceptedBy)
  {
    Reachable(trace);
    var s := Exec(INIT, trace);
    assert Taken(id, s.offers[id], s.starts[id].owners, s.moves, x);
  }

  // ---- the frozen bundle ----

  /** What an acceptance froze: the parties and the bundle stay, the done sites
      only grow, inside the bundle, and the offer leaves accepting only for
      accepted, with something moved, or ended, with nothing moved; then it
      never changes again. */
  ghost predicate Frozen(o: Offer, later: Offer) {
    && later.(state := o.state, done := o.done) == o
    && o.done <= later.done
    && Elems(later.done) <= Elems(o.sites)
    && Begun(later.state)
    && (later.state.Ended? ==> later.done == [])
    && (later.state.Accepted? ==> later.done != [])
    && (IsFinal(o.state) ==> later == o)
  }

  /** An accepting offer names its recipient, who is not the sender, and its
      bundle is 1 to 50 distinct sites, the ones the recipient posted and the
      accept checked. */
  lemma AcceptedBundle(trace: seq<Action>, id: OfferId)
    requires var s := Exec(INIT, trace); id in s.offers && s.offers[id].state.Accepting?
    ensures var s := Exec(INIT, trace);
            var o := s.offers[id];
            && o.acceptedBy != NOBODY && o.acceptedBy != o.from
            && 1 <= |o.sites| <= MAX_BUNDLE && NoDup(o.sites)
            && id in s.starts && SameSites(o.sites, s.starts[id].posted)
            && NoDup(o.done) && Elems(o.done) <= Elems(o.sites)
  {
    Reachable(trace);
    assert RecordOk(Exec(INIT, trace).offers[id]);
  }

  /** Only a loaded run, which holds the claim, writes an accepting offer. */
  lemma OnlyTheClaimHolderWrites(s: State, a: Action, id: OfferId)
    requires Inv(s) && id in s.offers && s.offers[id].state.Accepting?
    ensures id in Step(s, a).offers
    ensures Step(s, a).offers[id] != s.offers[id] ==> a.OnRun? && a.id == id && id in s.runs && s.runs[id].loaded
  {
    hide Inv;
    match a
    case OnSite(x, op) => assert StepSite(s, x, op).offers == s.offers;
    case OnDraft(d, op) => if d in s.drafts { DraftLeaves(s, d, op, id); }
    case Edit(i, c) => EditLeaves(s, i, c, id);
    case OnRun(i, op) => if i in s.runs { RunWrites(s, i, op, id); }
    case _ =>
  }

  lemma DraftLeaves(s: State, d: nat, op: DraftOp, id: OfferId)
    requires Inv(s) && d in s.drafts && id in s.offers && Begun(s.offers[id].state)
    ensures id in StepDraft(s, d, s.drafts[d], op).offers
    ensures StepDraft(s, d, s.drafts[d], op).offers[id] == s.offers[id]
  {
  }

  lemma FrozenStep(s: State, a: Action, id: OfferId)
    requires Inv(s) && id in s.offers && Begun(s.offers[id].state)
    ensures id in Step(s, a).offers ==> Frozen(s.offers[id], Step(s, a).offers[id])
  {
    hide Inv;
    FrozenNow(s, id);
    match a
    case OnSite(x, op) => assert StepSite(s, x, op).offers == s.offers;
    case OnDraft(d, op) => if d in s.drafts { DraftLeaves(s, d, op, id); }
    case Edit(i, c) => EditLeaves(s, i, c, id);
    case OnRun(i, op) => if i in s.runs { RunFreezes(s, i, op, id); }
    case _ =>
  }

  lemma FrozenNow(s: State, id: OfferId)
    requires Inv(s) && id in s.offers && Begun(s.offers[id].state)
    ensures Frozen(s.offers[id], s.offers[id]) && id < s.nextId
  {
    assert RecordOk(s.offers[id]);
  }

  lemma FrozenTrans(a: Offer, b: Offer, c: Offer)
    requires Frozen(a, b) && Frozen(b, c)
    ensures Frozen(a, c)
  {
  }

  lemma RunWrites(s: State, i: OfferId, op: RunOp, id: OfferId)
    requires Inv(s) && i in s.runs && id in s.offers
    ensures id in StepRun(s, i, s.runs[i], op).offers
    ensures StepRun(s, i, s.runs[i], op).offers[id] != s.offers[id] ==>
              i == id && (s.offers[id].state.Accepting? || (s.offers[id].state.Open? && op.Begin?))
    ensures StepRun(s, i, s.runs[i], op).offers[id] != s.offers[id] && s.offers[id].state.Accepting? ==>
              s.runs[i].loaded
  {
    assert RunOk(i, s.runs[i], s.offers, s.nextId, s.starts, s.moves);
  }

  lemma RunFreezes(s: State, i: OfferId, op: RunOp, id: OfferId)
    requires Inv(s) && i in s.runs && id in s.offers && Begun(s.offers[id].state)
    ensures id in StepRun(s, i, s.runs[i], op).offers
    ensures Frozen(s.offers[id], StepRun(s, i, s.runs[i], op).offers[id])
  {
    var o, later := s.offers[id], StepRun(s, i, s.runs[i], op).offers[id];
    RunWrites(s, i, op, id);
    if later != o {
      RunStep(s, i, op);
      assert RecordOk(later);
    }
  }

  lemma DraftIds(s: State, d: nat, op: DraftOp, id: OfferId)
    requires id < s.nextId && d in s.drafts
    ensures id < StepDraft(s, d, s.drafts[d], op).nextId
    ensures id !in s.offers ==> id !in StepDraft(s, d, s.drafts[d], op).offers
  {
  }

  lemma IdsNeverReturn(s: State, a: Action, id: OfferId)
    requires id < s.nextId
    ensures id < Step(s, a).nextId
    ensures id !in s.offers ==> id !in Step(s, a).offers
  {
    match a
    case Edit(i, c) => assert StepEdit(s, i, c).offers.Keys == s.offers.Keys;
    case OnDraft(d, op) => if d in s.drafts { DraftIds(s, d, op, id); }
    case OnRun(i, op) => if i in s.runs { assert StepRun(s, i, s.runs[i], op) == Step(s, a); }
    case _ =>
  }

  lemma DraftSender(s: State, d: nat, op: DraftOp, id: OfferId)
    requires Inv(s) && d in s.drafts && id in s.offers
    ensures var t := StepDraft(s, d, s.drafts[d], op); id in t.offers ==> t.offers[id].from == s.offers[id].from
  {
    assert id < s.nextId;
  }

  /** Nobody's offer becomes somebody else's. */
  lemma SenderStep(s: State, a: Action, id: OfferId)
    requires Inv(s) && id in s.offers && id in Step(s, a).offers
    ensures Step(s, a).offers[id].from == s.offers[id].from
  {
    hide Inv;
    match a
    case OnDraft(d, op) => if d in s.drafts { DraftSender(s, d, op, id); }
    case OnRun(i, op) => if i in s.runs { assert StepRun(s, i, s.runs[i], op) == Step(s, a); }
    case _ =>
  }

  lemma {:induction false} SenderStays(s: State, trace: seq<Action>, id: OfferId)
    requires Inv(s) && id in s.offers
    ensures id < Exec(s, trace).nextId
    ensures id in Exec(s, trace).offers ==> Exec(s, trace).offers[id].from == s.offers[id].from
  {
    if trace == [] {
      IdBelow(s, id);
    } else {
      var front, a := trace[..|trace| - 1], trace[|trace| - 1];
      SenderStays(s, front, id);
      EveryRun(s, front);
      IdsNeverReturn(Exec(s, front), a, id);
      if id in Exec(s, trace).offers { SenderStep(Exec(s, front), a, id); }
    }
  }

  lemma IdBelow(s: State, id: OfferId)
    requires Inv(s) && id in s.offers
    ensures id < s.nextId
  {
  }

  ghost predicate FinalAt(s: State, trace: seq<Action>, k: int, id: OfferId) {
    0 <= k < |trace| && id in Exec(s, trace[..k]).offers && IsFinal(Exec(s, trace[..k]).offers[id].state)
  }

  /** Over any further run. The record stays, or was pruned after it ended. */
  lemma {:induction false} StaysFrozen(s: State, trace: seq<Action>, id: OfferId)
    requires Inv(s) && id in s.offers && Begun(s.offers[id].state)
    ensures id < Exec(s, trace).nextId
    ensures id in Exec(s, trace).offers ==> Frozen(s.offers[id], Exec(s, trace).offers[id])
    ensures id !in Exec(s, trace).offers ==>
              exists k :: FinalAt(s, trace, k, id)
  {
    hide Inv, Frozen;
    FrozenNow(s, id);
    if trace != [] {
      var front, a := trace[..|trace| - 1], trace[|trace| - 1];
      var mid := Exec(s, front);
      StaysFrozen(s, front, id);
      IdsNeverReturn(mid, a, id);
      EveryRun(s, front);
      if id in mid.offers {
        FrozenBegun(s.offers[id], mid.offers[id]);
        FrozenStep(mid, a, id);
        if id in Exec(s, trace).offers { FrozenTrans(s.offers[id], mid.offers[id], Exec(s, trace).offers[id]); }
      } else {
        var k :| FinalAt(s, front, k, id);
        assert front[..k] == trace[..k];
        assert FinalAt(s, trace, k, id);
      }
      if id in mid.offers && id !in Exec(s, trace).offers {
        if mid.offers[id].state.Accepting? { OnlyTheClaimHolderWrites(mid, a, id); }
        assert FinalAt(s, trace, |front|, id);
      }
    }
  }

  lemma FrozenBegun(a: Offer, b: Offer)
    requires Frozen(a, b)
    ensures Begun(b.state)
  {
  }

  lemma EditLeaves(s: State, i: OfferId, c: Change, id: OfferId)
    requires id in s.offers && !Editable(s.offers[id])
    ensures id in StepEdit(s, i, c).offers && StepEdit(s, i, c).offers[id] == s.offers[id]
  {
  }

  lemma DraftReopens(s: State, d: nat, op: DraftOp, id: OfferId)
    requires Inv(s) && d in s.drafts && id in s.offers && IsFinal(s.offers[id].state)
    ensures var t := StepDraft(s, d, s.drafts[d], op);
            && id in t.offers
            && (t.offers[id] != s.offers[id] ==>
                  && op == PutBack(id) && id in s.drafts[d].done && s.offers[id].state.Cancelled?
                  && t.offers[id] == s.offers[id].(state := s.drafts[d].done[id]))
  {
  }

  ghost predicate PutsBack(s: State, a: Action, id: OfferId, later: Offer)
    requires id in s.offers
  {
    && a.OnDraft? && a.step == PutBack(id) && a.d in s.drafts && id in s.drafts[a.d].done
    && s.offers[id].state.Cancelled?
    && later == s.offers[id].(state := s.drafts[a.d].done[id])
  }

  /** A final offer never changes again, with one way out: a replaced offer is
      put back by the very createOffer that cancelled it, as it was. */
  lemma OnlyPutBackReopens(s: State, a: Action, id: OfferId)
    requires Inv(s) && id in s.offers && IsFinal(s.offers[id].state)
    ensures id in Step(s, a).offers ==>
              Step(s, a).offers[id] == s.offers[id] || PutsBack(s, a, id, Step(s, a).offers[id])
  {
    match a
    case OnDraft(d, op) => if d in s.drafts { DraftReopens(s, d, op, id); }
    case Edit(i, c) => EditLeaves(s, i, c, id);
    case OnRun(i, op) => if i in s.runs { RunWrites(s, i, op, id); }
    case _ =>
  }

  /** What an edit may do to an offer, and on whose word: the sender alone picks
      its sites, and they stay free of every other open offer; the sender cancels
      it, or the deletion of its account does; it expires past its date, or when
      the account it was made to is deleted. */
  lemma WhatEditsDo(s: State, id: OfferId, c: Change)
    requires id in s.offers
    ensures var o, t := s.offers[id], StepEdit(s, id, c);
            && id in t.offers
            && var n := t.offers[id];
               && (n != o ==> Editable(o))
               && (n.sites != o.sites ==>
                     && c.SetSites? && c.who == o.from && Editable(n) && 1 <= |n.sites| <= MAX_BUNDLE
                     && Elems(n.sites) == (Elems(o.sites) - Elems(c.remove)) + Elems(c.add)
                     && SitesFree(s.offers, id, n.sites))
               && (n.state != o.state ==>
                     match n.state
                     case Cancelled => (c.Cancel? && c.who == o.from) || c == EndFor(o.from)
                     case Expired => (c.Expire? && c.now > o.acceptBy) || (c.EndFor? && c.deleted != o.from)
                     case Declined => c.Decline?
                     case Paused => o.state.Open? && c.Pause?
                     case Open => o.state.Paused? && c.Reopen?
                     case _ => false)
  {
    if c.SetSites? { BundleAfterElems(s.offers[id].sites, c.add, c.remove); }
  }

  /** And when an edit takes effect, and how: the sender's cancel, dates and sites of
      an offer open or paused; anybody's decline of one; its expiry once past its
      date; a pause of an open one and the end of it; and the deletion of an account.
      Sites are set when at least one and at most 50 are left and no other offer that
      is not final holds one of them. Nothing else changes. */
  lemma WhenEditsTake(s: State, id: OfferId, c: Change)
    requires Inv(s) && id in s.offers
    ensures var o, t := s.offers[id], StepEdit(s, id, c);
            && id in t.offers && t == s.(offers := s.offers[id := t.offers[id]])
            && var n := t.offers[id];
               match c
               case SetSites(who, add, remove) =>
                 var left := Elems(o.sites) - Elems(remove) + Elems(add);
                 if who == o.from && (o.state.Open? || o.state.Paused?) && 1 <= |left| <= 50
                    && Unheld(s.offers, id, left)
                 then n == o.(sites := n.sites) && Elems(n.sites) == left && NoDup(n.sites)
                 else n == o
               case SetDates(who, until, since) =>
                 n == if who == o.from && (o.state.Open? || o.state.Paused?)
                      then o.(acceptBy := until, availableFrom := since) else o
               case Cancel(who) =>
                 n == if who == o.from && (o.state.Open? || o.state.Paused?) then o.(state := Cancelled) else o
               case Decline => n == if o.state.Open? || o.state.Paused? then o.(state := Declined) else o
               case Expire(now) =>
                 n == if (o.state.Open? || o.state.Paused?) && now > o.acceptBy then o.(state := Expired) else o
               case Pause => n == if o.state.Open? then o.(state := Paused) else o
               case Reopen => n == if o.state.Paused? then o.(state := Open) else o
               case EndFor(deleted) =>
                 n == if !(o.state.Open? || o.state.Paused?) then o
                      else if o.from == deleted then o.(state := Cancelled) else o.(state := Expired)
  {
    StillFree(s, id);
    hide Inv, SitesFree, Unheld;
    if c.SetSites? { WhenSitesSet(s, id, c.who, c.add, c.remove); } else { WhenStateSet(s, id, c); }
  }

  lemma WhenStateSet(s: State, id: OfferId, c: Change)
    requires id in s.offers && !c.SetSites?
    requires !IsFinal(s.offers[id].state) ==> SitesFree(s.offers, id, s.offers[id].sites)
    ensures StepEdit(s, id, c) == s.(offers := s.offers[id := NewRecord(s.offers[id], c)])
  {
    hide SitesFree;
    assert s.offers[id := s.offers[id]] == s.offers;
  }

  function NewRecord(o: Offer, c: Change): Offer {
    match Apply(o, c)
    case Some(n) => n
    case None => o
  }

  lemma WhenSitesSet(s: State, id: OfferId, who: Account, add: seq<Site>, remove: seq<Site>)
    requires id in s.offers && NoDup(s.offers[id].sites)
    ensures var o, t := s.offers[id], StepEdit(s, id, SetSites(who, add, remove));
            var left := Elems(o.sites) - Elems(remove) + Elems(add);
            && id in t.offers && t == s.(offers := s.offers[id := t.offers[id]])
            && var n := t.offers[id];
               if who == o.from && (o.state.Open? || o.state.Paused?) && 1 <= |left| <= 50 && Unheld(s.offers, id, left)
               then n == o.(sites := n.sites) && Elems(n.sites) == left && NoDup(n.sites)
               else n == o
  {
    hide BundleAfter, SitesFree, Unheld;
    var o := s.offers[id];
    assert s.offers[id := o] == s.offers;
    BundleAfterElems(o.sites, add, remove);
    NoDupSize(BundleAfter(o.sites, add, remove));
    FreeIs(s.offers, id, BundleAfter(o.sites, add, remove));
  }

  /** No other offer that is not final holds one of these sites. */
  ghost predicate Unheld(book: Book, id: OfferId, sites: set<Site>) {
    forall i | i in book && i != id && (book[i].state.Open? || book[i].state.Paused? || book[i].state.Accepting?) ::
      Elems(book[i].sites) !! sites
  }

  lemma FreeIs(book: Book, id: OfferId, sites: seq<Site>)
    ensures SitesFree(book, id, sites) <==> Unheld(book, id, Elems(sites))
  {
    if SitesFree(book, id, sites) {
      forall i | i in book && i != id && !IsFinal(book[i].state) ensures Elems(book[i].sites) !! Elems(sites) {
      }
    }
    if Unheld(book, id, Elems(sites)) {
      forall i | i in book && i != id && !IsFinal(book[i].state)
        ensures forall x | x in sites :: x !in book[i].sites
      {
        assert forall x | x in sites :: x in Elems(sites) && x !in Elems(book[i].sites);
      }
    }
  }

  /** An offer's own sites are free for it, and it has each once. */
  lemma StillFree(s: State, id: OfferId)
    requires Inv(s) && id in s.offers
    ensures NoDup(s.offers[id].sites)
    ensures !IsFinal(s.offers[id].state) ==> SitesFree(s.offers, id, s.offers[id].sites)
  {
  }

  /** What becomes of a site: it is made once, with an id of its own; it may go; one
      nobody owns may be adopted while it is not locked; and it is locked and
      unlocked. Nothing else changes. */
  lemma WhatSitesDo(s: State, x: Site, op: SiteOp)
    ensures var t := Step(s, OnSite(x, op));
            && t == s.(owners := t.owners, born := t.born, locked := t.locked)
            && (forall y | y != x ::
                  (y in t.owners <==> y in s.owners) && (y in s.owners ==> t.owners[y] == s.owners[y]))
            && match op
               case Make(owner) =>
                 && t.locked == s.locked && t.born == s.born + {x}
                 && if x in s.born then t.owners == s.owners else x in t.owners && t.owners[x] == owner
               case Drop => t.locked == s.locked && t.born == s.born && x !in t.owners
               case Adopt(account) =>
                 && t.locked == s.locked && t.born == s.born && (x in t.owners <==> x in s.owners)
                 && (x in s.owners ==>
                       t.owners[x] == if s.owners[x] == NOBODY && x !in s.locked then account else s.owners[x])
               case Lock => t.owners == s.owners && t.born == s.born && t.locked == s.locked + {x}
               case Unlock => t.owners == s.owners && t.born == s.born && t.locked == s.locked - {x}
  {
    assert x in s.born ==> s.born + {x} == s.born;
  }

  /** What claims an offer, in memory: an accept of somebody else, at the address it
      was made to, of an offer there is, or the loop for an account; and only while
      nobody holds it. Only a final offer is pruned, and a crash loses what is in
      memory alone. */
  lemma WhatClaimsDo(s: State, id: OfferId, account: Account, email: Email, posted: seq<Site>)
    ensures Step(s, Claim(id, account, email, posted)) ==
            if id in s.offers && id !in s.runs && account != NOBODY && account != s.offers[id].from
               && s.offers[id].toEmail == email
            then s.(runs := s.runs[id := Run(account, Some(posted), false, {})]) else s
    ensures Step(s, Resume(id, account)) ==
            if id !in s.runs && account != NOBODY
            then s.(runs := s.runs[id := Run(account, None, false, {})]) else s
    ensures Step(s, Prune(id)) ==
            if id in s.offers && !s.offers[id].state.Open? && !s.offers[id].state.Paused?
               && !s.offers[id].state.Accepting?
            then s.(offers := s.offers - {id}) else s
    ensures Step(s, Crash) == s.(runs := map[], drafts := map[])
  {
  }

  /** A creation starts with a plan of an account, of 1 to 50 distinct sites that were
      made at some time and have an owner if they are there, with each replaced offer
      once. */
  lemma WhatPlansDo(s: State, d: nat, p: Draft)
    ensures Step(s, Plan(d, p)) ==
            if d !in s.drafts && p.from != NOBODY && 1 <= |p.sites| <= 50 && NoDup(p.sites) && NoDup(p.replace)
               && (forall x | x in p.sites :: x in s.born && (x in s.owners ==> s.owners[x] != NOBODY))
               && p.next == 0 && p.done == map[] && p.phase == Cancelling
            then s.(drafts := s.drafts[d := p]) else s
  {
  }

  /** What a run does to offers: it starts an acceptance only of an open offer,
      within its dates, of exactly the posted bundle, for its own account; it
      accepts with every site done, or some of them and the rest left behind; and
      it ends with none. Only a site it moved or saw with its account becomes done. */
  lemma WhatRunsDo(s: State, i: OfferId, op: RunOp)
    requires Inv(s) && i in s.runs && i in s.offers
    ensures var r, o, t := s.runs[i], s.offers[i], StepRun(s, i, s.runs[i], op);
            && i in t.offers
            && var n := t.offers[i];
               && (n.state != o.state ==>
                     match n.state
                     case Accepting => op.Begin? && o.state.Open? && op.now <= o.acceptBy && r.posted.Some?
                                       && (o.availableFrom.Some? ==> o.availableFrom.value <= op.now)
                                       && SameSites(o.sites, r.posted.value) && n.acceptedBy == r.to && n.done == []
                     case Accepted => o.state.Accepting? && o.done != [] && (NotDone(o) == {} || op.GiveUp?)
                     case Ended => o.state.Accepting? && o.done == [] && op.GiveUp?
                     case _ => false)
               && (forall x | x in n.done && x !in o.done :: op == MarkDone(x) && x in r.known)
  {
    hide Inv;
    RunOkOf(s, i);
  }

  /** And when: an acceptance starts exactly of an open offer in its dates whose
      bundle was posted, by a run that has not read it as accepting. A site moves
      exactly while it is in the bundle, the sender's and not locked, and it becomes
      done exactly when the run knows it to be the account's. It is accepted exactly
      with every site done; and given up, whatever is left. */
  lemma WhenRunsTake(s: State, i: OfferId, op: RunOp)
    requires Inv(s) && i in s.runs && i in s.offers
    ensures var r, o, t := s.runs[i], s.offers[i], StepRun(s, i, s.runs[i], op);
            match op
            case Begin(now) =>
              if r.posted.Some? && !r.loaded && o.state.Open? && Elems(o.sites) == Elems(r.posted.value)
                 && now <= o.acceptBy && (o.availableFrom.Some? ==> o.availableFrom.value <= now)
              then t == s.(offers := s.offers[i := o.(state := Accepting, acceptedBy := r.to)],
                           starts := s.starts[i := Start(r.posted.value, s.owners)])
              else t == s
            case Load =>
              t == s.(runs := s.runs[i := r.(loaded := t.runs[i].loaded)])
              && (t.runs[i].loaded <==> r.loaded || (o.state.Accepting? && o.acceptedBy == r.to))
            case See(x) =>
              t == s.(runs := s.runs[i := r.(known := t.runs[i].known)])
              && t.runs[i].known == r.known + (if r.loaded && x in o.sites && x in s.owners && s.owners[x] == r.to
                                               then {x} else {})
            case Move(x) =>
              if r.loaded && x in o.sites && x in s.owners && s.owners[x] == o.from && x !in s.locked
              then t == s.(owners := s.owners[x := r.to], moves := s.moves + [(i, x)],
                           runs := s.runs[i := r.(known := r.known + {x})])
              else t == s
            case MarkDone(x) =>
              t == s.(offers := s.offers[i := o.(done := t.offers[i].done)])
              && t.offers[i].done == o.done + (if r.loaded && x in r.known && x !in o.done then [x] else [])
            case Finish =>
              if r.loaded && Elems(o.sites) <= Elems(o.done)
              then t.offers == s.offers[i := o.(state := Accepted)] && !t.runs[i].loaded else t == s
            case GiveUp =>
              if r.loaded
              then t.offers == s.offers[i := o.(state := if o.done == [] then Ended else Accepted)] && !t.runs[i].loaded
              else t == s
            case Release => t == s.(runs := s.runs - {i})
  {
    RunOkOf(s, i);
    hide Inv;
    assert s.offers[i := s.offers[i]] == s.offers && s.runs[i := s.runs[i]] == s.runs;
    if op.MarkDone? { assert s.offers[i].done + [] == s.offers[i].done; }
    if Elems(s.offers[i].sites) <= Elems(s.offers[i].done) { assert NotDone(s.offers[i]) == {}; }
    if x :| x in Elems(s.offers[i].sites) && x !in Elems(s.offers[i].done) { assert x in NotDone(s.offers[i]); }
    if op.See? { assert s.runs[i].known + {} == s.runs[i].known; }
  }

  lemma RunOkOf(s: State, i: OfferId)
    requires Inv(s) && i in s.runs && i in s.offers
    ensures RecordOk(s.offers[i])
    ensures s.runs[i].loaded ==> s.offers[i].state.Accepting? && (NotDone(s.offers[i]) == {} ==> s.offers[i].done != [])
  {
    assert RunOk(i, s.runs[i], s.offers, s.nextId, s.starts, s.moves);
    if s.offers[i].done == [] { assert s.offers[i].sites[0] in NotDone(s.offers[i]); }
  }
}
