/** What every step of the transfer protocol keeps. The invariant is split into
    parts over the components they speak of, so that a step touches few. */
module Safety {
  import opened Prelude
  import opened Offers
  import opened Protocol

  type Starts = map<OfferId, Start>
  type Moves = seq<(OfferId, Site)>

  predicate Begun(st: OfferState) {
    st.Accepting? || st.Accepted? || st.Ended?
  }

  ghost predicate RecordOk(o: Offer) {
    && o.from != NOBODY
    && 1 <= |o.sites| <= MAX_BUNDLE && NoDup(o.sites)
    && NoDup(o.done) && Elems(o.done) <= Elems(o.sites)
    && (o.state.Accepted? ==> o.done != [])
    && (o.state.Ended? ==> o.done == [])
    && (!Begun(o.state) ==> o.done == [] && o.acceptedBy == NOBODY)
    && (Begun(o.state) ==> o.acceptedBy != NOBODY && o.acceptedBy != o.from)
  }

  ghost predicate Records(book: Book, nextId: OfferId, starts: Starts) {
    forall id | id in book ::
      && id < nextId
      && RecordOk(book[id])
      && (Begun(book[id].state) <==> id in starts)
      && (id in starts ==> SameSites(book[id].sites, starts[id].posted))
  }

  ghost predicate AllChoosable(book: Book, drafts: map<nat, Draft>, born: set<Site>, owners: map<Site, Account>) {
    && (forall id | id in book :: Choosable(born, owners, book[id].sites))
    && (forall d | d in drafts :: Choosable(born, owners, drafts[d].sites))
  }

  /** A site is in at most one offer that is not final. */
  ghost predicate Exclusive(book: Book) {
    forall a, b, x | a in book && b in book && !IsFinal(book[a].state) && !IsFinal(book[b].state)
                     && x in book[a].sites && x in book[b].sites :: a == b
  }

  /** Where a site of an accepting offer is: with the sender, not yet moved;
      with the recipient, moved by this offer; or with whoever had it when the
      acceptance started, never moved by this offer. */
  ghost predicate Placed(id: OfferId, o: Offer, was: map<Site, Account>, now: map<Site, Account>, moves: Moves,
                         x: Site) {
    x in now ==>
      && x in was
      && (was[x] == o.from ==> now[x] == (if (id, x) in moves then o.acceptedBy else o.from))
      && (was[x] != o.from ==> now[x] == was[x] && (id, x) !in moves)
  }

  ghost predicate AllPlaced(book: Book, starts: Starts, owners: map<Site, Account>, moves: Moves) {
    forall id, x | id in book && book[id].state.Accepting? && id in starts && x in book[id].sites ::
      Placed(id, book[id], starts[id].owners, owners, moves, x)
  }

  /** A site counted as done: this offer moved it exactly if the sender had it
      when the acceptance started; otherwise the recipient had it already. */
  ghost predicate Taken(id: OfferId, o: Offer, was: map<Site, Account>, moves: Moves, x: Site) {
    && x in o.sites
    && x in was
    && ((id, x) in moves <==> was[x] == o.from)
    && (was[x] == o.from || was[x] == o.acceptedBy)
  }

  ghost predicate AllTaken(book: Book, starts: Starts, moves: Moves) {
    forall id, x | id in book && id in starts && x in book[id].done ::
      Taken(id, book[id], starts[id].owners, moves, x)
  }

  ghost predicate RunOk(id: OfferId, r: Run, book: Book, nextId: OfferId, starts: Starts, moves: Moves) {
    && r.to != NOBODY
    && (r.posted.Some? ==> id < nextId && (id in book ==> r.to != book[id].from))
    && (!r.loaded ==> r.known == {})
    && (r.loaded ==>
          && id in book && book[id].state.Accepting? && book[id].acceptedBy == r.to && id in starts
          && forall x | x in r.known :: Taken(id, book[id], starts[id].owners, moves, x))
  }

  ghost predicate RunsOk(runs: map<OfferId, Run>, book: Book, nextId: OfferId, starts: Starts, moves: Moves) {
    forall id | id in runs :: RunOk(id, runs[id], book, nextId, starts, moves)
  }

  /** A replaced offer that waits to be put back is cancelled, and waits once. */
  ghost predicate DraftsOk(drafts: map<nat, Draft>, book: Book, nextId: OfferId) {
    && (forall d | d in drafts ::
          drafts[d].from != NOBODY && 1 <= |drafts[d].sites| <= MAX_BUNDLE && NoDup(drafts[d].sites))
    && (forall d, id | d in drafts && id in drafts[d].done ::
          && id < nextId
          && (drafts[d].done[id].Open? || drafts[d].done[id].Paused?)
          && (id in book ==> book[id].state.Cancelled?))
    && (forall d, e, id | d in drafts && e in drafts && id in drafts[d].done && id in drafts[e].done :: d == e)
  }

  ghost predicate Waits(drafts: map<nat, Draft>, id: OfferId) {
    exists d | d in drafts :: id in drafts[d].done
  }

  ghost predicate History(starts: Starts, moves: Moves, owners: map<Site, Account>, born: set<Site>, nextId: OfferId) {
    && owners.Keys <= born
    && (forall id | id in starts :: id < nextId)
    && NoDup(moves)
    && (forall m | m in moves :: m.0 in starts)
  }

  ghost predicate Inv(s: State) {
    && Records(s.offers, s.nextId, s.starts)
    && AllChoosable(s.offers, s.drafts, s.born, s.owners)
    && Exclusive(s.offers)
    && AllPlaced(s.offers, s.starts, s.owners, s.moves)
    && AllTaken(s.offers, s.starts, s.moves)
    && RunsOk(s.runs, s.offers, s.nextId, s.starts, s.moves)
    && DraftsOk(s.drafts, s.offers, s.nextId)
    && History(s.starts, s.moves, s.owners, s.born, s.nextId)
  }

  lemma SiteStep(s: State, x: Site, op: SiteOp)
    requires Inv(s)
    ensures Inv(StepSite(s, x, op))
  {
    var t := StepSite(s, x, op);
    assert t == s.(owners := t.owners, locked := t.locked, born := t.born);
    SitePlaced(s.offers, s.drafts, s.starts, s.owners, s.moves, s.born, t.owners, t.born);
  }

  /** Sites may come, go, and find an owner when they had none. */
  lemma SitePlaced(book: Book, drafts: map<nat, Draft>, starts: Starts, owners: map<Site, Account>, moves: Moves,
                   born: set<Site>,
                   now: map<Site, Account>, ever: set<Site>)
    requires AllPlaced(book, starts, owners, moves)
    requires AllChoosable(book, drafts, born, owners) && owners.Keys <= born <= ever
    requires forall x | x in now ::
               (x in owners && (now[x] == owners[x] || owners[x] == NOBODY != now[x])) || x !in born
    ensures AllPlaced(book, starts, now, moves) && AllChoosable(book, drafts, ever, now)
  {
  }

  /** A draft may change freely as long as what waits in it is cancelled and
      waits nowhere else. */
  lemma SetDraft(drafts: map<nat, Draft>, d: nat, p: Draft, book: Book, nextId: OfferId)
    requires DraftsOk(drafts, book, nextId)
    requires p.from != NOBODY && 1 <= |p.sites| <= MAX_BUNDLE && NoDup(p.sites)
    requires forall id | id in p.done ::
               && id < nextId && (p.done[id].Open? || p.done[id].Paused?)
               && (id in book ==> book[id].state.Cancelled?)
               && ((d in drafts && id in drafts[d].done) || !Waits(drafts, id))
    ensures DraftsOk(drafts[d := p], book, nextId)
  {
    var next := drafts[d := p];
    forall e, f, id | e in next && f in next && id in next[e].done && id in next[f].done ensures e == f {
      if e != d && f != d {
        assert drafts[e] == next[e] && drafts[f] == next[f];
      }
    }
  }

  lemma SetRecord(drafts: map<nat, Draft>, book: Book, next: Book, nextId: OfferId, above: OfferId)
    requires DraftsOk(drafts, book, nextId) && nextId <= above
    requires forall id | id in next && !next[id].state.Cancelled? && id < nextId ::
               (id in book && book[id].state == next[id].state) || !Waits(drafts, id)
    ensures DraftsOk(drafts, next, above)
  {
    forall d, id | d in drafts && id in drafts[d].done ensures id in next ==> next[id].state.Cancelled? {
      assert Waits(drafts, id);
    }
  }

  lemma PutKeepsExclusive(book: Book, id: OfferId, o: Offer)
    requires Exclusive(book) && Put(book, id, o).Some?
    ensures Exclusive(Put(book, id, o).value)
  {
  }

  lemma NobodyWaits(s: State, id: OfferId)
    requires Inv(s) && id in s.offers && !s.offers[id].state.Cancelled?
    ensures !Waits(s.drafts, id)
  {
  }

  /** Rewriting a record on neither side of an acceptance keeps everything,
      as long as nobody means to put that record back. */
  lemma Rewrite(s: State, id: OfferId, o: Offer)
    requires Inv(s) && id in s.offers && (!Waits(s.drafts, id) || o.state.Cancelled?)
    requires !Begun(s.offers[id].state) && !Begun(o.state)
    requires RecordOk(o) && o.from == s.offers[id].from && Choosable(s.born, s.owners, o.sites)
    requires Put(s.offers, id, o).Some?
    ensures Inv(s.(offers := s.offers[id := o]))
  {
    var book := s.offers[id := o];
    PutKeepsExclusive(s.offers, id, o);
    SetRecord(s.drafts, s.offers, book, s.nextId, s.nextId);
    assert Records(book, s.nextId, s.starts);
    assert AllPlaced(book, s.starts, s.owners, s.moves);
    assert AllTaken(book, s.starts, s.moves);
    assert RunsOk(s.runs, book, s.nextId, s.starts, s.moves);
  }

  lemma EditStep(s: State, id: OfferId, c: Change)
    requires Inv(s) && GoodChange(s, c)
    ensures Inv(StepEdit(s, id, c))
  {
    if id in s.offers && Apply(s.offers[id], c).Some? {
      var o := Apply(s.offers[id], c).value;
      if Put(s.offers, id, o).Some? {
        if c.SetSites? {
          BundleAfterElems(s.offers[id].sites, c.add, c.remove);
          assert forall x :: x in o.sites <==> x in Elems(o.sites);
        }
        NobodyWaits(s, id);
        Rewrite(s, id, o);
      }
    }
  }

  lemma WithDraft(s: State, d: nat, p: Draft)
    requires Inv(s) && Choosable(s.born, s.owners, p.sites)
    requires DraftsOk(s.drafts[d := p], s.offers, s.nextId)
    ensures Inv(s.(drafts := s.drafts[d := p]))
  {
    assert AllChoosable(s.offers, s.drafts[d := p], s.born, s.owners);
  }

  /** A draft in the store may move on: it keeps its form, and what waits in it
      is cancelled and waits nowhere else. */
  lemma MoveOn(s: State, d: nat, p: Draft)
    requires Inv(s) && d in s.drafts && p.from == s.drafts[d].from && p.sites == s.drafts[d].sites
    requires forall id | id in p.done ::
               (id in s.drafts[d].done && p.done[id] == s.drafts[d].done[id])
               || (id < s.nextId && (p.done[id].Open? || p.done[id].Paused?) && !Waits(s.drafts, id)
                   && (id in s.offers ==> s.offers[id].state.Cancelled?))
    ensures Inv(s.(drafts := s.drafts[d := p]))
  {
    SetDraft(s.drafts, d, p, s.offers, s.nextId);
    WithDraft(s, d, p);
  }

  lemma CancelRecord(s: State, id: OfferId)
    requires Inv(s) && id in s.offers && Editable(s.offers[id])
    ensures Inv(s.(offers := s.offers[id := s.offers[id].(state := Cancelled)]))
    ensures !Waits(s.drafts, id) && id < s.nextId
  {
    NobodyWaits(s, id);
    Rewrite(s, id, s.offers[id].(state := Cancelled));
  }

  lemma DraftCancelStep(s: State, d: nat)
    requires Inv(s) && d in s.drafts
    ensures Inv(StepDraft(s, d, s.drafts[d], CancelNext))
  {
    hide Inv;
    var p := s.drafts[d];
    if p.phase.Cancelling? && p.next < |p.replace| {
      var id := p.replace[p.next];
      if id in s.offers && Editable(s.offers[id]) && s.offers[id].from == p.from {
        CancelRecord(s, id);
        var t := s.(offers := s.offers[id := s.offers[id].(state := Cancelled)]);
        MoveOn(t, d, p.(next := p.next + 1, done := p.done[id := s.offers[id].state]));
      } else {
        MoveOn(s, d, p.(phase := Restoring));
      }
    }
  }

  lemma AddRecord(s: State, o: Offer)
    requires Inv(s) && RecordOk(o) && o.state.Open? && Choosable(s.born, s.owners, o.sites)
    requires SitesFree(s.offers, s.nextId, o.sites)
    ensures Inv(s.(offers := s.offers[s.nextId := o], nextId := s.nextId + 1))
  {
    PutKeepsExclusive(s.offers, s.nextId, o);
    SetRecord(s.drafts, s.offers, s.offers[s.nextId := o], s.nextId, s.nextId + 1);
    FreshRecord(s.offers, s.nextId, s.starts, s.runs, s.moves, o);
  }

  lemma FreshRecord(book: Book, nextId: OfferId, starts: Starts, runs: map<OfferId, Run>, moves: Moves, o: Offer)
    requires Records(book, nextId, starts) && RunsOk(runs, book, nextId, starts, moves) && AllTaken(book, starts, moves)
    requires RecordOk(o) && o.state.Open? && nextId !in starts
    ensures Records(book[nextId := o], nextId + 1, starts)
    ensures RunsOk(runs, book[nextId := o], nextId + 1, starts, moves)
    ensures AllTaken(book[nextId := o], starts, moves)
  {
  }

  lemma DraftCreateStep(s: State, d: nat)
    requires Inv(s) && d in s.drafts
    ensures Inv(StepDraft(s, d, s.drafts[d], Create))
  {
    var p := s.drafts[d];
    if p.phase.Cancelling? && p.next == |p.replace| {
      if SitesFree(s.offers, s.nextId, p.sites) {
        var o := Offer(p.sites, p.from, p.toEmail, p.availableFrom, p.acceptBy, Open, [], NOBODY);
        assert RecordOk(o);
        assert Choosable(s.born, s.owners, s.drafts[d].sites);
        AddRecord(s, o);
        var t := s.(offers := s.offers[s.nextId := o], nextId := s.nextId + 1);
        MoveOn(t, d, p.(done := map[], phase := Over));
      } else {
        MoveOn(s, d, p.(phase := Restoring));
      }
    }
  }

  /** Taking a record off a draft's list of records to put back. */
  lemma Forget(s: State, d: nat, id: OfferId)
    requires Inv(s) && d in s.drafts && id in s.drafts[d].done
    ensures Inv(s.(drafts := s.drafts[d := s.drafts[d].(done := s.drafts[d].done - {id})]))
    ensures !Waits(s.drafts[d := s.drafts[d].(done := s.drafts[d].done - {id})], id)
  {
    var q := s.drafts[d].(done := s.drafts[d].done - {id});
    SetDraft(s.drafts, d, q, s.offers, s.nextId);
    WithDraft(s, d, q);
  }

  lemma DraftPutBackStep(s: State, d: nat, id: OfferId)
    requires Inv(s) && d in s.drafts
    ensures Inv(StepDraft(s, d, s.drafts[d], PutBack(id)))
  {
    var p := s.drafts[d];
    if p.phase.Restoring? && id in p.done {
      Forget(s, d, id);
      var rest := s.(drafts := s.drafts[d := p.(done := p.done - {id})]);
      if id in s.offers && Put(s.offers, id, s.offers[id].(state := p.done[id])).Some? {
        Rewrite(rest, id, s.offers[id].(state := p.done[id]));
      }
    }
  }

  lemma DraftStep(s: State, d: nat, op: DraftOp)
    requires Inv(s) && d in s.drafts
    ensures Inv(StepDraft(s, d, s.drafts[d], op))
  {
    match op
    case CancelNext => DraftCancelStep(s, d);
    case Create => DraftCreateStep(s, d);
    case PutBack(id) => DraftPutBackStep(s, d, id);
    case Skip(id) => if s.drafts[d].phase.Restoring? && id in s.drafts[d].done { Forget(s, d, id); }
    case Fail => MoveOn(s, d, s.drafts[d].(phase := Restoring));
  }

  lemma BeginStep(s: State, id: OfferId, now: Time)
    requires Inv(s) && id in s.runs
    ensures Inv(StepRun(s, id, s.runs[id], Begin(now)))
  {
    var t, r := StepRun(s, id, s.runs[id], Begin(now)), s.runs[id];
    if t != s {
      var o := s.offers[id].(state := Accepting, acceptedBy := r.to);
      var at := Start(r.posted.value, s.owners);
      NobodyWaits(s, id);
      SetRecord(s.drafts, s.offers, t.offers, s.nextId, s.nextId);
      BeginPlaced(s, id, o, at);
      assert RecordOk(o);
      BeginRest(s.offers, s.nextId, s.starts, s.runs, s.moves, id, o, at);
      assert t == s.(offers := s.offers[id := o], starts := s.starts[id := at]);
    }
  }

  lemma BeginPlaced(s: State, id: OfferId, o: Offer, at: Start)
    requires Inv(s) && id in s.offers && !Begun(s.offers[id].state)
    requires at.owners == s.owners
    ensures AllPlaced(s.offers[id := o], s.starts[id := at], s.owners, s.moves)
  {
    assert forall x :: (id, x) !in s.moves;
  }

  lemma BeginRest(book: Book, nextId: OfferId, starts: Starts, runs: map<OfferId, Run>, moves: Moves,
                  id: OfferId, o: Offer, at: Start)
    requires Records(book, nextId, starts) && RunsOk(runs, book, nextId, starts, moves) && AllTaken(book, starts, moves)
    requires Exclusive(book)
    requires id in book && book[id].state.Open? && RecordOk(o) && o.state.Accepting? && o.done == []
    requires o.sites == book[id].sites && o.from == book[id].from && SameSites(o.sites, at.posted)
    ensures Records(book[id := o], nextId, starts[id := at])
    ensures RunsOk(runs, book[id := o], nextId, starts[id := at], moves)
    ensures AllTaken(book[id := o], starts[id := at], moves)
    ensures Exclusive(book[id := o])
  {
  }

  lemma SeeStep(s: State, id: OfferId, x: Site)
    requires Inv(s) && id in s.runs
    ensures Inv(StepRun(s, id, s.runs[id], See(x)))
  {
    if id in s.offers && x in s.offers[id].sites && id in s.starts && s.offers[id].state.Accepting? {
      assert Placed(id, s.offers[id], s.starts[id].owners, s.owners, s.moves, x);
    }
  }

  lemma NotMovedYet(s: State, id: OfferId, x: Site)
    requires Inv(s) && id in s.offers && s.offers[id].state.Accepting? && x in s.offers[id].sites
    requires x in s.owners && s.owners[x] == s.offers[id].from
    ensures (id, x) !in s.moves && x in s.starts[id].owners && s.starts[id].owners[x] == s.offers[id].from
  {
    assert Placed(id, s.offers[id], s.starts[id].owners, s.owners, s.moves, x);
  }

  lemma MovePlaced(book: Book, starts: Starts, owners: map<Site, Account>, moves: Moves, id: OfferId, x: Site)
    requires AllPlaced(book, starts, owners, moves) && Exclusive(book)
    requires id in book && id in starts && book[id].state.Accepting? && x in book[id].sites
    requires x in owners && owners[x] == book[id].from
    ensures AllPlaced(book, starts, owners[x := book[id].acceptedBy], moves + [(id, x)])
  {
    var now, next := owners[x := book[id].acceptedBy], moves + [(id, x)];
    forall i, y | i in book && book[i].state.Accepting? && i in starts && y in book[i].sites
      ensures Placed(i, book[i], starts[i].owners, now, next, y)
    {
      assert Placed(i, book[i], starts[i].owners, owners, moves, y);
      assert y == x ==> i == id;
    }
  }

  lemma MoveTaken(book: Book, starts: Starts, moves: Moves, id: OfferId, x: Site)
    requires AllTaken(book, starts, moves)
    requires id in book && id in starts && x in starts[id].owners && starts[id].owners[x] == book[id].from
    ensures AllTaken(book, starts, moves + [(id, x)])
  {
  }

  lemma MoveStep(s: State, id: OfferId, x: Site)
    requires Inv(s) && id in s.runs
    ensures Inv(StepRun(s, id, s.runs[id], Move(x)))
  {
    var t := StepRun(s, id, s.runs[id], Move(x));
    if t != s {
      NotMovedYet(s, id, x);
      MovePlaced(s.offers, s.starts, s.owners, s.moves, id, x);
      MoveTaken(s.offers, s.starts, s.moves, id, x);
      NoDupAppend(s.moves, (id, x));
      assert RunsOk(t.runs, t.offers, t.nextId, t.starts, t.moves);
      assert AllChoosable(t.offers, t.drafts, t.born, t.owners);
    }
  }

  /** A run's own write to its accepting offer: only the list of done sites
      grows, or the offer ends, and then the run is over. */
  lemma RunRewrite(s: State, id: OfferId, o: Offer, r: Run)
    requires Inv(s) && id in s.runs && s.runs[id].loaded
    requires RecordOk(o) && Begun(o.state)
    requires o.(state := s.offers[id].state, done := s.offers[id].done) == s.offers[id]
    requires forall x | x in o.done :: x in s.offers[id].done || x in s.runs[id].known
    requires (r == s.runs[id] && o.state.Accepting?) || r == s.runs[id].(loaded := false, known := {})
    ensures Inv(s.(offers := s.offers[id := o], runs := s.runs[id := r]))
  {
    var book := s.offers[id := o];
    NobodyWaits(s, id);
    SetRecord(s.drafts, s.offers, book, s.nextId, s.nextId);
    RewriteKeeps(s.offers, s.nextId, s.starts, s.owners, s.moves, id, o, s.runs[id]);
    RunsKeep(s.runs, s.offers, s.nextId, s.starts, s.moves, id, o, r);
  }

  lemma RewriteKeeps(book: Book, nextId: OfferId, starts: Starts, owners: map<Site, Account>, moves: Moves,
                     id: OfferId, o: Offer, r: Run)
    requires Records(book, nextId, starts) && Exclusive(book)
    requires AllPlaced(book, starts, owners, moves) && AllTaken(book, starts, moves)
    requires RunOk(id, r, book, nextId, starts, moves) && r.loaded
    requires RecordOk(o) && Begun(o.state) && o.(state := book[id].state, done := book[id].done) == book[id]
    requires forall x | x in o.done :: x in book[id].done || x in r.known
    ensures var next := book[id := o];
            Records(next, nextId, starts) && Exclusive(next) && AllPlaced(next, starts, owners, moves) &&
              AllTaken(next, starts, moves)
  {
  }

  lemma RunsKeep(runs: map<OfferId, Run>, book: Book, nextId: OfferId, starts: Starts, moves: Moves, id: OfferId,
                 o: Offer, r: Run)
    requires RunsOk(runs, book, nextId, starts, moves) && id in runs && runs[id].loaded
    requires o.(state := book[id].state, done := book[id].done) == book[id]
    requires (r == runs[id] && o.state.Accepting?) || r == runs[id].(loaded := false, known := {})
    ensures RunsOk(runs[id := r], book[id := o], nextId, starts, moves)
  {
  }

  lemma MarkDoneStep(s: State, id: OfferId, x: Site)
    requires Inv(s) && id in s.runs
    ensures Inv(StepRun(s, id, s.runs[id], MarkDone(x)))
  {
    var t := StepRun(s, id, s.runs[id], MarkDone(x));
    if t != s {
      var o := t.offers[id];
      ElemsAppend(s.offers[id].done, [x]);
      assert Taken(id, s.offers[id], s.starts[id].owners, s.moves, x);
      assert x in o.sites;
      RunRewrite(s, id, o, s.runs[id]);
      assert s.runs[id := s.runs[id]] == s.runs;
    }
  }

  lemma EndSteps(s: State, id: OfferId, op: RunOp)
    requires Inv(s) && id in s.runs && (op.Finish? || op.GiveUp?)
    ensures Inv(StepRun(s, id, s.runs[id], op))
  {
    var t := StepRun(s, id, s.runs[id], op);
    if s.runs[id].loaded && t != s {
      if op.Finish? {
        assert s.offers[id].sites[0] in Elems(s.offers[id].sites) - Elems([]);
      }
      var o := s.offers[id].(state := if op.Finish? || s.offers[id].done != [] then Accepted else Ended);
      var r := s.runs[id].(loaded := false, known := {});
      RunRewrite(s, id, o, r);
      assert t == s.(offers := s.offers[id := o], runs := s.runs[id := r]);
    }
  }

  lemma RunStep(s: State, id: OfferId, op: RunOp)
    requires Inv(s) && id in s.runs
    ensures Inv(StepRun(s, id, s.runs[id], op))
  {
    match op
    case Begin(now) => BeginStep(s, id, now);
    case See(x) => SeeStep(s, id, x);
    case Move(x) => MoveStep(s, id, x);
    case MarkDone(x) => MarkDoneStep(s, id, x);
    case Finish => EndSteps(s, id, op);
    case GiveUp => EndSteps(s, id, op);
    case _ =>
  }

  lemma PruneStep(s: State, id: OfferId)
    requires Inv(s) && id in s.offers && IsFinal(s.offers[id].state)
    ensures Inv(Step(s, Prune(id)))
  {
    SetRecord(s.drafts, s.offers, s.offers - {id}, s.nextId, s.nextId);
    assert RunsOk(s.runs, s.offers - {id}, s.nextId, s.starts, s.moves);
  }

  lemma EveryStep(s: State, a: Action)
    requires Inv(s)
    ensures Inv(Step(s, a))
  {
    match a
    case OnSite(x, op) => SiteStep(s, x, op);
    case Plan(d, p) =>
      if d !in s.drafts && GoodPlan(s, p) {
        SetDraft(s.drafts, d, p, s.offers, s.nextId);
        WithDraft(s, d, p);
      }
    case OnDraft(d, op) => if d in s.drafts { DraftStep(s, d, op); }
    case Edit(id, c) => if GoodChange(s, c) { EditStep(s, id, c); }
    case Prune(id) => if id in s.offers && IsFinal(s.offers[id].state) { PruneStep(s, id); }
    case OnRun(id, op) => if id in s.runs { RunStep(s, id, op); }
    case _ =>
  }
}
