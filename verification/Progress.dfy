/** How a claimed run's own steps, and everybody else's in between, change what
    the run works on. */
module Progress {
  import opened Prelude
  import opened Offers
  import opened Protocol
  import opened Safety
  import opened Theorems
  import opened Interference

  /** The run is loaded and o is the accepting record the store holds. */
  ghost predicate Going(s: State, me: OfferId, to: Account, o: Offer) {
    && Inv(s)
    && me in s.runs && s.runs[me].to == to && s.runs[me].loaded
    && me in s.offers && s.offers[me] == o && o.state.Accepting?
  }

  /** From s to t the run moved exactly the sites in moved to its account; the
      other sites of the bundle kept their owner or went away, and the record
      changed in its state and by sites added to done. */
  ghost predicate Moved(s: State, t: State, me: OfferId, to: Account, moved: set<Site>) {
    && me in s.offers && me in t.offers
    && t.offers[me].(state := s.offers[me].state, done := s.offers[me].done) == s.offers[me]
    && NotDone(t.offers[me]) <= NotDone(s.offers[me])
    && (me in s.starts ==> me in t.starts && t.starts[me] == s.starts[me])
    && (forall x | x in s.offers[me].sites && x in t.owners ::
          x in s.owners && t.owners[x] == if x in moved then to else s.owners[x])
    && (forall x :: (me, x) in t.moves <==> (me, x) in s.moves || x in moved)
    && (forall x | x in moved :: x in s.offers[me].sites && (me, x) !in s.moves)
  }

  lemma NothingMoved(s: State, me: OfferId, to: Account)
    requires me in s.offers
    ensures Moved(s, s, me, to, {})
  {
  }

  lemma SameSender(s: State, t: State, me: OfferId, to: Account, moved: set<Site>)
    requires Moved(s, t, me, to, moved)
    ensures t.offers[me].from == s.offers[me].from && t.offers[me].sites == s.offers[me].sites
  {
  }

  lemma MovedTrans(s: State, t: State, u: State, me: OfferId, to: Account, a: set<Site>, b: set<Site>)
    requires Moved(s, t, me, to, a) && Moved(t, u, me, to, b)
    ensures Moved(s, u, me, to, a + b)
  {
    assert u.offers[me].(state := s.offers[me].state, done := s.offers[me].done) == s.offers[me];
  }

  lemma OthersMoveNothing(s: State, t: State, me: OfferId, to: Account, o: Offer)
    requires Going(s, me, to, o) && Inv(t) && Untouched(s, t, me) && me in t.runs && t.runs[me] == s.runs[me]
    ensures Going(t, me, to, o) && Moved(s, t, me, to, {})
  {
  }

  lemma AcceptedByRun(s: State, me: OfferId, to: Account, o: Offer)
    requires Going(s, me, to, o)
    ensures o.acceptedBy == to && to != NOBODY && to != o.from && NoDup(o.sites)
  {
    assert RunOk(me, s.runs[me], s.offers, s.nextId, s.starts, s.moves);
  }

  lemma SeeGoes(s: State, me: OfferId, to: Account, o: Offer, x: Site)
    requires Going(s, me, to, o)
    ensures var t := StepRun(s, me, s.runs[me], See(x));
            && Going(t, me, to, o) && Moved(s, t, me, to, {}) && t.owners == s.owners && t.locked == s.locked
            && (Can(s, me, s.runs[me], See(x)) ==> x in t.runs[me].known)
  {
    RunStep(s, me, See(x));
  }

  lemma MoveGoes(s: State, me: OfferId, to: Account, o: Offer, x: Site)
    requires Going(s, me, to, o)
    ensures var t := StepRun(s, me, s.runs[me], Move(x));
            && Going(t, me, to, o) && t.locked == s.locked
            && Moved(s, t, me, to, if Can(s, me, s.runs[me], Move(x)) then {x} else {})
            && (Can(s, me, s.runs[me], Move(x)) ==>
                  x in t.runs[me].known && (me, x) !in s.moves && t.owners == s.owners[x := to])
  {
    RunStep(s, me, Move(x));
    if Can(s, me, s.runs[me], Move(x)) { NotMovedYet(s, me, x); }
  }

  lemma MarkGoes(s: State, me: OfferId, to: Account, o: Offer, x: Site)
    requires Going(s, me, to, o) && x in o.sites
    ensures var t := StepRun(s, me, s.runs[me], MarkDone(x));
            && me in t.offers && Going(t, me, to, t.offers[me]) && Moved(s, t, me, to, {})
            && t.owners == s.owners && t.locked == s.locked && t.runs[me].known == s.runs[me].known
            && (Can(s, me, s.runs[me], MarkDone(x)) ==> NotDone(t.offers[me]) == NotDone(o) - {x})
            && (!Can(s, me, s.runs[me], MarkDone(x)) ==> t.offers[me] == o)
  {
    RunStep(s, me, MarkDone(x));
    ElemsAppend(o.done, [x]);
    assert Elems([x]) == {x};
  }

  /** What a closing step of the run leaves: the offer is final, or nothing changed. */
  lemma CloseGoes(s: State, me: OfferId, to: Account, o: Offer, op: RunOp)
    requires Going(s, me, to, o) && (op.Finish? || op.GiveUp?)
    ensures var t := StepRun(s, me, s.runs[me], op);
            && Inv(t) && me in t.runs && t.runs[me].to == to
            && Can(s, me, s.runs[me], op) == (op.Finish? ==> NotDone(o) == {})
            && (!Can(s, me, s.runs[me], op) ==> t == s)
            && (Can(s, me, s.runs[me], op) ==>
                  t.owners == s.owners && Moved(s, t, me, to, {})
                  && t.offers[me] == o.(state := if op.GiveUp? && o.done == [] then Ended else Accepted))
  {
    RunStep(s, me, op);
    if op.Finish? && NotDone(o) == {} { RecordOkAt(s, me); }
  }

  lemma RecordOkAt(s: State, me: OfferId)
    requires Inv(s) && me in s.offers
    ensures RecordOk(s.offers[me])
  {
  }

  predicate NotTheirs(s: State, to: Account, x: Site) {
    x !in s.owners || s.owners[x] != to
  }

  lemma NotTheirsStays(s: State, t: State, me: OfferId, to: Account, x: Site)
    requires Moved(s, t, me, to, {}) && NotTheirs(s, to, x) && x in s.offers[me].sites
    ensures NotTheirs(t, to, x)
  {
  }

  /** Nothing but the run's own claim and record changed. */
  ghost predicate Alone(s: State, t: State, me: OfferId) {
    && t.runs.Keys == s.runs.Keys && t.locked == s.locked
    && t.offers.Keys == s.offers.Keys
    && forall id | id in s.offers && id != me :: t.offers[id] == s.offers[id]
  }

  ghost predicate Still(s: State, t: State, me: OfferId) {
    Alone(s, t, me) && t.owners == s.owners
  }

  lemma RunIsAlone(s: State, me: OfferId, op: RunOp)
    requires me in s.runs && !op.Release?
    ensures var t := StepRun(s, me, s.runs[me], op); Alone(s, t, me) && (!op.Move? ==> Still(s, t, me))
  {
  }

  /** Every listed site can be moved: it exists, is the sender's, and is not locked. */
  ghost predicate Movable(s: State, from: Account, todo: seq<Site>) {
    forall x | x in todo :: x in s.owners && s.owners[x] == from && x !in s.locked
  }

  lemma NothingElse(s: State, me: OfferId)
    ensures Alone(s, s, me)
  {
  }

  lemma AloneTrans(s: State, t: State, u: State, me: OfferId)
    requires Alone(s, t, me) && Alone(t, u, me)
    ensures Alone(s, u, me)
  {
  }

  lemma MovableNext(s: State, t: State, me: OfferId, from: Account, to: Account, todo: seq<Site>, i: nat)
    requires i < |todo| && NoDup(todo) && Movable(s, from, todo[i..])
    requires Alone(s, t, me) && t.owners == s.owners[todo[i] := to]
    ensures Movable(t, from, todo[i + 1..])
  {
    assert todo[i..] == [todo[i]] + todo[i + 1..];
    assert todo[i] !in todo[i + 1..];
  }

  lemma Pick(todo: seq<Site>, i: nat)
    requires i < |todo| && NoDup(todo)
    ensures todo[i] in Elems(todo[i..])
    ensures Elems(todo[i + 1..]) == Elems(todo[i..]) - {todo[i]}
    ensures Elems(todo[..i + 1]) == Elems(todo[..i]) + {todo[i]}
  {
    assert todo[i..] == [todo[i]] + todo[i + 1..];
    assert todo[..i + 1] == todo[..i] + [todo[i]];
    ElemsAppend([todo[i]], todo[i + 1..]);
    ElemsAppend(todo[..i], [todo[i]]);
    assert todo[i] !in todo[i + 1..];
  }
}
