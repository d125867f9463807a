/** What the rest of the system may do between two calls of a claimed run, and
    what it cannot touch. */
module Interference {
  import opened Prelude
  import opened Offers
  import opened Protocol
  import opened Safety
  import opened Theorems

  /** Everything but this run's own steps, and a crash (which ends the run). */
  predicate Foreign(a: Action, me: OfferId) {
    !a.Crash? && !(a.OnRun? && a.id == me)
  }

  function Env(s: State, me: OfferId, others: seq<Action>): State {
    if others == [] then s
    else
      var (e, a) := (Env(s, me, others[..|others| - 1]), others[|others| - 1]);
      if Foreign(a, me) then Step(e, a) else e
  }

  /** Whatever actions of others there are, they are what happens. */
  lemma {:induction false} OthersHappen(s: State, me: OfferId, others: seq<Action>)
    requires forall a | a in others :: !a.Crash? && !(a.OnRun? && a.id == me)
    ensures Env(s, me, others) == Exec(s, others)
  {
    if others != [] {
      OthersHappen(s, me, others[..|others| - 1]);
      assert others[|others| - 1] in others;
    }
  }

  /** t comes from s by actions of the protocol. */
  ghost predicate Reaches(s: State, t: State) {
    exists trace :: t == Exec(s, trace)
  }

  lemma ReachesNow(s: State)
    ensures Reaches(s, s)
  {
    assert s == Exec(s, []);
  }

  lemma ReachesStep(s: State, t: State, a: Action)
    requires Reaches(s, t)
    ensures Reaches(s, Step(t, a))
  {
    var trace :| t == Exec(s, trace);
    ExecAppend(s, trace, [a]);
    assert Exec(t, [a]) == Step(Exec(t, []), a);
    assert Step(t, a) == Exec(s, trace + [a]);
  }

  lemma ReachesTrans(s: State, t: State, u: State)
    requires Reaches(s, t) && Reaches(t, u)
    ensures Reaches(s, u)
  {
    var a :| t == Exec(s, a);
    var b :| u == Exec(t, b);
    ExecAppend(s, a, b);
    assert u == Exec(s, a + b);
  }

  lemma {:induction false} EnvReaches(s: State, t: State, me: OfferId, others: seq<Action>)
    requires Reaches(s, t)
    ensures Reaches(s, Env(t, me, others))
  {
    if others != [] {
      EnvReaches(s, t, me, others[..|others| - 1]);
      if Foreign(others[|others| - 1], me) {
        ReachesStep(s, Env(t, me, others[..|others| - 1]), others[|others| - 1]);
      }
    }
  }

  lemma {:induction false} EnvInv(s: State, me: OfferId, others: seq<Action>)
    requires Inv(s)
    ensures Inv(Env(s, me, others))
  {
    if others != [] {
      EnvInv(s, me, others[..|others| - 1]);
      EveryStep(Env(s, me, others[..|others| - 1]), others[|others| - 1]);
    }
  }

  /** The claim is the run's alone. */
  lemma ForeignKeepsClaim(s: State, a: Action, me: OfferId)
    requires me in s.runs && Foreign(a, me)
    ensures me in Step(s, a).runs && Step(s, a).runs[me] == s.runs[me]
  {
    match a
    case OnDraft(d, op) => if d in s.drafts { assert StepDraft(s, d, s.drafts[d], op).runs == s.runs; }
    case OnRun(i, op) => if i in s.runs { OtherRun(s, i, op, me); }
    case _ =>
  }

  lemma OtherRun(s: State, i: OfferId, op: RunOp, me: OfferId)
    requires i in s.runs && i != me
    ensures var t := StepRun(s, i, s.runs[i], op);
            && (me in s.runs ==> me in t.runs && t.runs[me] == s.runs[me])
            && (me in s.offers <==> me in t.offers) && (me in s.offers ==> t.offers[me] == s.offers[me])
            && (me in s.starts ==> me in t.starts && t.starts[me] == s.starts[me])
            && (forall x :: (me, x) in t.moves <==> (me, x) in s.moves)
  {
  }

  /** Nobody else's step touches the offer this run is moving: not its record,
      not who has its sites (a site can only go away), not what it has moved. */
  ghost predicate Untouched(s: State, t: State, me: OfferId)
    requires me in s.offers
  {
    && me in t.offers && t.offers[me] == s.offers[me]
    && (me in s.starts ==> me in t.starts && t.starts[me] == s.starts[me])
    && (forall x | x in s.offers[me].sites :: x in t.owners ==> x in s.owners && t.owners[x] == s.owners[x])
    && (forall x :: (me, x) in t.moves <==> (me, x) in s.moves)
  }

  lemma ForeignKeepsOffer(s: State, a: Action, me: OfferId)
    requires Inv(s) && me in s.offers && s.offers[me].state.Accepting? && me in s.runs && Foreign(a, me)
    ensures Untouched(s, Step(s, a), me)
  {
    hide Inv;
    match a
    case OnSite(x, op) => SiteLeaves(s, x, op, me);
    case OnDraft(d, op) => if d in s.drafts { DraftUntouched(s, d, op, me); }
    case Edit(i, c) => EditUntouched(s, i, c, me);
    case OnRun(i, op) => if i in s.runs { RunUntouched(s, i, op, me); }
    case _ =>
  }

  lemma SiteLeaves(s: State, x: Site, op: SiteOp, me: OfferId)
    requires Inv(s) && me in s.offers
    ensures Untouched(s, StepSite(s, x, op), me)
  {
    assert Choosable(s.born, s.owners, s.offers[me].sites);
  }

  lemma DraftUntouched(s: State, d: nat, op: DraftOp, me: OfferId)
    requires Inv(s) && d in s.drafts && me in s.offers && s.offers[me].state.Accepting?
    ensures Untouched(s, StepDraft(s, d, s.drafts[d], op), me)
  {
    DraftLeaves(s, d, op, me);
    DraftLeavesRest(s, d, op);
  }

  lemma EditUntouched(s: State, i: OfferId, c: Change, me: OfferId)
    requires me in s.offers && s.offers[me].state.Accepting?
    ensures Untouched(s, StepEdit(s, i, c), me)
  {
    EditLeaves(s, i, c, me);
    EditLeavesRest(s, i, c);
  }

  lemma RunUntouched(s: State, i: OfferId, op: RunOp, me: OfferId)
    requires Inv(s) && i in s.runs && i != me && me in s.offers && s.offers[me].state.Accepting?
    ensures Untouched(s, StepRun(s, i, s.runs[i], op), me)
  {
    OtherRun(s, i, op, me);
    OtherMove(s, i, op, me);
  }

  lemma DraftLeavesRest(s: State, d: nat, op: DraftOp)
    requires d in s.drafts
    ensures var t := StepDraft(s, d, s.drafts[d], op);
            t.owners == s.owners && t.starts == s.starts && t.moves == s.moves
  {
  }

  lemma EditLeavesRest(s: State, i: OfferId, c: Change)
    ensures var t := StepEdit(s, i, c); t.owners == s.owners && t.starts == s.starts && t.moves == s.moves
  {
  }

  lemma OtherMove(s: State, i: OfferId, op: RunOp, me: OfferId)
    requires Inv(s) && i in s.runs && i != me && me in s.offers && s.offers[me].state.Accepting?
    ensures var t := StepRun(s, i, s.runs[i], op);
            forall x | x in s.offers[me].sites :: x in t.owners ==> x in s.owners && t.owners[x] == s.owners[x]
  {
    assert RunOk(i, s.runs[i], s.offers, s.nextId, s.starts, s.moves);
  }

  lemma {:induction false} EnvKeepsClaim(s: State, me: OfferId, others: seq<Action>)
    requires me in s.runs
    ensures me in Env(s, me, others).runs && Env(s, me, others).runs[me] == s.runs[me]
  {
    if others != [] {
      EnvKeepsClaim(s, me, others[..|others| - 1]);
      if Foreign(others[|others| - 1], me) {
        ForeignKeepsClaim(Env(s, me, others[..|others| - 1]), others[|others| - 1], me);
      }
    }
  }

  lemma {:induction false} EnvKeepsOffer(s: State, me: OfferId, others: seq<Action>)
    requires Inv(s) && me in s.offers && s.offers[me].state.Accepting? && me in s.runs
    ensures Untouched(s, Env(s, me, others), me)
  {
    if others != [] {
      var front := others[..|others| - 1];
      EnvKeepsOffer(s, me, front);
      EnvInv(s, me, front);
      EnvKeepsClaim(s, me, front);
      if Foreign(others[|others| - 1], me) {
        ForeignKeepsOffer(Env(s, me, front), others[|others| - 1], me);
      }
    }
  }

  /** Nobody else starts an acceptance of a claimed offer. */
  lemma ForeignStartsNone(s: State, a: Action, me: OfferId)
    requires Inv(s) && me in s.runs && Foreign(a, me)
    requires var t := Step(s, a); me in t.offers && t.offers[me].state.Accepting?
    ensures me in s.offers && s.offers[me].state.Accepting? && Step(s, a).offers[me] == s.offers[me]
  {
    hide Inv, StepSite, StepEdit, StepDraft, StepRun, GoodPlan;
    match a
    case OnSite(x, op) => SiteLeavesOffers(s, x, op);
    case OnDraft(d, op) => if d in s.drafts { DraftStartsNone(s, d, op, me); }
    case Edit(i, c) => if GoodChange(s, c) { EditStartsNone(s, i, c, me); }
    case OnRun(i, op) => if i in s.runs { OtherRun(s, i, op, me); }
    case _ =>
  }

  lemma SiteLeavesOffers(s: State, x: Site, op: SiteOp)
    ensures StepSite(s, x, op).offers == s.offers
  {
  }

  lemma EditStartsNone(s: State, i: OfferId, c: Change, me: OfferId)
    requires me in StepEdit(s, i, c).offers && StepEdit(s, i, c).offers[me].state.Accepting?
    ensures me in s.offers && StepEdit(s, i, c).offers[me] == s.offers[me]
  {
  }

  lemma DraftStartsNone(s: State, d: nat, op: DraftOp, me: OfferId)
    requires Inv(s) && d in s.drafts
    requires var t := StepDraft(s, d, s.drafts[d], op); me in t.offers && t.offers[me].state.Accepting?
    ensures me in s.offers && StepDraft(s, d, s.drafts[d], op).offers[me] == s.offers[me]
  {
    PutsBackNoAcceptance(s, d);
    DraftWrites(s, d, s.drafts[d], op, me);
  }

  lemma PutsBackNoAcceptance(s: State, d: nat)
    requires Inv(s) && d in s.drafts
    ensures forall id | id in s.drafts[d].done ::
              s.drafts[d].done[id].Open? || s.drafts[d].done[id].Paused?
  {
    assert DraftsOk(s.drafts, s.offers, s.nextId);
    forall id | id in s.drafts[d].done ensures s.drafts[d].done[id].Open? || s.drafts[d].done[id].Paused? {
      assert id < s.nextId;
    }
  }

  lemma DraftWrites(s: State, d: nat, p: Draft, op: DraftOp, me: OfferId)
    requires var t := StepDraft(s, d, p, op); me in t.offers && t.offers[me].state.Accepting?
    requires forall id | id in p.done :: !p.done[id].Accepting?
    ensures me in s.offers && StepDraft(s, d, p, op).offers[me] == s.offers[me]
  {
  }

  lemma ForeignMovesNone(s: State, a: Action, me: OfferId)
    requires Foreign(a, me)
    ensures forall x :: (me, x) in Step(s, a).moves <==> (me, x) in s.moves
  {
    match a
    case OnDraft(d, op) => if d in s.drafts { DraftLeavesRest(s, d, op); }
    case Edit(i, c) => EditLeavesRest(s, i, c);
    case OnRun(i, op) => if i in s.runs { assert StepRun(s, i, s.runs[i], op) == Step(s, a); }
    case _ =>
  }

  /** Whatever everybody else does, a claimed offer is accepting only if it was, and
      none of its sites is moved for it. */
  lemma {:induction false} EnvStartsNone(s: State, me: OfferId, others: seq<Action>)
    requires Inv(s) && me in s.runs
    ensures var t := Env(s, me, others);
            && (forall x :: (me, x) in t.moves <==> (me, x) in s.moves)
            && (me in t.offers && t.offers[me].state.Accepting? ==> me in s.offers && t.offers[me] == s.offers[me])
  {
    hide Inv, Step;
    if others != [] {
      var front, a := others[..|others| - 1], others[|others| - 1];
      EnvStartsNone(s, me, front);
      EnvInv(s, me, front);
      EnvKeepsClaim(s, me, front);
      var e := Env(s, me, front);
      if Foreign(a, me) {
        ForeignMovesNone(e, a, me);
        if me in Step(e, a).offers && Step(e, a).offers[me].state.Accepting? { ForeignStartsNone(e, a, me); }
      }
    }
  }
}
