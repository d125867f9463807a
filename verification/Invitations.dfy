/** Accepting an invitation to administer a site (handleInviteAccept): any
    number of accepts of one invitation, their undo, and everybody else. */
module Invitations {
  import opened Prelude

  const MAX_ADMINS := 10

  datatype InviteState = Open | Accepted | Declined | Expired | Cancelled

  /** Where an accept is, from the state change that decides the race on. close
      says that the invitation is withdrawn after the undo. */
  datatype Phase = Asking | Won | Linked | Unmarking(close: bool) | Reopening(close: bool) | Closing | Done | Over

  datatype Run = Run(account: Account, phase: Phase)

  datatype State = State(
    invite: InviteState,
    from: Account,
    owner: Option<Account>,    // None: the site is gone
    admins: seq<Account>,
    locked: bool,
    marks: set<Account>,       // share markers for the site
    runs: map<nat, Run>,
    wrote: set<nat>,           // history: the runs whose SetAdmins succeeded
    lost: bool                 // history: some undo could not write
  )

  datatype RunStep =
    | Ask(account: Account)
    | Win          // open -> accepted
    | LinkShare
    | Write        // SetAdmins
    | Fail         // LinkShare or SetAdmins failed
    | Unmark       // undo: the marker goes if the admins can be read and do not list the account
    | LeaveMark    // undo: the admins could not be read, or the marker not dropped
    | Reopen       // undo: accepted -> open
    | LoseReopen
    | Close        // open -> cancelled
    | LeaveOpen

  datatype Action =
    | OnRun(r: nat, step: RunStep)
    | End(state: InviteState)       // cancel, decline, lapse: of an open invitation
    | Transfer(to: Account)
    | Drop
    | SetList(admins: seq<Account>)
    | SetLock(on: bool)
    | Mark(account: Account, on: bool)

  /** The list an accept writes: the account once, at the end. */
  function Joined(admins: seq<Account>, a: Account): seq<Account> {
    Without(admins, a) + [a]
  }

  /** The core's answer to SetAdmins, under the site lock. */
  predicate Writes(s: State, a: Account) {
    s.owner == Some(s.from) && !s.locked && |Joined(s.admins, a)| <= MAX_ADMINS
  }

  /** What the undo reads of the admins: of a site that is gone, an error. */
  predicate KeepsMark(s: State, a: Account) {
    s.owner.None? || a in s.admins
  }

  function To(s: State, r: nat, phase: Phase): State
    requires r in s.runs
  {
    s.(runs := s.runs[r := s.runs[r].(phase := phase)])
  }

  function After(close: bool): Phase {
    if close then Closing else Over
  }

  function StepRun(s: State, r: nat, step: RunStep): State {
    if step.Ask? then (if r in s.runs then s else s.(runs := s.runs[r := Run(step.account, Asking)]))
    else if r !in s.runs then s
    else
      var me := s.runs[r];
      match step
      case Win =>
        if !me.phase.Asking? then s
        else if s.invite.Open? then To(s, r, Won).(invite := Accepted)
        else To(s, r, Over)
      case LinkShare => if me.phase.Won? then To(s, r, Linked).(marks := s.marks + {me.account}) else s
      case Write =>
        if !me.phase.Linked? then s
        else if Writes(s, me.account) then
          To(s, r, Done).(admins := Joined(s.admins, me.account), wrote := s.wrote + {r})
        else To(s, r, Unmarking(s.owner != Some(s.from)))
      case Fail =>
        if me.phase.Asking? then To(s, r, Over)
        else if me.phase.Won? || me.phase.Linked? then To(s, r, Unmarking(false)) else s
      case Unmark =>
        if !me.phase.Unmarking? then s
        else To(s, r, Reopening(me.phase.close)).(marks :=
          if KeepsMark(s, me.account) then s.marks else s.marks - {me.account})
      case LeaveMark => if me.phase.Unmarking? then To(s, r, Reopening(me.phase.close)).(lost := true) else s
      case Reopen =>
        if !me.phase.Reopening? then s
        else To(s, r, After(me.phase.close)).(invite := if s.invite.Accepted? then Open else s.invite)
      case LoseReopen => if me.phase.Reopening? then To(s, r, After(me.phase.close)).(lost := true) else s
      case Close => if me.phase.Closing? then
        To(s, r, Over).(invite := if s.invite.Open? then Cancelled else s.invite) else s
      case LeaveOpen => if me.phase.Closing? then To(s, r, Over) else s
      case _ => s
  }

  function Step(s: State, a: Action): State {
    match a
    case OnRun(r, step) => StepRun(s, r, step)
    case End(state) => if s.invite.Open? && !state.Open? && !state.Accepted? then s.(invite := state) else s
    case Transfer(to) => if s.owner.Some? && !s.locked then s.(owner := Some(to), admins := []) else s
    case Drop => s.(owner := None, admins := [])
    case SetList(admins) => s.(admins := admins)
    case SetLock(on) => s.(locked := on)
    case Mark(account, on) => s.(marks := if on then s.marks + {account} else s.marks - {account})
  }

  function Exec(s: State, trace: seq<Action>): State {
    if trace == [] then s else Step(Exec(s, trace[..|trace| - 1]), trace[|trace| - 1])
  }

  // ---- what every step keeps ----

  predicate Holding(p: Phase) {
    p.Won? || p.Linked? || p.Unmarking? || p.Reopening?
  }

  /** The runs that hold the invitation, or got it. */
  function Holders(runs: map<nat, Run>): set<nat> {
    set r | r in runs && (Holding(runs[r].phase) || runs[r].phase.Done?)
  }

  function Winners(runs: map<nat, Run>): set<nat> {
    set r | r in runs && runs[r].phase.Done?
  }

  /** At most one run holds the invitation or got it; while one does, and only
      then unless an undo was lost, it is accepted. */
  ghost predicate Inv(s: State) {
    && s.wrote == Winners(s.runs)
    && (forall q, r | q in Holders(s.runs) && r in Holders(s.runs) :: q == r)
    && (Holders(s.runs) != {} ==> s.invite.Accepted?)
    && (s.invite.Accepted? && !s.lost ==> Holders(s.runs) != {})
  }

  predicate Fresh(s: State) {
    s.invite.Open? && s.runs == map[] && s.wrote == {} && !s.lost
  }

  lemma PhaseOf(runs: map<nat, Run>, r: nat, run: Run)
    ensures Holders(runs[r := run]) == Holders(runs) - {r} + (if Holding(run.phase) || run.phase.Done? then {r} else {})
    ensures Winners(runs[r := run]) == Winners(runs) - {r} + (if run.phase.Done? then {r} else {})
  {
  }

  lemma RunStepKeeps(s: State, r: nat, step: RunStep)
    requires Inv(s)
    ensures Inv(StepRun(s, r, step))
  {
    hide Holders, Winners;
    var t := StepRun(s, r, step);
    if r in t.runs {
      assert t.runs == s.runs[r := t.runs[r]] || t == s;
      PhaseOf(s.runs, r, t.runs[r]);
      Belongs(s.runs, r);
    }
  }

  lemma Belongs(runs: map<nat, Run>, r: nat)
    ensures r in Holders(runs) <==> r in runs && (Holding(runs[r].phase) || runs[r].phase.Done?)
    ensures r in Winners(runs) <==> r in runs && runs[r].phase.Done?
    ensures Winners(runs) <= Holders(runs)
  {
  }

  lemma EveryStep(s: State, a: Action)
    requires Inv(s)
    ensures Inv(Step(s, a))
  {
    if a.OnRun? { RunStepKeeps(s, a.r, a.step); }
  }

  lemma {:induction false} EveryRun(s: State, trace: seq<Action>)
    requires Inv(s)
    ensures Inv(Exec(s, trace))
  {
    if trace != [] {
      EveryRun(s, trace[..|trace| - 1]);
      EveryStep(Exec(s, trace[..|trace| - 1]), trace[|trace| - 1]);
    }
  }

  /** Of racing accepts only one proceeds: at any time at most one run is past
      the deciding change, and once one wrote itself in, none ever is. */
  lemma OnlyOneProceeds(s: State, trace: seq<Action>, q: nat, r: nat)
    requires Fresh(s)
    requires var t := Exec(s, trace); q in Holders(t.runs) && r in Holders(t.runs)
    ensures q == r
  {
    EveryRun(s, trace);
  }

  /** With no accept under way and no undo lost, the invitation is accepted
      exactly if some accept wrote the admin, and then exactly one did. */
  lemma AcceptedExactlyIfWritten(s: State, trace: seq<Action>)
    requires Fresh(s)
    requires var t := Exec(s, trace); !t.lost && forall r | r in t.runs :: !Holding(t.runs[r].phase)
    ensures var t := Exec(s, trace);
            && (t.invite.Accepted? <==> t.wrote != {})
            && |t.wrote| <= 1
  {
    EveryRun(s, trace);
    var t := Exec(s, trace);
    if r :| r in t.wrote {
      Belongs(t.runs, r);
      assert t.wrote == {r};
    }
  }

  /** A run changes the admins only by its one write, made while the inviter owns
      the site and it is not locked: everybody else stays listed, and the account
      is. */
  lemma OnlyTheWriteLists(s: State, r: nat, step: RunStep)
    requires Inv(s) && r in s.runs
    ensures var t := StepRun(s, r, step);
            t.admins != s.admins || t.wrote != s.wrote ==>
              && s.wrote == {} && t.wrote == {r} && s.invite.Accepted?
              && s.owner == Some(s.from) && !s.locked && |t.admins| <= MAX_ADMINS
              && forall b :: b in t.admins <==> b in s.admins || b == s.runs[r].account
  {
    JoinedIs(s.admins, s.runs[r].account);
    RunStepKeeps(s, r, step);
    Belongs(s.runs, r);
    var t := StepRun(s, r, step);
    if t.wrote != s.wrote {
      Belongs(t.runs, r);
      forall q | q in s.wrote ensures false { Belongs(s.runs, q); }
    }
  }

  /** Over any run: one that got nothing in the end changed the admins at none of
      its steps. */
  lemma {:induction false} RefusedListsNobody(s: State, trace: seq<Action>, r: nat, k: nat)
    requires Inv(s) && k < |trace| && trace[k].OnRun? && trace[k].r == r
    requires r !in Exec(s, trace).wrote
    ensures Exec(s, trace[..k + 1]).admins == Exec(s, trace[..k]).admins
    decreases |trace|
  {
    var front, a := trace[..|trace| - 1], trace[|trace| - 1];
    var mid := Exec(s, front);
    EveryRun(s, front);
    GotIt(mid, a, r);
    if k < |front| {
      assert front[..k + 1] == trace[..k + 1] && front[..k] == trace[..k];
      RefusedListsNobody(s, front, r, k);
    } else {
      assert trace[..k + 1] == trace && trace[..k] == front;
      if r in mid.runs { OnlyTheWriteLists(mid, r, a.step); }
    }
  }

  /** Who got the share keeps having got it. */
  lemma GotIt(s: State, a: Action, r: nat)
    ensures s.wrote <= Step(s, a).wrote
  {
  }

  /** At the undo's first step, a marker is left to an account that is not listed
      exactly if the site is gone, or the step failed (Cleaned states it of every
      accept that is undone). */
  lemma MarkLeftExactlyIf(s: State, r: nat, step: RunStep)
    requires r in s.runs && s.runs[r].phase.Unmarking? && (step.Unmark? || step.LeaveMark?)
    requires s.runs[r].account in s.marks && s.runs[r].account !in s.admins
    ensures s.runs[r].account in StepRun(s, r, step).marks <==> s.owner.None? || step.LeaveMark?
  {
  }

  /** Account 1 invites account 2; the site is deleted between the marker and the
      write. */
  const GONE: seq<Action> := [
    OnRun(0, Ask(2)), OnRun(0, Win), OnRun(0, LinkShare), Drop, OnRun(0, Write),
    OnRun(0, Unmark), OnRun(0, Reopen), OnRun(0, Close)
  ]

  function Was(invite: InviteState, owner: Option<Account>, marks: set<Account>, phase: Phase): State {
    State(invite, 1, owner, [], false, marks, map[0 := Run(2, phase)], {}, false)
  }

  const START := State(Open, 1, Some(1), [], false, {}, map[], {}, false)

  /** The state before each of these actions. */
  function GoneAt(k: nat): State
    requires k <= 8
  {
    match k
    case 0 => START
    case 1 => Was(Open, Some(1), {}, Asking)
    case 2 => Was(Accepted, Some(1), {}, Won)
    case 3 => Was(Accepted, Some(1), {2}, Linked)
    case 4 => Was(Accepted, None, {2}, Linked)
    case 5 => Was(Accepted, None, {2}, Unmarking(true))
    case 6 => Was(Accepted, None, {2}, Reopening(true))
    case 7 => Was(Open, None, {2}, Closing)
    case _ => Was(Cancelled, None, {2}, Over)
  }

  lemma Goes(k: nat)
    requires k < 8
    ensures Step(GoneAt(k), GONE[k]) == GoneAt(k + 1)
  {
    assert GoneAt(1).runs == map[][0 := Run(2, Asking)];
    if 1 <= k && k != 3 { assert GoneAt(k).runs[0 := GoneAt(k + 1).runs[0]] == GoneAt(k + 1).runs; }
  }

  lemma {:induction false} Gets(k: nat)
    requires k <= 8
    ensures Exec(START, GONE[..k]) == GoneAt(k)
  {
    if k > 0 {
      Gets(k - 1);
      Goes(k - 1);
      assert GONE[..k][..k - 1] == GONE[..k - 1];
    }
  }

  /** No write failed, the invitation is withdrawn, and the marker is left to an
      account that no site lists. */
  lemma StrayMark()
    ensures Fresh(START) && Exec(START, GONE) == Was(Cancelled, None, {2}, Over)
  {
    Gets(8);
    assert GONE[..8] == GONE;
  }

  lemma JoinedIs(list: seq<Account>, a: Account)
    ensures forall b :: b in Joined(list, a) <==> b in list || b == a
    ensures forall i | 0 <= i < |Joined(list, a)| - 1 :: Joined(list, a)[i] != a
  {
    WithoutIs(list, a);
    forall i | 0 <= i < |Without(list, a)| ensures Without(list, a)[i] != a {
      assert Without(list, a)[i] in Without(list, a);
    }
  }

  // ---- one accept, as it runs ----

  function Env(s: State, r: nat, others: seq<Action>): State {
    if others == [] then s
    else
      var (e, a) := (Env(s, r, others[..|others| - 1]), others[|others| - 1]);
      if a.OnRun? && a.r == r then e else Step(e, a)
  }

  /** Whatever actions of others there are, they are what happens. */
  lemma {:induction false} OthersHappen(s: State, r: nat, others: seq<Action>)
    requires forall a | a in others :: !(a.OnRun? && a.r == r)
    ensures Env(s, r, others) == Exec(s, others)
  {
    if others != [] {
      OthersHappen(s, r, others[..|others| - 1]);
      assert others[|others| - 1] in others;
    }
  }

  /** Nobody else moves this run on. */
  lemma OtherRun(s: State, q: nat, step: RunStep, r: nat)
    requires q != r && r in s.runs
    ensures r in StepRun(s, q, step).runs && StepRun(s, q, step).runs[r] == s.runs[r]
  {
  }

  lemma {:induction false} EnvKeeps(s: State, r: nat, others: seq<Action>)
    requires Inv(s) && r in s.runs
    ensures Inv(Env(s, r, others))
    ensures r in Env(s, r, others).runs && Env(s, r, others).runs[r] == s.runs[r]
  {
    hide Inv;
    if others != [] {
      EnvKeeps(s, r, others[..|others| - 1]);
      var e, a := Env(s, r, others[..|others| - 1]), others[|others| - 1];
      EveryStep(e, a);
      if a.OnRun? && a.r != r { OtherRun(e, a.r, a.step, r); }
    }
  }

  datatype Reply = Joins | Unavailable | NotOpen | Lapsed | NoPlan | GoneOrSold | Locked | TooMany

  /** The calls of an accept; Ends is endInvite, Quits no call but the end of a run
    that holds nothing. */
  datatype Op = Reads | Ends(state: InviteState) | Quits | Wins | Links | Lists | Unmarks | Reopens | Closes

  /** What a call does to the state it finds. */
  function Does(s: State, r: nat, op: Op, works: bool): State {
    match op
    case Reads => s
    case Ends(state) => if works then Step(s, End(state)) else s
    case Quits => StepRun(s, r, Fail)
    case Wins => StepRun(s, r, if works then Win else Fail)
    case Links => StepRun(s, r, if works then LinkShare else Fail)
    case Lists => StepRun(s, r, if works then Write else Fail)
    case Unmarks => StepRun(s, r, if works then Unmark else LeaveMark)
    case Reopens => StepRun(s, r, if works then Reopen else LoseReopen)
    case Closes => StepRun(s, r, if works then Close else LeaveOpen)
  }

  lemma DoesKeeps(s: State, r: nat, op: Op, works: bool)
    requires Inv(s) && r in s.runs
    ensures Inv(Does(s, r, op, works)) && r in Does(s, r, op, works).runs
    ensures Does(s, r, op, works).runs[r].account == s.runs[r].account
  {
    match op
    case Reads =>
    case Ends(state) => EveryStep(s, End(state));
    case Quits => RunStepKeeps(s, r, Fail);
    case Wins => RunStepKeeps(s, r, if works then Win else Fail);
    case Links => RunStepKeeps(s, r, if works then LinkShare else Fail);
    case Lists => RunStepKeeps(s, r, if works then Write else Fail);
    case Unmarks => RunStepKeeps(s, r, if works then Unmark else LeaveMark);
    case Reopens => RunStepKeeps(s, r, if works then Reopen else LoseReopen);
    case Closes => RunStepKeeps(s, r, if works then Close else LeaveOpen);
  }

  class Server {
    var st: State
    var log: seq<Op>                    // every call so far, in order
    const works: nat -> bool            // whether the n-th call works
    const others: nat -> seq<Action>    // what everybody else does just before it

    constructor (st: State, works: nat -> bool, others: nat -> seq<Action>)
      ensures this.st == st && log == [] && this.works == works && this.others == others
    {
      this.st, this.log, this.works, this.others := st, [], works, others;
    }

    /** The state after these calls of run r, the first of them the n-th. */
    function Replay(r: nat, n: nat, ops: seq<Op>, s: State): State {
      if ops == [] then s
      else
        var k := n + |ops| - 1;
        Does(Env(Replay(r, n, ops[..|ops| - 1], s), r, others(k)), r, ops[|ops| - 1], works(k))
    }

    /** From one log and its state to another: nothing happened but the calls in
        between, and everybody else. */
    ghost predicate Leads(r: nat, g: seq<Op>, s: State, h: seq<Op>, t: State) {
      g <= h && t == Replay(r, |g|, h[|g|..], s)
    }

    lemma {:induction false} ReplayOn(r: nat, n: nat, a: seq<Op>, b: seq<Op>, s: State)
      ensures Replay(r, n, a + b, s) == Replay(r, n + |a|, b, Replay(r, n, a, s))
    {
      if b == [] {
        assert a + b == a;
      } else {
        ReplayOn(r, n, a, b[..|b| - 1], s);
        assert (a + b)[..|a + b| - 1] == a + b[..|b| - 1];
      }
    }

    lemma Onward(r: nat, g0: seq<Op>, s0: State, g1: seq<Op>, s1: State, g2: seq<Op>, s2: State)
      requires Leads(r, g0, s0, g1, s1) && Leads(r, g1, s1, g2, s2)
      ensures Leads(r, g0, s0, g2, s2)
    {
      ReplayOn(r, |g0|, g1[|g0|..], g2[|g1|..], s0);
      assert g2[|g0|..] == g1[|g0|..] + g2[|g1|..];
    }

    /** A call of the undo from some call on did not work. */
    ghost predicate Lost(g: seq<Op>, from: nat) {
      exists n :: from <= n < |g| && (g[n].Unmarks? || g[n].Reopens?) && !works(n)
    }

    /** The k-th call and the next are an undo's. Whatever everybody else did, the
        first leaves a marker to the account, not listed, exactly if it finds one
        and the site is gone or the call fails; and the second, if it works, leaves
        the invitation open. */
    ghost predicate Cleaned(r: nat, account: Account, from: nat, s: State, ops: seq<Op>, k: nat) {
      && from <= k < |ops| - 1 && ops[k] == Unmarks && ops[k + 1] == Reopens
      && LeftExactlyIf(Env(Replay(r, from, ops[from..k], s), r, others(k)), Replay(r, from, ops[from..k + 1], s),
                       account, works(k))
      && (works(k + 1) ==> Replay(r, from, ops[from..k + 2], s).invite.Open?)
    }

    /** And the undo is followed by the end of the invitation exactly if the write
        before it was made, and found the site gone or not the inviter's. */
    ghost predicate Withdrawn(r: nat, from: nat, s: State, ops: seq<Op>, k: nat) {
      && from < k < |ops| && (k + 2 < |ops| ==> ops[k + 2] == Closes)
      && (k + 2 < |ops| <==>
            && ops[k - 1] == Lists && works(k - 1)
            && var found := Env(Replay(r, from, ops[from..k - 1], s), r, others(k - 1));
               found.owner.None? || found.owner.value != found.from)
    }

    lemma WithdrawnFrom(r: nat, g: seq<Op>, s: State, h: seq<Op>, u: State, ops: seq<Op>, k: nat)
      requires Leads(r, g, s, h, u) && h <= ops && Withdrawn(r, |h|, u, ops, k)
      ensures Withdrawn(r, |g|, s, ops, k)
    {
      hide Replay, Does;
      assert ops[|g|..k - 1] == h[|g|..] + ops[|h|..k - 1];
      ReplayOn(r, |g|, h[|g|..], ops[|h|..k - 1], s);
    }

    /** At the call after the deciding change. */
    lemma WithdrawnHere(r: nat, g: seq<Op>, s: State, h: seq<Op>, ops: seq<Op>, close: bool)
      requires h == g + [Links] || h == g + [Links, Lists]
      requires close <==>
                 && h == g + [Links, Lists] && works(|g| + 1)
                 && var found := Env(Replay(r, |g|, [Links], s), r, others(|g| + 1));
                    found.owner.None? || found.owner.value != found.from
      requires ops == h + [Unmarks, Reopens] + (if close then [Closes] else [])
      ensures Withdrawn(r, |g|, s, ops, |h|)
    {
      hide Replay, Env;
      if h == g + [Links, Lists] { assert ops[|g|..|h| - 1] == [Links]; }
    }

    /** The same, told from an earlier call on. */
    lemma CleanedFrom(r: nat, account: Account, g: seq<Op>, s: State, h: seq<Op>, u: State, ops: seq<Op>, k: nat)
      requires Leads(r, g, s, h, u) && h <= ops && Cleaned(r, account, |h|, u, ops, k)
      ensures Cleaned(r, account, |g|, s, ops, k)
    {
      hide Replay, Does, LeftExactlyIf;
      assert ops[|g|..k] == h[|g|..] + ops[|h|..k];
      ReplayOn(r, |g|, h[|g|..], ops[|h|..k], s);
      assert ops[|g|..k + 1] == h[|g|..] + ops[|h|..k + 1];
      assert ops[|g|..k + 2] == h[|g|..] + ops[|h|..k + 2];
      ReplayOn(r, |g|, h[|g|..], ops[|h|..k + 1], s);
      ReplayOn(r, |g|, h[|g|..], ops[|h|..k + 2], s);
    }

    /** Some call after the m-th is the first of such an undo. */
    ghost predicate CleanUp(r: nat, account: Account, from: nat, s: State, ops: seq<Op>, m: nat) {
      exists k :: m < k && Cleaned(r, account, from, s, ops, k) && Withdrawn(r, from, s, ops, k)
    }

    lemma CleansUp(r: nat, account: Account, from: nat, s: State, ops: seq<Op>, m: nat, k: nat)
      requires m < k && Cleaned(r, account, from, s, ops, k) && Withdrawn(r, from, s, ops, k)
      ensures CleanUp(r, account, from, s, ops, m)
    {
    }

    lemma CleanUpFrom(r: nat, account: Account, g: seq<Op>, s: State, h: seq<Op>, u: State, ops: seq<Op>, m: nat)
      requires Leads(r, g, s, h, u) && h <= ops && CleanUp(r, account, |h|, u, ops, m)
      ensures CleanUp(r, account, |g|, s, ops, m)
    {
      hide Leads, Cleaned, Withdrawn;
      var k :| m < k && Cleaned(r, account, |h|, u, ops, k) && Withdrawn(r, |h|, u, ops, k);
      CleanedFrom(r, account, g, s, h, u, ops, k);
      WithdrawnFrom(r, g, s, h, u, ops, k);
    }

    lemma CleanedHere(r: nat, account: Account, g0: seq<Op>, s0: State, g: seq<Op>, s: State, h: seq<Op>, t: State,
                      ops: seq<Op>)
      requires Leads(r, g0, s0, g, s) && Leads(r, g0, s0, h, t)
      requires g == g0 + [Unmarks] && h == g + [Reopens] && h <= ops
      requires LeftExactlyIf(Env(s0, r, others(|g0|)), s, account, works(|g0|))
      requires works(|g0| + 1) ==> t.invite.Open?
      ensures Cleaned(r, account, |g0|, s0, ops, |g0|)
    {
      hide Env, Does, LeftExactlyIf;
      assert ops[|g0|..|g0|] == [];
      assert Replay(r, |g0|, ops[|g0|..|g0|], s0) == s0;
      hide Replay;
      assert ops[|g0|..|g0| + 1] == g[|g0|..] && ops[|g0|..|g0| + 2] == h[|g0|..];
    }

    lemma LostFrom(g: seq<Op>, from: nat, later: nat)
      requires from <= later
      ensures Lost(g, later) ==> Lost(g, from)
    {
    }

    lemma NotLost(g: seq<Op>, from: nat, n: nat)
      requires from <= n && n + 1 < |g| && g[n] == Unmarks && g[n + 1] == Reopens && !Lost(g, from)
      ensures works(n) && works(n + 1)
    {
    }

    ghost predicate Alone() {
      forall k :: others(k) == []
    }

    ghost predicate At(r: nat, account: Account, phase: Phase)
      reads this
    {
      Inv(st) && r in st.runs && st.runs[r] == Run(account, phase)
    }

    method Call(r: nat, op: Op) returns (ok: bool)
      requires Inv(st) && r in st.runs
      modifies this
      ensures Inv(st) && r in st.runs
      ensures log == old(log) + [op] && ok == works(|old(log)|)
      ensures var e := Env(old(st), r, others(|old(log)|));
              r in e.runs && e.runs[r] == old(st).runs[r] && st == Does(e, r, op, ok) && (Alone() ==> e == old(st))
      ensures Leads(r, old(log), old(st), log, st)
    {
      var n := |log|;
      EnvKeeps(st, r, others(n));
      DoesKeeps(Env(st, r, others(n)), r, op, works(n));
      ok := works(n);
      st := Does(Env(st, r, others(n)), r, op, ok);
      log := log + [op];
      assert log[n..] == [op] && [op][..0] == [];
    }

    /** undo, and what is closed after it: exactly these calls, each doing what it
        does unless it fails, whatever everybody else does. Alone, it leaves the
        admins, takes the marker unless the account is listed or the site is gone,
        and opens the invitation again or withdraws it. */
    method Undo(r: nat, account: Account, close: bool)
      requires At(r, account, Unmarking(close))
      modifies this
      ensures At(r, account, Over)
      ensures log == old(log) + [Unmarks, Reopens] + (if close then [Closes] else [])
      ensures Leads(r, old(log), old(st), log, st)
      ensures Cleaned(r, account, |old(log)|, old(st), log, |old(log)|)
      ensures Alone() ==>
                UndoLeft(old(st), st, account, close, works(|old(log)|), works(|old(log)| + 1), works(|old(log)| + 2))
    {
      hide Inv, Does, Replay, Env, KeepsMark, LeftExactlyIf, Leads, Cleaned, UndoLeft;
      ghost var n, s0 := |log|, st;
      UndoOf(st, r, account, close, works(n), works(n + 1), works(n + 2));
      UndoPhases(st, r, account, close, works(n), others(n));
      var ok := Call(r, Unmarks);
      ghost var g, s := log, st;
      UndoPhases(st, r, account, close, works(n + 1), others(n + 1));
      ok := Call(r, Reopens);
      Onward(r, old(log), old(st), g, s, log, st);
      ghost var h, t := log, st;
      if close {
        UndoPhases(st, r, account, close, works(n + 2), others(n + 2));
        ok := Call(r, Closes);
        Onward(r, old(log), old(st), h, t, log, st);
      }
      CleanedHere(r, account, old(log), s0, g, s, h, t, log);
    }

    /** endInvite: best effort. */
    method EndInvite(r: nat, state: InviteState)
      requires Inv(st) && r in st.runs && (state.Expired? || state.Cancelled?)
      modifies this
      ensures Inv(st) && r in st.runs && st.runs[r] == old(st).runs[r]
      ensures log == old(log) + [Ends(state)] && Leads(r, old(log), old(st), log, st)
      ensures Alone() ==>
                st == old(st).(invite := if works(|old(log)|) && old(st).invite.Open? then state else old(st).invite)
    {
      var ok := Call(r, Ends(state));
    }

    /** The calls of the checks, by their answer: reads, all of which worked unless
        it is that one did not or a plan is not known; and the end of the invitation
        last, of one that lapsed as expired, of a site gone or sold as cancelled. */
    ghost predicate Consults(no: Option<Reply>, from: nat, ops: seq<Op>) {
      var ends := no == Some(Lapsed) || no == Some(GoneOrSold);
      && from < |ops| && (ends ==> from < |ops| - 1)
      && (forall n | from <= n < if ends then |ops| - 1 else |ops| :: ops[n].Reads?)
      && (ends ==> ops[|ops| - 1] == Ends(if no == Some(Lapsed) then Expired else Cancelled))
      && (no != Some(Unavailable) ==> forall n | from <= n < |ops| && ops[n].Reads? :: works(n))
    }

    lemma ConsultsFrom(no: Option<Reply>, g: seq<Op>, ops: seq<Op>)
      requires g + [Reads] <= ops && works(|g|) && Consults(no, |g| + 1, ops)
      ensures Consults(no, |g|, ops)
    {
      assert ops[|g|] == (g + [Reads])[|g|];
    }

    /** The checks before anything is written; None goes ahead, with both plans
        known to share and nothing lapsed. */
    method Check(r: nat, lapsed: bool, plan: Option<bool>, ownersPlan: Option<bool>) returns (no: Option<Reply>)
      requires Inv(st) && r in st.runs
      modifies this
      ensures Inv(st) && r in st.runs && st.runs[r] == old(st).runs[r]
      ensures Leads(r, old(log), old(st), log, st) && old(log) <= log && Consults(no, |old(log)|, log)
      ensures no.None? ==> !lapsed && plan == ownersPlan == Some(true)
      ensures no.Some? ==> !no.value.Joins?
      ensures Alone() ==> if no.None? then st == old(st) && Ready(st) else Untouched(old(st), st)
      ensures Alone() && no.Some? ==>
                st.invite == if no.value.Lapsed? && works(|log| - 1) then Expired
                             else if no.value.GoneOrSold? && works(|log| - 1) then Cancelled else old(st).invite
      ensures Alone() && no.Some? && (no.value.Lapsed? || no.value.GoneOrSold?) ==> old(st).invite.Open?
      ensures Alone() && (forall k :: works(k)) ==> no == Objection(old(st), lapsed, plan, ownersPlan)
      ensures Alone() && (forall k :: works(k)) && !lapsed && plan == ownersPlan == Some(true) && Ready(old(st)) ==>
                no.None?
    {
      hide Inv, Replay;
      var ok := Call(r, Reads);
      ghost var g, s := log, st;
      if !ok { return Some(Unavailable); }
      if !st.invite.Open? { return Some(NotOpen); }
      if lapsed {
        EndInvite(r, Expired);
        Onward(r, old(log), old(st), g, s, log, st);
        return Some(Lapsed);
      }
      if plan.None? { return Some(Unavailable); }
      if !plan.value { return Some(NoPlan); }
      no := CheckSite(r, ownersPlan);
      Onward(r, old(log), old(st), g, s, log, st);
      ConsultsFrom(no, old(log), log);
    }

    /** Those that ask for the site: its owner, its owner's plan, its lock. */
    method CheckSite(r: nat, ownersPlan: Option<bool>) returns (no: Option<Reply>)
      requires Inv(st) && r in st.runs
      modifies this
      ensures Inv(st) && r in st.runs && st.runs[r] == old(st).runs[r]
      ensures Leads(r, old(log), old(st), log, st) && old(log) < log && Consults(no, |old(log)|, log)
      ensures no.None? ==> ownersPlan == Some(true)
      ensures no.Some? ==> !no.value.Joins? && !no.value.Lapsed?
      ensures Alone() ==>
                if no == Some(GoneOrSold)
                then st == old(st).(invite := if works(|log| - 1) && old(st).invite.Open? then Cancelled
                                              else old(st).invite)
                else st == old(st)
      ensures Alone() && no.None? ==> st.owner == Some(st.from) && !st.locked
      ensures Alone() && (forall k :: works(k)) ==>
                no == if old(st).owner != Some(old(st).from) then Some(GoneOrSold)
                      else if ownersPlan.None? then Some(Unavailable)
                      else if !ownersPlan.value then Some(NoPlan)
                      else if old(st).locked then Some(Locked) else None
    {
      hide Inv, Replay;
      var ok := Call(r, Reads);
      ghost var g, s := log, st;
      if ok && st.owner != Some(st.from) {
        EndInvite(r, Cancelled);
        Onward(r, old(log), old(st), g, s, log, st);
        return Some(GoneOrSold);
      }
      if !ok || ownersPlan.None? { return Some(Unavailable); }
      if !ownersPlan.value { return Some(NoPlan); }
      ok := Call(r, Reads);
      Onward(r, old(log), old(st), g, s, log, st);
      if !ok { return Some(Unavailable); }
      no := if st.locked then Some(Locked) else None;
    }

    /** After the deciding change: the marker and the write, up to what stops it. */
    method Try(r: nat, account: Account) returns (reply: Reply)
      requires At(r, account, Won)
      modifies this
      ensures Inv(st) && r in st.runs && st.runs[r].account == account
      ensures if reply.Joins? then st.runs[r].phase.Done? else st.runs[r].phase.Unmarking?
      ensures log == old(log) + if works(|old(log)|) then [Links, Lists] else [Links]
      ensures reply == if works(|old(log)|) && works(|old(log)| + 1)
                       then var linked := Replay(r, |old(log)|, [Links], old(st));
                            WriteAnswer(Env(linked, r, others(|old(log)| + 1)), account)
                       else Unavailable
      ensures !reply.Joins? ==>
                (st.runs[r].phase.close <==>
                   && log == old(log) + [Links, Lists] && works(|old(log)| + 1)
                   && var found := Env(Replay(r, |old(log)|, [Links], old(st)), r, others(|old(log)| + 1));
                      found.owner.None? || found.owner.value != found.from)
      ensures reply.Joins? ==> log == old(log) + [Links, Lists]
      ensures Leads(r, old(log), old(st), log, st)
      ensures Alone() && !reply.Joins? ==> Marked(old(st), st, account) && st.runs == old(st).runs[r := st.runs[r]]
      ensures !reply.Lapsed?
      ensures Alone() && old(st).owner == Some(old(st).from) ==>
                !reply.GoneOrSold? && (!reply.Joins? ==> !st.runs[r].phase.close)
      ensures Alone() && (forall k :: works(k)) ==>
                reply == WriteAnswer(old(st), account)
      ensures Alone() && (forall k :: works(k)) && Writes(old(st), account) ==>
                reply.Joins? && st.invite == old(st).invite && st.admins == Joined(old(st).admins, account) &&
                  account in st.marks
    {
      hide Inv, Replay, Joined;
      reply := Unavailable;
      var ok := Call(r, Links);
      if !ok { return; }
      ghost var g, s := log, st;
      ok := Call(r, Lists);
      Onward(r, old(log), old(st), g, s, log, st);
      if !ok { return; }
      reply := if st.runs[r].phase.Done? then Joins
               else if st.owner != Some(st.from) then GoneOrSold else if st.locked then Locked else TooMany;
    }

    /** Once the deciding change is made. */
    method JoinWon(r: nat, account: Account) returns (reply: Reply)
      requires At(r, account, Won)
      modifies this
      ensures Inv(st) && r in st.runs && (reply.Joins? <==> st.runs[r].phase.Done?)
      ensures !reply.Joins? ==> st.runs[r] == Run(account, Over)
      ensures Leads(r, old(log), old(st), log, st)
      ensures old(log) + [Links] <= log && forall n | |old(log)| < n < |log| :: log[n] != Links
      ensures reply.Joins? ==> log == old(log) + [Links, Lists]
      ensures reply.Joins? || CleanUp(r, account, |old(log)|, old(st), log, |old(log)|)
      ensures Alone() && !reply.Joins? && !Lost(log, |old(log)|) ==>
                && Undone(old(st), st, account)
                && st.invite == if log[|log| - 1] == Closes && works(|log| - 1) then Cancelled else Open
      ensures !reply.Lapsed?
      ensures Alone() && old(st).owner == Some(old(st).from) ==> !reply.GoneOrSold? && log[|log| - 1] != Closes
      ensures Alone() && (forall k :: works(k)) ==> reply == WriteAnswer(old(st), account)
      ensures Alone() && (forall k :: works(k)) && Writes(old(st), account) ==>
                st.invite == old(st).invite && st.admins == Joined(old(st).admins, account) && account in st.marks
    {
      hide Inv, Replay, Env, Joined, KeepsMark, Marked, Writes, WriteAnswer, Undone, Cleaned, Withdrawn, CleanUp, Leads,
        Lost, Alone, UndoLeft, Does, StepRun, Step;
      reply := Try(r, account);
      if !reply.Joins? { GiveBack(r, account, st.runs[r].phase.close, old(log), old(st)); }
    }

    /** The undo of a try that was refused; g and s are the log and the state before
        the try. */
    method GiveBack(r: nat, account: Account, close: bool, ghost g: seq<Op>, ghost s: State)
      requires At(r, account, Unmarking(close)) && Leads(r, g, s, log, st)
      requires log == g + [Links] || log == g + [Links, Lists]
      requires close <==>
                 && log == g + [Links, Lists] && works(|g| + 1)
                 && var found := Env(Replay(r, |g|, [Links], s), r, others(|g| + 1));
                    found.owner.None? || found.owner.value != found.from
      requires Alone() ==> Marked(s, st, account)
      modifies this
      ensures At(r, account, Over) && Leads(r, g, s, log, st)
      ensures g + [Links] <= log && (forall n | |g| < n < |log| :: log[n] != Links)
      ensures log[|log| - 1] == (if close then Closes else Reopens)
      ensures CleanUp(r, account, |g|, s, log, |g|)
      ensures Alone() && !Lost(log, |g|) ==>
                Undone(s, st, account) && st.invite == if close && works(|log| - 1) then Cancelled else Open
    {
      hide Inv, Replay, Env, Joined, KeepsMark, Marked, Undone, Cleaned, Withdrawn, CleanUp, Leads, Lost, Alone,
        UndoLeft, Does, StepRun, Step;
      ghost var h, u := log, st;
      Undo(r, account, close);
      Onward(r, g, s, h, u, log, st);
      Tried(g, h, log, close);
      CleanedFrom(r, account, g, s, h, u, log, |h|);
      WithdrawnHere(r, g, s, h, log, close);
      CleansUp(r, account, |g|, s, log, |g|, |h|);
      if Alone() && !Lost(log, |g|) {
        NotLost(log, |g|, |h|);
        Refused(s, u, st, account, close, works(|h| + 2));
      }
    }

    lemma Tried(g: seq<Op>, h: seq<Op>, ops: seq<Op>, close: bool)
      requires h == g + [Links] || h == g + [Links, Lists]
      requires ops == h + [Unmarks, Reopens] + (if close then [Closes] else [])
      ensures g + [Links] <= ops && h <= ops && forall n | |g| < n < |ops| :: ops[n] != Links
      ensures |g| < |h| && |h| + 1 < |ops| && ops[|h|] == Unmarks && ops[|h| + 1] == Reopens
      ensures ops[|ops| - 1] == (if close then Closes else Reopens) && (close ==> |ops| == |h| + 3)
    {
    }

    /** From the deciding change on. */
    method Join(r: nat, account: Account) returns (reply: Reply)
      requires At(r, account, Asking)
      modifies this
      ensures Inv(st) && r in st.runs && (reply.Joins? <==> st.runs[r].phase.Done?)
      ensures !reply.Joins? ==> st.runs[r] == Run(account, Over)
      ensures reply.Joins? ==> log == old(log) + [Wins, Links, Lists]
      ensures Leads(r, old(log), old(st), log, st)
      ensures old(log) < log && forall n | |old(log)| <= n < |log| && log[n] == Links :: n == |old(log)| + 1
      ensures log == old(log) + [Wins] ==> reply == if works(|old(log)|) then NotOpen else Unavailable
      ensures reply.Joins? || log == old(log) + [Wins] ||
              CleanUp(r, account, |old(log)|, old(st), log, |old(log)| + 1)
      ensures Alone() && !reply.Joins? && !Lost(log, |old(log)|) ==> Compensated(old(st), st, account)
      ensures Alone() && !reply.Joins? && !Lost(log, |old(log)|) && old(st).invite.Open? ==>
                st.invite == if log[|log| - 1] == Closes && works(|log| - 1) then Cancelled else Open
      ensures !reply.Lapsed?
      ensures Alone() && old(st).owner == Some(old(st).from) ==> !reply.GoneOrSold? && log[|log| - 1] != Closes
      ensures Alone() && (forall k :: works(k)) && old(st).invite.Open? ==> reply == WriteAnswer(old(st), account)
      ensures Alone() && (forall k :: works(k)) && old(st).invite.Open? && Writes(old(st), account) ==>
                reply.Joins? && GotIn(old(st), st, account)
    {
      hide Inv, Replay, Env, Does, Joined, KeepsMark, Compensated, Undone, Marked, Writes, WriteAnswer, Cleaned,
        Withdrawn, CleanUp, Leads, Lost;
      ghost var n := |log|;
      Deciding(Env(st, r, others(n)), r, account, works(n));
      var ok := Call(r, Wins);
      if Alone() { WinsOrNot(old(st), st, r, account, works(|old(log)|)); }
      if !st.runs[r].phase.Won? { return if ok then NotOpen else Unavailable; }
      ghost var g, s := log, st;
      reply := JoinWon(r, account);
      Onward(r, old(log), old(st), g, s, log, st);
      if reply.Joins? { return; }
      CleanUpFrom(r, account, old(log), old(st), g, s, log, |g|);
      LostFrom(log, |old(log)|, |g|);
      if Alone() && !Lost(log, |old(log)|) { UndoneAll(old(st), s, st, account); }
    }

    /** The checks, and then the deciding change and what follows. */
    method Answered(r: nat, account: Account, lapsed: bool, plan: Option<bool>, ownersPlan: Option<bool>)
      returns (reply: Reply)
      requires At(r, account, Asking)
      modifies this
      ensures Inv(st) && r in st.runs && (reply.Joins? <==> st.runs[r].phase.Done?)
      ensures !reply.Joins? ==> st.runs[r] == Run(account, Over)
      ensures reply.Joins? ==> !lapsed && plan == ownersPlan == Some(true)
      ensures Leads(r, old(log), old(st), log, st)
      ensures !reply.Joins? ==> forall n | |old(log)| <= n < |log| && log[n] == Links ::
                CleanUp(r, account, |old(log)|, old(st), log, n)
      ensures Alone() && !reply.Joins? && !Lost(log, |old(log)|) ==> Compensated(old(st), st, account)
      ensures Alone() && !reply.Joins? && !Lost(log, |old(log)|) && old(st).invite.Open? ==>
                st.invite == if reply.Lapsed? && |log| > 1 && works(|log| - 2) then Expired
                             else if reply.GoneOrSold? && |log| > 1 && works(|log| - 2) then Cancelled else Open
      ensures Alone() && (forall k :: works(k)) ==>
                var no := Objection(old(st), lapsed, plan, ownersPlan);
                reply == if no.Some? then no.value else WriteAnswer(old(st), account)
      ensures Alone() && (forall k :: works(k)) && reply.Joins? ==> GotIn(old(st), st, account)
    {
      hide Inv, Replay, Joined, CleanUp, Compensated, Untouched, Leads, GotIn, Lost,
        Env, Does, StepRun, Writes, WriteAnswer, Objection;
      var no := Check(r, lapsed, plan, ownersPlan);
      ghost var g, s := log, st;
      if no.None? {
        WritesIs(s, account);
        reply := Join(r, account);
        LostFrom(log, |old(log)|, |g|);
        if !reply.Joins? && log != g + [Wins] {
          CleanUpFrom(r, account, old(log), old(st), g, s, log, |g| + 1);
        }
      } else {
        Quitting(Env(st, r, others(|log|)), r, account, works(|log|));
        var ok := Call(r, Quits);
        reply := no.value;
        if Alone() { Quit(old(st), s, st, r, account, ok); }
      }
      Onward(r, old(log), old(st), g, s, log, st);
    }

    /** handleInviteAccept. It answers that the account joined exactly if its own
        write did; otherwise the run is over, and if it had won it was undone.
        At that undo a marker is left to the account, not listed, exactly if the
        site is gone by then or the call fails, whoever else acts. With nobody else
        acting and no call of the undo failing, a refusal leaves the admins as they
        were and no new marker without a listed admin while the site exists. */
    method Accept(r: nat, account: Account, lapsed: bool, plan: Option<bool>, ownersPlan: Option<bool>)
      returns (reply: Reply)
      requires Inv(st) && r !in st.runs
      modifies this
      ensures Inv(st) && r in st.runs
      ensures reply.Joins? <==> r in st.wrote
      ensures !reply.Joins? ==> st.runs[r] == Run(account, Over)
      ensures reply.Joins? ==> !lapsed && plan == ownersPlan == Some(true)
      ensures Leads(r, old(log), StepRun(old(st), r, Ask(account)), log, st)
      ensures !reply.Joins? ==> forall n | |old(log)| <= n < |log| && log[n] == Links ::
                CleanUp(r, account, |old(log)|, StepRun(old(st), r, Ask(account)), log, n)
      ensures Alone() && !reply.Joins? && !Lost(log, |old(log)|) ==> Compensated(old(st), st, account)
      ensures Alone() && !reply.Joins? && !Lost(log, |old(log)|) && old(st).invite.Open? ==>
                st.invite == if reply.Lapsed? && |log| > 1 && works(|log| - 2) then Expired
                             else if reply.GoneOrSold? && |log| > 1 && works(|log| - 2) then Cancelled else Open
      ensures Alone() && (forall k :: works(k)) ==>
                var no := Objection(old(st), lapsed, plan, ownersPlan);
                reply == if no.Some? then no.value else WriteAnswer(old(st), account)
      ensures Alone() && (forall k :: works(k)) && !lapsed && plan == ownersPlan == Some(true) &&
              Welcome(old(st), account) ==>
                reply.Joins? && GotIn(old(st), st, account)
    {
      hide Inv, Replay, Joined, CleanUp, Compensated, Leads, GotIn, Lost, StepRun, Writes, WriteAnswer,
        Objection;
      RunStepKeeps(st, r, Ask(account));
      st := StepRun(st, r, Ask(account));
      Asked(old(st), r, account, lapsed, plan, ownersPlan);
      reply := Answered(r, account, lapsed, plan, ownersPlan);
      SameBase(old(st), st, r, account);
      WelcomeIs(old(st), account, lapsed, plan, ownersPlan);
      Winner(st, r);
    }
  }

  /** Only the invitation changed, and only from open to lapsed or withdrawn. */
  ghost predicate Untouched(s: State, t: State) {
    t.(invite := s.invite) == s &&
      (t.invite == s.invite || (s.invite.Open? && (t.invite.Expired? || t.invite.Cancelled?)))
  }

  ghost predicate Ready(s: State) {
    s.invite.Open? && s.owner == Some(s.from) && !s.locked
  }

  /** What a refusal leaves: the admins as they were, the invitation open, lapsed
      or withdrawn unless it was not open before, and no new marker without a
      listed admin while the site exists. */
  ghost predicate Compensated(s: State, t: State, account: Account) {
    && t.admins == s.admins && t.owner == s.owner
    && (if s.invite.Open? then t.invite.Open? || t.invite.Expired? || t.invite.Cancelled? else t.invite == s.invite)
    && forall a | a in t.marks && a !in s.marks :: a == account && KeepsMark(t, a)
  }

  /** What stands in the way of an accept, in the order of the questions. */
  function Objection(s: State, lapsed: bool, plan: Option<bool>, ownersPlan: Option<bool>): Option<Reply> {
    if !s.invite.Open? then Some(NotOpen)
    else if lapsed then Some(Lapsed)
    else if plan.None? then Some(Unavailable)
    else if !plan.value then Some(NoPlan)
    else if s.owner != Some(s.from) then Some(GoneOrSold)
    else if ownersPlan.None? then Some(Unavailable)
    else if !ownersPlan.value then Some(NoPlan)
    else if s.locked then Some(Locked)
    else None
  }

  predicate Welcome(s: State, account: Account) {
    s.invite.Open? && Writes(s, account)
  }

  lemma WelcomeIs(s: State, account: Account, lapsed: bool, plan: Option<bool>, ownersPlan: Option<bool>)
    ensures !lapsed && plan == ownersPlan == Some(true) && Welcome(s, account) ==>
              Objection(s, lapsed, plan, ownersPlan).None? && WriteAnswer(s, account).Joins?
  {
  }

  lemma WritesIs(s: State, account: Account)
    ensures Writes(s, account) <==> WriteAnswer(s, account).Joins?
  {
  }

  /** Asking changes nothing that matters. */
  lemma Asked(s: State, r: nat, account: Account, lapsed: bool, plan: Option<bool>, ownersPlan: Option<bool>)
    requires r !in s.runs
    ensures var t := StepRun(s, r, Ask(account));
            && r in t.runs && t.runs[r] == Run(account, Asking) && t.(runs := s.runs) == s
            && (Writes(t, account) <==> Writes(s, account))
            && WriteAnswer(t, account) == WriteAnswer(s, account)
            && Objection(t, lapsed, plan, ownersPlan) == Objection(s, lapsed, plan, ownersPlan)
  {
  }

  lemma SameBase(s: State, t: State, r: nat, account: Account)
    requires r !in s.runs
    ensures var b := StepRun(s, r, Ask(account));
            (Compensated(b, t, account) ==> Compensated(s, t, account)) &&
              (GotIn(b, t, account) ==> GotIn(s, t, account))
  {
  }

  lemma Quit(s0: State, s: State, t: State, r: nat, account: Account, works: bool)
    requires Untouched(s0, s) && r in s.runs && t == Does(s, r, Quits, works) && s.runs[r].phase.Asking?
    ensures Compensated(s0, t, account) && t.invite == s.invite
  {
  }

  lemma Quitting(s: State, r: nat, account: Account, works: bool)
    ensures r in s.runs && s.runs[r] == Run(account, Asking) ==>
              var t := Does(s, r, Quits, works);
              r in t.runs && t.runs[r] == Run(account, Over)
  {
  }

  /** Of the deciding change: it is made, or the run is over. */
  lemma Deciding(s: State, r: nat, account: Account, works: bool)
    ensures r in s.runs && s.runs[r] == Run(account, Asking) ==>
              var t := Does(s, r, Wins, works);
              r in t.runs && (t.runs[r] == Run(account, Won) || t.runs[r] == Run(account, Over))
  {
  }

  lemma WinsOrNot(s: State, t: State, r: nat, account: Account, works: bool)
    requires r in s.runs && s.runs[r] == Run(account, Asking) && t == Does(s, r, Wins, works)
    ensures r in t.runs && (t.runs[r].phase.Won? <==> works && s.invite.Open?)
    ensures t.(runs := s.runs, invite := s.invite) == s
    ensures !t.runs[r].phase.Won? ==> Compensated(s, t, account)
    ensures t.runs[r].phase.Won? ==> WriteAnswer(t, account) == WriteAnswer(s, account)
    ensures if t.runs[r].phase.Won? then t.invite.Accepted? else t.invite == s.invite
    ensures Writes(t, account) <==> Writes(s, account)
  {
  }

  /** What an undo leaves of a try. */
  ghost predicate Undone(s: State, t: State, account: Account) {
    && t.admins == s.admins && t.owner == s.owner && (t.invite.Open? || t.invite.Cancelled?)
    && forall a | a in t.marks && a !in s.marks :: a == account && KeepsMark(t, a)
  }

  lemma UndoneAll(s0: State, s1: State, t: State, account: Account)
    requires s1.(runs := s0.runs, invite := s0.invite) == s0 && s0.invite.Open? && Undone(s1, t, account)
    ensures Compensated(s0, t, account)
  {
  }

  /** What an undo leaves when nobody else acts, by which of its calls work: the
      admins as they were, no marker of the account unless it is listed or the site
      is gone, and the invitation open or withdrawn. */
  ghost predicate UndoLeft(s: State, t: State, account: Account, close: bool, w0: bool, w1: bool, w2: bool) {
    && t.admins == s.admins && t.owner == s.owner
    && t.marks == (if w0 && !KeepsMark(s, account) then s.marks - {account} else s.marks)
    && t.invite == (if !w1 then s.invite else if close && w2 then Cancelled else Open)
  }

  lemma Refused(s1: State, s2: State, s3: State, account: Account, close: bool, w2: bool)
    requires Marked(s1, s2, account) && UndoLeft(s2, s3, account, close, true, true, w2)
    ensures Undone(s1, s3, account) && s3.invite == if close && w2 then Cancelled else Open
  {
  }

  /** The core's answer to the write, in the order it checks. */
  function WriteAnswer(s: State, account: Account): Reply {
    if s.owner != Some(s.from) then GoneOrSold else if s.locked then Locked
    else if |Joined(s.admins, account)| > MAX_ADMINS then TooMany else Joins
  }

  /** After a try that failed: only the account's marker may be new. */
  ghost predicate Marked(s: State, t: State, account: Account) {
    t.(runs := s.runs, marks := s.marks) == s && t.marks <= s.marks + {account}
  }

  ghost predicate GotIn(s: State, t: State, account: Account) {
    t.invite.Accepted? && t.admins == Joined(s.admins, account) && account in t.marks
  }

  /** The call finds the first state and leaves the second: the account's marker is
      left exactly if there was one, and the account is listed, the site is gone or
      the call failed; everybody else's stay. */
  predicate LeftExactlyIf(found: State, left: State, account: Account, works: bool) {
    && (account in left.marks <==> account in found.marks && (account in found.admins || found.owner.None? || !works))
    && left.marks - {account} == found.marks - {account}
    && left.admins == found.admins && left.owner == found.owner
  }

  lemma UndoPhases(s: State, r: nat, account: Account, close: bool, works: bool, others: seq<Action>)
    requires Inv(s) && r in s.runs && s.runs[r].account == account
    ensures var e := Env(s, r, others);
            && r in e.runs && e.runs[r] == s.runs[r]
            && (s.runs[r].phase == Unmarking(close) ==>
                  var t := Does(e, r, Unmarks, works);
                  r in t.runs && t.runs[r] == Run(account, Reopening(close)) && LeftExactlyIf(e, t, account, works))
            && (s.runs[r].phase == Reopening(close) ==>
                  var t := Does(e, r, Reopens, works);
                  r in t.runs && t.runs[r] == Run(account, After(close)) && (works ==> t.invite.Open?))
            && (s.runs[r].phase == Closing ==>
                  r in Does(e, r, Closes, works).runs && Does(e, r, Closes, works).runs[r] == Run(account, Over))
  {
    EnvKeeps(s, r, others);
    if Holding(s.runs[r].phase) { Held(Env(s, r, others), r); }
  }

  /** An undo with nobody else acting. */
  lemma UndoOf(s: State, r: nat, account: Account, close: bool, w0: bool, w1: bool, w2: bool)
    requires Inv(s) && r in s.runs && s.runs[r] == Run(account, Unmarking(close))
    ensures var u := Does(s, r, Unmarks, w0);
            var v := Does(u, r, Reopens, w1);
            var t := if close then Does(v, r, Closes, w2) else v;
            UndoLeft(s, t, account, close, w0, w1, w2)
  {
    Held(s, r);
  }

  /** What a run that holds the invitation can rely on. */
  lemma Held(s: State, r: nat)
    requires Inv(s) && r in s.runs && Holding(s.runs[r].phase)
    ensures s.invite.Accepted?
  {
    Belongs(s.runs, r);
  }

  lemma Winner(s: State, r: nat)
    requires Inv(s) && r in s.runs
    ensures r in s.wrote <==> s.runs[r].phase.Done?
  {
  }
}
