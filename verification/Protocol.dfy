/** The transfer protocol as a machine. Every action is one atomic step of the
    source: one locked store update, one meta.json write, one claim, or a crash
    of the process. A run of the system is any list of actions, so every
    interleaving and every failure between two steps is one of them: a step
    whose guard fails changes nothing, a call that fails is a step not taken,
    and a call whose effect landed although it reported an error is a step
    taken whose caller then stops. */
module Protocol {
  import opened Prelude
  import opened Offers

  /** A claimed run (acceptRuns): an accept, from its checks on, or one call of
      the background completion. */
  datatype Run = Run(
    to: Account,
    posted: Option<seq<Site>>,  // the bundle the recipient posted; None for the loop
    loaded: bool,               // runAccepting read the offer as accepting, for this account
    known: set<Site>            // sites this run moved, or read as the recipient's
  )

  datatype DraftPhase = Cancelling | Restoring | Over

  /** A createOffer call in flight. */
  datatype Draft = Draft(
    from: Account, sites: seq<Site>, toEmail: Email, availableFrom: Option<Time>, acceptBy: Time,
    replace: seq<OfferId>,            // plan.Replace
    next: nat,                        // how many of them are cancelled
    done: map<OfferId, OfferState>,   // those not put back yet, with the state to restore
    phase: DraftPhase
  )

  /** What was true when an offer's acceptance started (kept for the theorems). */
  datatype Start = Start(posted: seq<Site>, owners: map<Site, Account>)

  datatype State = State(
    offers: Book,
    owners: map<Site, Account>,   // meta.json's owner of every site that exists
    locked: set<Site>,
    born: set<Site>,              // every site id ever handed out
    nextId: OfferId,
    runs: map<OfferId, Run>,      // in memory: lost in a crash
    drafts: map<nat, Draft>,      // in memory: lost in a crash
    starts: map<OfferId, Start>,  // history
    moves: seq<(OfferId, Site)>   // history: every TransferSite that succeeded
  )

  const INIT := State(map[], map[], {}, {}, 0, map[], map[], map[], [])

  datatype SiteOp = Make(owner: Account) | Drop | Adopt(account: Account) | Lock | Unlock

  datatype DraftOp = CancelNext | Create | Fail | PutBack(id: OfferId) | Skip(id: OfferId)

  datatype RunOp =
    | Begin(now: Time)      // open -> accepting, the change that decides every race
    | Load                  // read the offer back
    | See(site: Site)       // read the recipient as the site's owner
    | Move(site: Site)      // TransferSite
    | MarkDone(site: Site)
    | Finish                // accepting -> accepted, every site done
    | GiveUp                // accepting -> accepted or ended, the rest stays
    | Release

  datatype Action =
    | OnSite(site: Site, op: SiteOp)
    | Plan(d: nat, draft: Draft)
    | OnDraft(d: nat, step: DraftOp)
    | Edit(id: OfferId, change: Change)
    | Prune(id: OfferId)
    | Claim(id: OfferId, account: Account, email: Email, posted: seq<Site>)
    | Resume(id: OfferId, account: Account)
    | OnRun(id: OfferId, run: RunOp)
    | Crash

  /** Sites someone could choose: they were theirs, so none is anonymous. */
  predicate Choosable(born: set<Site>, owners: map<Site, Account>, sites: seq<Site>) {
    forall x | x in sites :: x in born && (x in owners ==> owners[x] != NOBODY)
  }

  predicate GoodPlan(s: State, p: Draft) {
    && p.from != NOBODY
    && 1 <= |p.sites| <= MAX_BUNDLE && NoDup(p.sites) && Choosable(s.born, s.owners, p.sites)
    && NoDup(p.replace)
    && p.next == 0 && p.done == map[] && p.phase.Cancelling?
  }

  /** The sites an edit adds are the sender's own choice, posted once each. */
  predicate GoodChange(s: State, c: Change) {
    c.SetSites? ==> NoDup(c.add) && Choosable(s.born, s.owners, c.add)
  }

  function StepSite(s: State, x: Site, op: SiteOp): State {
    match op
    case Make(owner) =>
      if x in s.born then s else s.(owners := s.owners[x := owner], born := s.born + {x})
    case Drop => s.(owners := s.owners - {x})
    case Adopt(account) =>
      if x in s.owners && s.owners[x] == NOBODY && x !in s.locked && account != NOBODY
      then s.(owners := s.owners[x := account]) else s
    case Lock => s.(locked := s.locked + {x})
    case Unlock => s.(locked := s.locked - {x})
  }

  function StepDraft(s: State, d: nat, p: Draft, op: DraftOp): State {
    match op
    case CancelNext =>
      if !p.phase.Cancelling? || p.next >= |p.replace| then s
      else
        var id := p.replace[p.next];
        if id in s.offers && Editable(s.offers[id]) && s.offers[id].from == p.from then
          var o := s.offers[id];
          s.(offers := s.offers[id := o.(state := Cancelled)],
             drafts := s.drafts[d := p.(next := p.next + 1, done := p.done[id := o.state])])
        else s.(drafts := s.drafts[d := p.(phase := Restoring)])
    case Create =>
      if !p.phase.Cancelling? || p.next != |p.replace| then s
      else if SitesFree(s.offers, s.nextId, p.sites) then
        var o := Offer(p.sites, p.from, p.toEmail, p.availableFrom, p.acceptBy, Open, [], NOBODY);
        s.(offers := s.offers[s.nextId := o], nextId := s.nextId + 1,
           drafts := s.drafts[d := p.(done := map[], phase := Over)])
      else s.(drafts := s.drafts[d := p.(phase := Restoring)])
    case Fail =>
      if !p.phase.Cancelling? then s else s.(drafts := s.drafts[d := p.(phase := Restoring)])
    case PutBack(id) =>
      if !p.phase.Restoring? || id !in p.done then s
      else
        var rest := s.(drafts := s.drafts[d := p.(done := p.done - {id})]);
        if id !in s.offers then rest
        else
          (match Put(s.offers, id, s.offers[id].(state := p.done[id]))
           case None => rest
           case Some(book) => rest.(offers := book))
    case Skip(id) =>
      if !p.phase.Restoring? || id !in p.done then s
      else s.(drafts := s.drafts[d := p.(done := p.done - {id})])
  }

  /** The guard of a run's step: what the call itself checks, under its lock. */
  predicate Can(s: State, id: OfferId, r: Run, op: RunOp) {
    if op.Release? then true
    else if id !in s.offers then false
    else
      var o := s.offers[id];
      match op
      case Begin(now) =>
        r.posted.Some? && !r.loaded && o.state.Open? && SameSites(o.sites, r.posted.value) && InWindow(o, now)
      case Load => o.state.Accepting? && o.acceptedBy == r.to
      case See(x) => r.loaded && x in o.sites && x in s.owners && s.owners[x] == r.to
      case Move(x) => r.loaded && x in o.sites && x in s.owners && s.owners[x] == o.from && x !in s.locked
      case MarkDone(x) => r.loaded && x in r.known && o.state.Accepting?
      case Finish => r.loaded && o.state.Accepting? && NotDone(o) == {}
      case GiveUp => r.loaded && o.state.Accepting?
  }

  function StepRun(s: State, id: OfferId, r: Run, op: RunOp): State {
    if op.Release? then s.(runs := s.runs - {id})
    else if !Can(s, id, r, op) then s
    else
      var o := s.offers[id];
      match op
      case Begin(now) =>
        s.(offers := s.offers[id := o.(state := Accepting, acceptedBy := r.to)],
           starts := s.starts[id := Start(r.posted.value, s.owners)])
      case Load => s.(runs := s.runs[id := r.(loaded := true)])
      case See(x) => s.(runs := s.runs[id := r.(known := r.known + {x})])
      case Move(x) =>
        s.(owners := s.owners[x := r.to], moves := s.moves + [(id, x)],
          runs := s.runs[id := r.(known := r.known + {x})])
      case MarkDone(x) =>
        s.(offers := s.offers[id := o.(done := if x in o.done then o.done else o.done + [x])])
      case Finish =>
        s.(offers := s.offers[id := o.(state := Accepted)], runs := s.runs[id := r.(loaded := false, known := {})])
      case GiveUp =>
        s.(offers := s.offers[id := o.(state := if o.done != [] then Accepted else Ended)],
           runs := s.runs[id := r.(loaded := false, known := {})])
  }

  function StepEdit(s: State, id: OfferId, c: Change): State {
    if id !in s.offers then s
    else
      match Apply(s.offers[id], c)
      case None => s
      case Some(o) =>
        match Put(s.offers, id, o)
        case None => s
        case Some(book) => s.(offers := book)
  }

  function Step(s: State, a: Action): State {
    match a
    case OnSite(x, op) => StepSite(s, x, op)
    case Plan(d, p) =>
      if d !in s.drafts && GoodPlan(s, p) then s.(drafts := s.drafts[d := p]) else s
    case OnDraft(d, op) => if d in s.drafts then StepDraft(s, d, s.drafts[d], op) else s
    case Edit(id, c) => if GoodChange(s, c) then StepEdit(s, id, c) else s
    case Prune(id) =>
      if id in s.offers && IsFinal(s.offers[id].state) then s.(offers := s.offers - {id}) else s
    case Claim(id, account, email, posted) =>
      if id in s.offers && id !in s.runs && account != NOBODY && account != s.offers[id].from
         && email == s.offers[id].toEmail
      then s.(runs := s.runs[id := Run(account, Some(posted), false, {})]) else s
    case Resume(id, account) =>
      if id !in s.runs && account != NOBODY
      then s.(runs := s.runs[id := Run(account, None, false, {})]) else s
    case OnRun(id, op) => if id in s.runs then StepRun(s, id, s.runs[id], op) else s
    case Crash => s.(runs := map[], drafts := map[])
  }

  /** Any list of actions, from any state. */
  function Exec(s: State, trace: seq<Action>): State {
    if trace == [] then s else Step(Exec(s, trace[..|trace| - 1]), trace[|trace| - 1])
  }
}
