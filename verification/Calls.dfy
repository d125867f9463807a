/** The calls of a running accept or of the background loop: what each finds,
    what it does, and what the log of them proves. */
module Calls {
  import opened Prelude
  import opened Offers
  import opened Protocol
  import opened Safety
  import opened Theorems
  import opened Interference
  import opened AcceptCheck

  /** How a call goes: Lands is an effect that happened behind an error. */
  datatype Fate = Works | Fails | Lands

  /** Everything a run cannot decide, by the number of the call it meets it at. */
  datatype Oracle = Oracle(
    fate: nat -> Fate,
    others: nat -> seq<Action>,        // what the rest of the system does just before the call
    world: nat -> World,               // what else a check reads, besides owners, locks and markers
    about: (nat, Site) -> SiteFacts,
    password: nat -> nat               // the new edit password TransferSite answers with
  )

  type Links = set<(Account, Site)>

  datatype Question =
    | RecipientAccount | AccountOf(id: OfferId) | FormerAdmins(site: Site) | CheckFacts | PlanCaps | OfferList

  /** A claim: of an accept, or of the background loop. */
  type Claiming = a: Action | a.Claim? || a.Resume? witness Action.Resume(0, NOBODY)

  datatype Op =
    | Acts(op: RunOp)                            // one step of the run against the stores
    | Marks(account: Account, site: Site, on: bool)
    | Asks(question: Question)                   // a read that changes nothing
    | Edits(id: OfferId, change: Change)         // an update of an offer outside a run
    | Takes(action: Claiming)                    // a claim, in memory
    | Frees(id: OfferId)                         // its release, in memory

  /** A call: whose it is (None: outside any claim), what it is, and the store and
      the markers it found. */
  datatype Call = Call(who: Option<OfferId>, op: Op, at: State, marked: Links)

  datatype Moment = Moment(st: State, links: Links, log: seq<Call>)

  /** What the n-th call finds. */
  function Found(k: Oracle, n: nat, who: Option<OfferId>, op: Op, s: State): State {
    if op.Frees? then s
    else if who.Some? then Env(s, who.value, k.others(n))
    else Exec(s, k.others(n))
  }

  /** What it leaves. */
  function Effect(k: Oracle, n: nat, c: Call): State {
    match c.op
    case Acts(op) =>
      if k.fate(n).Fails? || c.who.None? || c.who.value !in c.at.runs then c.at
      else StepRun(c.at, c.who.value, c.at.runs[c.who.value], op)
    case Edits(id, change) => if k.fate(n).Fails? then c.at else Step(c.at, Edit(id, change))
    case Takes(action) => Step(c.at, action)
    case Frees(id) => Step(c.at, OnRun(id, Release))
    case _ => c.at
  }

  function EffectLinks(k: Oracle, n: nat, c: Call): Links {
    if !c.op.Marks? || k.fate(n).Fails? then c.marked
    else if c.op.on then c.marked + {(c.op.account, c.op.site)}
    else c.marked - {(c.op.account, c.op.site)}
  }

  /** One call leads from a to b. */
  ghost predicate Next(k: Oracle, a: Moment, b: Moment) {
    var n := |a.log|;
    && |b.log| == n + 1 && b.log[..n] == a.log
    && b.log[n].at == Found(k, n, b.log[n].who, b.log[n].op, a.st) && b.log[n].marked == a.links
    && b.st == Effect(k, n, b.log[n]) && b.links == EffectLinks(k, n, b.log[n])
  }

  /** Nothing but the logged calls, and everybody else, led from a to b. */
  ghost predicate Leads(k: Oracle, a: Moment, b: Moment)
    decreases |b.log|
  {
    if |b.log| <= |a.log| then b == a
    else exists m: Moment :: |m.log| == |b.log| - 1 && Next(k, m, b) && Leads(k, a, m)
  }

  lemma LeadsNow(k: Oracle, a: Moment)
    ensures Leads(k, a, a)
  {
  }

  lemma LeadsOne(k: Oracle, a: Moment, b: Moment)
    requires Next(k, a, b)
    ensures Leads(k, a, b)
  {
    assert Leads(k, a, a);
  }

  lemma {:induction false} LeadsLog(k: Oracle, a: Moment, b: Moment)
    requires Leads(k, a, b)
    ensures a.log <= b.log
    decreases |b.log|
  {
    if |b.log| > |a.log| {
      var m: Moment :| |m.log| == |b.log| - 1 && Next(k, m, b) && Leads(k, a, m);
      LeadsLog(k, a, m);
    }
  }

  lemma {:induction false} LeadsTrans(k: Oracle, a: Moment, b: Moment, c: Moment)
    requires Leads(k, a, b) && Leads(k, b, c)
    ensures Leads(k, a, c)
    decreases |c.log|
  {
    if |c.log| > |b.log| {
      var m: Moment :| |m.log| == |c.log| - 1 && Next(k, m, c) && Leads(k, b, m);
      LeadsTrans(k, a, b, m);
      LeadsLog(k, a, m);
    }
  }

  /** The log is all there is: it fixes the store and the markers. */
  lemma {:induction false} LogDecides(k: Oracle, a: Moment, b: Moment, c: Moment)
    requires Leads(k, a, b) && Leads(k, a, c) && b.log == c.log
    ensures b == c
    decreases |b.log|
  {
    if |b.log| > |a.log| {
      var m: Moment :| |m.log| == |b.log| - 1 && Next(k, m, b) && Leads(k, a, m);
      var n: Moment :| |n.log| == |c.log| - 1 && Next(k, n, c) && Leads(k, a, n);
      assert m.log == n.log;
      LogDecides(k, a, m, n);
    }
  }

  /** And every step of it is one of the protocol. */
  lemma {:induction false} LeadsReaches(k: Oracle, a: Moment, b: Moment)
    requires Leads(k, a, b)
    ensures Reaches(a.st, b.st)
    decreases |b.log|
  {
    if |b.log| <= |a.log| {
      ReachesNow(a.st);
    } else {
      var m: Moment :| |m.log| == |b.log| - 1 && Next(k, m, b) && Leads(k, a, m);
      LeadsReaches(k, a, m);
      NextReaches(k, m, b);
      ReachesTrans(a.st, m.st, b.st);
    }
  }

  lemma NextReaches(k: Oracle, a: Moment, b: Moment)
    requires Next(k, a, b)
    ensures Reaches(a.st, b.st)
  {
    hide Step, StepRun;
    var n := |a.log|;
    var c := b.log[n];
    ReachesNow(a.st);
    if c.who.Some? {
      EnvReaches(a.st, a.st, c.who.value, k.others(n));
    } else {
      assert Reaches(a.st, Exec(a.st, k.others(n)));
    }
    assert Reaches(a.st, c.at);
    EffectReaches(k, n, c);
    ReachesTrans(a.st, c.at, b.st);
  }

  lemma EffectReaches(k: Oracle, n: nat, c: Call)
    ensures Reaches(c.at, Effect(k, n, c))
  {
    ReachesNow(c.at);
    match c.op
    case Acts(op) =>
      if c.who.Some? {
        ReachesStep(c.at, c.at, OnRun(c.who.value, op));
      }
    case Edits(id, change) => ReachesStep(c.at, c.at, Edit(id, change));
    case Takes(action) => ReachesStep(c.at, c.at, action);
    case Frees(id) => ReachesStep(c.at, c.at, OnRun(id, Release));
    case _ =>
  }

  // ---- whose claims the calls are made under ----

  /** A call under this claim, which neither takes nor releases one. */
  predicate Of(c: Call, me: OfferId) {
    c.who == Some(me) && !c.op.Takes? && !c.op.Frees? && c.op != Acts(Release) && c.op != Asks(OfferList)
  }

  predicate AllOf(log: seq<Call>, n: nat, me: OfferId) {
    forall i | n <= i < |log| :: Of(log[i], me)
  }

  lemma OneOf(g: seq<Call>, c: Call, me: OfferId)
    requires Of(c, me)
    ensures AllOf(g + [c], |g|, me)
  {
  }

  lemma AllOfTrans(g: seq<Call>, n: nat, h: seq<Call>, me: OfferId)
    requires g <= h && AllOf(g, n, me) && AllOf(h, |g|, me)
    ensures AllOf(h, n, me)
  {
  }

  /** The claim was free, and is had. */
  predicate Got(c: Call)
    requires c.op.Takes?
  {
    c.op.action.id !in c.at.runs && c.op.action.id in Step(c.at, c.op.action).runs
  }

  /** The claims held after the calls from the n-th on, which got them and have
      not released them; None once a call is made under, or releases, a claim that
      they do not hold. */
  function Held(log: seq<Call>, n: nat): Option<set<OfferId>>
    decreases |log|
  {
    if |log| <= n then Some({})
    else
      var was, c := Held(log[..|log| - 1], n), log[|log| - 1];
      if was.None? || c.op == Acts(Release) || (c.who.Some? && c.who.value !in was.value) then None
      else if c.op.Takes? then (if Got(c) then Some(was.value + {c.op.action.id}) else was)
      else if c.op.Frees? then (if c.op.id in was.value then Some(was.value - {c.op.id}) else None)
      else was
  }

  /** Nothing is held, and no claim but its own was touched. */
  predicate Clean(log: seq<Call>, n: nat) {
    Held(log, n) == Some({})
  }

  lemma CleanNow(g: seq<Call>)
    ensures Clean(g, |g|)
  {
  }

  lemma {:induction false} CleanOn(g: seq<Call>, n: nat, h: seq<Call>)
    requires n <= |g| && g <= h && Clean(g, n)
    ensures Held(h, n) == Held(h, |g|)
    ensures Clean(h, |g|) ==> Clean(h, n)
    decreases |h|
  {
    if |h| == |g| {
      assert h == g;
    } else {
      CleanOn(g, n, h[..|h| - 1]);
    }
  }

  lemma {:induction false} HeldOn(g: seq<Call>, n: nat, h: seq<Call>, me: OfferId)
    requires n <= |g| && g <= h && Held(g, n) == Some({me}) && AllOf(h, |g|, me)
    ensures Held(h, n) == Some({me})
    decreases |h|
  {
    if |h| == |g| {
      assert h == g;
    } else {
      HeldOn(g, n, h[..|h| - 1], me);
    }
  }

  /** One call outside any claim. */
  lemma OneIdle(g: seq<Call>, c: Call)
    requires c.who.None? && (c.op.Asks? || c.op.Edits?)
    ensures Clean(g + [c], |g|)
  {
    assert (g + [c])[..|g|] == g;
  }

  lemma OneClaim(g: seq<Call>, c: Call)
    requires c.who.None? && c.op.Takes?
    ensures Held(g + [c], |g|) == Some(if Got(c) then {c.op.action.id} else {})
  {
    assert (g + [c])[..|g|] == g;
    assert {} + {c.op.action.id} == {c.op.action.id};
  }

  /** A claim, calls under it, and its release. */
  lemma Bracket(g: seq<Call>, c: Call, h: seq<Call>, d: Call)
    requires c.who.None? && c.op.Takes? && Got(c) && d.who.None? && d.op == Frees(c.op.action.id)
    requires g + [c] <= h && AllOf(h, |g| + 1, c.op.action.id)
    ensures Clean(h + [d], |g|)
  {
    OneClaim(g, c);
    HeldOn(g + [c], |g|, h, c.op.action.id);
    assert (h + [d])[..|h|] == h;
  }

  predicate NoListing(log: seq<Call>, n: nat) {
    forall i | n <= i < |log| :: log[i].op != Asks(OfferList)
  }

  // ---- what the log proves ----

  /** What a check of the n-th call reads: owners, locks and markers as it finds
      them, the rest from that call's world. */
  function FactsFrom(k: Oracle, n: nat, s: State, marked: Links, to: Account): World {
    k.world(n).(owners := s.owners, locked := s.locked,
                sites := map x | x in s.owners :: k.about(n, x),
                links := set l | l in marked && l.0 == to :: l.1)
  }

  /** So it is the store's owners and locks and the account's own markers, as they
      are when the call is made. */
  lemma FactsAre(k: Oracle, n: nat, s: State, marked: Links, to: Account)
    ensures var w := FactsFrom(k, n, s, marked, to);
            && w.owners == s.owners && w.locked == s.locked && w.sites.Keys == s.owners.Keys
            && (forall x :: x in w.links <==> (to, x) in marked)
            && (forall x | x in s.owners :: w.sites[x] == k.about(n, x))
            && w == k.world(n).(owners := w.owners, locked := w.locked, sites := w.sites, links := w.links)
  {
    var w := FactsFrom(k, n, s, marked, to);
    forall x | (to, x) in marked ensures x in w.links { assert (to, x).0 == to && (to, x).1 == x; }
  }

  /** w says of the owners and the locks what the store says. */
  ghost predicate FactsOf(w: World, s: State) {
    w.owners == s.owners && w.locked == s.locked && w.sites.Keys == w.owners.Keys
  }

  predicate Objects(w: World, from: Account, to: Account, todo: seq<Site>) {
    Check(w, from, to, todo).Known? && Check(w, from, to, todo).value.Some?
  }

  datatype Fact =
    | Unread(site: Site)                                        // the read of its owner failed
    | Cleared(from: Account, to: Account, todo: seq<Site>)      // a check of these sites was clear
    | Refused(from: Account, to: Account, todo: seq<Site>)      // or objected
    | Barred(from: Account, to: Account, todo: seq<Site>)       // but not because a site is not the sender's
    | Strayed(from: Account, to: Account, todo: seq<Site>)      // or because of that
    | Looked(site: Site)                                        // the site and its admins were read
    | Capped                                                    // the caps of a known plan were read
    | NoRecipient                                               // the recipient's account was gone
    | HasRecipient
    | Given(me: OfferId, site: Site, password: nat)             // TransferSite moved it and answered with this
    | MovedUnsaid(me: OfferId, site: Site)                      // it moved it behind an error
    | MarkedUnsaid(site: Site)                                  // so was it marked as done
    | EndedUnsaid                                               // so was the offer ended
    | Began(me: OfferId, now: Time)                             // the acceptance started
    | Halted                                                    // a call that stops a run: failed or refused

  predicate Runs(k: Oracle, c: Call, me: OfferId, op: RunOp) {
    c.who == Some(me) && c.op == Acts(op) && me in c.at.runs && Can(c.at, me, c.at.runs[me], op)
  }

  ghost predicate Tells(k: Oracle, n: nat, c: Call, f: Fact) {
    match f
    case Unread(x) => c.op == Acts(See(x)) && !k.fate(n).Works?
    case Cleared(from, to, todo) =>
      c.op == Asks(CheckFacts) && k.fate(n).Works? && Clear(FactsFrom(k, n, c.at, c.marked, to), from, to, todo)
    case Refused(from, to, todo) =>
      c.op == Asks(CheckFacts) && k.fate(n).Works? && Objects(FactsFrom(k, n, c.at, c.marked, to), from, to, todo)
    case Barred(from, to, todo) =>
      && c.op == Asks(CheckFacts) && k.fate(n).Works?
      && var w := FactsFrom(k, n, c.at, c.marked, to);
         Objects(w, from, to, todo) && Check(w, from, to, todo).value != Some(GoneKind)
    case Strayed(from, to, todo) =>
      && c.op == Asks(CheckFacts) && k.fate(n).Works?
      && Check(FactsFrom(k, n, c.at, c.marked, to), from, to, todo) == Known(Some(GoneKind))
    case Looked(x) => c.op == Asks(FormerAdmins(x)) && k.fate(n).Works? && x in c.at.owners
    case Capped => c.op == Asks(PlanCaps) && k.fate(n).Works? && !k.world(n).plan.UnknownTier?
    case NoRecipient => c.op == Asks(RecipientAccount) && k.fate(n).Works? && k.world(n).recipient.Missing?
    case HasRecipient => c.op == Asks(RecipientAccount) && k.fate(n).Works? && !k.world(n).recipient.Missing?
    case Given(me, x, password) => Runs(k, c, me, Move(x)) && k.fate(n).Works? && password == k.password(n)
    case MovedUnsaid(me, x) => Runs(k, c, me, Move(x)) && k.fate(n).Lands?
    case MarkedUnsaid(x) => c.op == Acts(MarkDone(x)) && k.fate(n).Lands?
    case EndedUnsaid => (c.op == Acts(Finish) || c.op == Acts(GiveUp)) && k.fate(n).Lands?
    case Began(me, now) => Runs(k, c, me, Begin(now)) && k.fate(n).Works?
    case Halted => Halts(k, n, c)
  }

  predicate Halts(k: Oracle, n: nat, c: Call) {
    match c.op
    case Acts(op) =>
      !op.See? && !(k.fate(n).Works? && c.who.Some? && c.who.value in c.at.runs &&
        Can(c.at, c.who.value, c.at.runs[c.who.value], op))
    case Marks(a, x, on) => on && !k.fate(n).Works?
    case Asks(q) =>
      || !k.fate(n).Works?
      || (q.FormerAdmins? && q.site !in c.at.owners)
      || (q.PlanCaps? && k.world(n).plan.UnknownTier?)
      || (q.CheckFacts? && (k.world(n).senderPlan.UnknownTier? || k.world(n).plan.UnknownTier?))
    case _ => false
  }

  /** Some call from the n-th on tells it. */
  ghost predicate Evident(k: Oracle, log: seq<Call>, n: nat, f: Fact) {
    exists i :: n <= i < |log| && Tells(k, i, log[i], f)
  }

  /** Two checks were asked for from the n-th call on. */
  ghost predicate Twice(log: seq<Call>, n: nat) {
    exists i, j :: n <= i < j < |log| && log[i].op == Asks(CheckFacts) && log[j].op == Asks(CheckFacts)
  }

  ghost predicate Once(log: seq<Call>, n: nat) {
    exists i :: n <= i < |log| && log[i].op == Asks(CheckFacts)
  }

  lemma TwiceOn(g: seq<Call>, n: nat, h: seq<Call>)
    requires g <= h && n <= |g|
    ensures Once(g, n) && Once(h, |g|) ==> Twice(h, n)
    ensures Once(h, |g|) ==> Once(h, n)
    ensures Twice(h, |g|) ==> Twice(h, n)
    ensures Twice(g, n) ==> Twice(h, n)
  {
    if i :| n <= i < |g| && g[i].op == Asks(CheckFacts) { assert h[i] == g[i]; }
    if Twice(g, n) {
      var i, j :| n <= i < j < |g| && g[i].op == Asks(CheckFacts) && g[j].op == Asks(CheckFacts);
      assert h[i] == g[i] && h[j] == g[j];
    }
  }

  lemma EvidentMore(k: Oracle, g: seq<Call>, n: nat, h: seq<Call>, m: nat, f: Fact)
    requires g <= h && m <= n
    ensures Evident(k, g, n, f) ==> Evident(k, h, m, f)
  {
    hide Tells;
    if Evident(k, g, n, f) {
      var i :| n <= i < |g| && Tells(k, i, g[i], f);
      assert h[i] == g[i];
    }
  }

  lemma EvidentAll(k: Oracle, g: seq<Call>, n: nat, h: seq<Call>, m: nat)
    requires g <= h && m <= n
    ensures forall f :: Evident(k, g, n, f) ==> Evident(k, h, m, f)
  {
    forall f { EvidentMore(k, g, n, h, m, f); }
  }

  lemma EvidentLast(k: Oracle, g: seq<Call>, c: Call, f: Fact)
    ensures Tells(k, |g|, c, f) ==> Evident(k, g + [c], |g|, f)
    ensures Evident(k, g + [c], |g|, f) ==> Tells(k, |g|, c, f)
  {
    assert (g + [c])[|g|] == c;
  }

  /** From the n-th call on nothing fails, nobody else acts, and both plans are
      known. */
  ghost predicate Quiet(k: Oracle, n: nat) {
    forall i: nat | i >= n ::
      k.fate(i).Works? && k.others(i) == [] && !k.world(i).senderPlan.UnknownTier? && !k.world(i).plan.UnknownTier?
  }

  lemma QuietOn(k: Oracle, n: nat, m: nat)
    requires n <= m
    ensures Quiet(k, n) ==> Quiet(k, m) && k.others(n) == [] && k.fate(n).Works?
  {
  }

  /** And nothing a check reads besides owners, locks and markers changes. */
  ghost predicate Steady(k: Oracle, n: nat) {
    forall i: nat | i >= n :: k.world(i) == k.world(n) && forall x :: k.about(i, x) == k.about(n, x)
  }

  /** The recipient's account is there at every call from the n-th on. */
  ghost predicate Present(k: Oracle, n: nat) {
    forall i: nat | i >= n :: !k.world(i).recipient.Missing?
  }

  /** From s to t, these sites and no other were moved by the offer. */
  ghost predicate MovedSince(s: State, t: State, me: OfferId, gone: set<Site>) {
    && (forall x :: (me, x) in t.moves <==> (me, x) in s.moves || x in gone)
    && (forall x | x in gone :: (me, x) !in s.moves)
  }

  lemma PresentOn(k: Oracle, n: nat, m: nat)
    requires n <= m
    ensures Present(k, n) ==> Present(k, m)
  {
  }

  /** The markers that changed are of these sites: the one account got some, the
      other lost some. */
  ghost predicate Relinks(was: Links, links: Links, from: Account, to: Account, sites: set<Site>) {
    forall l | (l in was) != (l in links) ::
      l.1 in sites && if l in links then l.0 == to else l.0 == from != to
  }

  lemma FactsSteady(k: Oracle, n: nat, m: nat, s: State, t: State, marked: Links, to: Account)
    requires Steady(k, n) && m >= n && t.owners == s.owners && t.locked == s.locked
    ensures FactsFrom(k, m, t, marked, to) == FactsFrom(k, n, s, marked, to)
  {
  }

  lemma QuietReads(k: Oracle, n: nat, log: seq<Call>)
    requires Quiet(k, n)
    ensures forall x :: !Evident(k, log, n, Unread(x))
  {
  }

  /** With both plans known, a check has an answer. */
  lemma CheckKnown(w: World, from: Account, to: Account, ids: seq<Site>)
    requires w.sites.Keys == w.owners.Keys
    ensures !w.senderPlan.UnknownTier? && !w.plan.UnknownTier? ==> Check(w, from, to, ids).Known?
  {
  }
}
