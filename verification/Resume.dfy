/** What a run of a started acceptance can rely on: what is left to move, whether
    it can be, and what its own steps leave of everything else. */
module Resume {
  import opened Prelude
  import opened Offers
  import opened Protocol
  import opened Safety
  import opened Theorems
  import opened Interference
  import opened AcceptCheck
  import opened Progress
  import opened Calls

  /** These sites have the account's marker and no longer the sender's. */
  ghost predicate Handed(links: Links, from: Account, to: Account, sites: set<Site>) {
    forall x | x in sites :: (to, x) in links && (from, x) !in links
  }

  /** The markers of an offer's sites go from the sender to the account, and every
      site that moved has the account's. */
  ghost predicate Linked(a: Moment, b: Moment, me: OfferId, to: Account, moved: set<Site>)
    requires me in a.st.offers
  {
    && Relinks(a.links, b.links, a.st.offers[me].from, to, Elems(a.st.offers[me].sites))
    && forall x | x in moved :: (to, x) in b.links
  }

  /** From a to b, by logged calls under its claim and everybody else, the run
      moved exactly these sites. */
  ghost predicate Steps(k: Oracle, a: Moment, b: Moment, me: OfferId, to: Account, moved: set<Site>) {
    && Leads(k, a, b) && AllOf(b.log, |a.log|, me) && Moved(a.st, b.st, me, to, moved)
    && Linked(a, b, me, to, moved) && a.st.offers[me].from != to
  }

  /** And, undisturbed, what became done was handed over with its markers. */
  ghost predicate Goes(k: Oracle, a: Moment, b: Moment, me: OfferId, to: Account, moved: set<Site>) {
    && Steps(k, a, b, me, to, moved)
    && var o, p := a.st.offers[me], b.st.offers[me];
       Quiet(k, |a.log|) ==> Handed(b.links, o.from, to, NotDone(o) - NotDone(p))
  }

  /** What a run does to markers, from one record of its offer to another: only its
      sites change theirs, from the sender's to the account's; every site that moved
      has the account's; and, undisturbed from the n-th call on, what became done
      has it and no longer the sender's. */
  ghost predicate HandsOver(k: Oracle, n: nat, o: Offer, p: Offer, was: Links, links: Links, to: Account,
                            moved: set<Site>) {
    && Relinks(was, links, o.from, to, Elems(o.sites)) && (forall x | x in moved :: (to, x) in links)
    && (Quiet(k, n) ==> Handed(links, o.from, to, NotDone(o) - NotDone(p)))
  }

  lemma GoesHands(k: Oracle, a: Moment, b: Moment, me: OfferId, to: Account, moved: set<Site>)
    requires Goes(k, a, b, me, to, moved)
    ensures me in a.st.offers && me in b.st.offers
    ensures HandsOver(k, |a.log|, a.st.offers[me], b.st.offers[me], a.links, b.links, to, moved)
  {
    hide Leads, AllOf;
  }

  lemma HandsEarlier(k: Oracle, n: nat, m: nat, o: Offer, p: Offer, was: Links, links: Links, to: Account,
                     moved: set<Site>)
    requires m <= n
    ensures HandsOver(k, n, o, p, was, links, to, moved) ==> HandsOver(k, m, o, p, was, links, to, moved)
  {
    QuietOn(k, m, n);
  }

  lemma GoesNowhere(k: Oracle, a: Moment, me: OfferId, to: Account)
    requires me in a.st.offers && a.st.offers[me].from != to
    ensures Goes(k, a, a, me, to, {})
  {
  }

  /** Steps that change neither the done sites nor the markers. */
  lemma GoesPlain(k: Oracle, a: Moment, b: Moment, me: OfferId, to: Account, moved: set<Site>)
    requires Leads(k, a, b) && AllOf(b.log, |a.log|, me) && Moved(a.st, b.st, me, to, moved)
    requires b.links == a.links && b.st.offers[me].done == a.st.offers[me].done && a.st.offers[me].from != to
    requires forall x | x in moved :: (to, x) in b.links
    ensures Goes(k, a, b, me, to, moved)
  {
    hide Leads, AllOf, Moved;
    SameSender(a.st, b.st, me, to, moved);
  }

  lemma StepsPlain(k: Oracle, a: Moment, b: Moment, me: OfferId, to: Account)
    requires Leads(k, a, b) && AllOf(b.log, |a.log|, me) && Moved(a.st, b.st, me, to, {})
    requires b.links == a.links && a.st.offers[me].from != to
    ensures Steps(k, a, b, me, to, {})
  {
    hide Leads, AllOf, Moved;
  }

  /** Steps that only change markers. */
  lemma GoesMarking(k: Oracle, a: Moment, b: Moment, me: OfferId, to: Account)
    requires Leads(k, a, b) && AllOf(b.log, |a.log|, me) && Moved(a.st, b.st, me, to, {})
    requires b.st.offers[me] == a.st.offers[me] && a.st.offers[me].from != to
    requires Relinks(a.links, b.links, a.st.offers[me].from, to, Elems(a.st.offers[me].sites))
    ensures Goes(k, a, b, me, to, {})
  {
    hide Leads, AllOf, Moved, Relinks;
  }

  lemma StepsTrans(k: Oracle, a: Moment, b: Moment, c: Moment, me: OfferId, to: Account, m: set<Site>, n: set<Site>)
    requires Steps(k, a, b, me, to, m) && Steps(k, b, c, me, to, n)
    ensures Steps(k, a, c, me, to, m + n) && a.log <= b.log <= c.log
    ensures b.st.offers[me].from == a.st.offers[me].from
  {
    SameSender(a.st, b.st, me, to, m);
    hide Moved;
    LeadsTrans(k, a, b, c);
    LeadsLog(k, a, b);
    LeadsLog(k, b, c);
    MovedTrans(a.st, b.st, c.st, me, to, m, n);
  }

  lemma StepsOn(k: Oracle, a: Moment, b: Moment, c: Moment, me: OfferId, to: Account)
    requires Goes(k, a, b, me, to, {}) && Steps(k, b, c, me, to, {})
    ensures Steps(k, a, c, me, to, {}) && a.log <= b.log <= c.log
  {
    StepsTrans(k, a, b, c, me, to, {}, {});
    var none: set<Site> := {};
    assert none + none == none;
  }

  /** What was handed over stays so. */
  lemma HandedOn(k: Oracle, b: Moment, c: Moment, me: OfferId, to: Account, n: set<Site>, sites: set<Site>)
    requires Steps(k, b, c, me, to, n) && Handed(b.links, b.st.offers[me].from, to, sites)
    ensures Handed(c.links, b.st.offers[me].from, to, sites)
  {
    hide Leads, AllOf, Moved;
  }

  lemma GoesTrans(k: Oracle, a: Moment, b: Moment, c: Moment, me: OfferId, to: Account, m: set<Site>, n: set<Site>)
    requires Goes(k, a, b, me, to, m) && Goes(k, b, c, me, to, n)
    ensures Goes(k, a, c, me, to, m + n) && a.log <= b.log <= c.log
  {
    StepsTrans(k, a, b, c, me, to, m, n);
    QuietOn(k, |a.log|, |b.log|);
    if Quiet(k, |a.log|) { HandedOn(k, b, c, me, to, n, NotDone(a.st.offers[me]) - NotDone(b.st.offers[me])); }
    hide Steps, Quiet, NotDone;
  }

  /** Steps that make a site done come after its markers changed. */
  lemma GoesDone(k: Oracle, a: Moment, b: Moment, c: Moment, me: OfferId, to: Account, m: set<Site>)
    requires Goes(k, a, b, me, to, m) && Steps(k, b, c, me, to, {})
    requires Quiet(k, |a.log|) ==>
               Handed(c.links, a.st.offers[me].from, to, NotDone(b.st.offers[me]) - NotDone(c.st.offers[me]))
    ensures Goes(k, a, c, me, to, m) && a.log <= b.log <= c.log
  {
    StepsTrans(k, a, b, c, me, to, m, {});
    assert m + {} == m;
    if Quiet(k, |a.log|) { HandedOn(k, b, c, me, to, {}, NotDone(a.st.offers[me]) - NotDone(b.st.offers[me])); }
    hide Steps, Quiet, NotDone;
  }

  lemma GoesOn(k: Oracle, a: Moment, b: Moment, c: Moment, me: OfferId, to: Account)
    requires Goes(k, a, b, me, to, {}) && Goes(k, b, c, me, to, {})
    ensures Goes(k, a, c, me, to, {}) && a.log <= b.log <= c.log
  {
    GoesTrans(k, a, b, c, me, to, {}, {});
    var none: set<Site> := {};
    assert none + none == none;
  }

  lemma GoesThen(k: Oracle, a: Moment, b: Moment, c: Moment, me: OfferId, to: Account, m: set<Site>)
    requires Goes(k, a, b, me, to, {}) && Goes(k, b, c, me, to, m)
    ensures Goes(k, a, c, me, to, m) && a.log <= b.log <= c.log
  {
    GoesTrans(k, a, b, c, me, to, {}, m);
    assert {} + m == m;
  }

  lemma GoesLast(k: Oracle, a: Moment, b: Moment, c: Moment, me: OfferId, to: Account, m: set<Site>)
    requires Goes(k, a, b, me, to, m) && Goes(k, b, c, me, to, {})
    ensures Goes(k, a, c, me, to, m) && a.log <= b.log <= c.log
  {
    GoesTrans(k, a, b, c, me, to, m, {});
    assert m + {} == m;
  }

  /** The store holds the offer as accepting, and for this account. */
  ghost predicate Accepts(s: State, me: OfferId, to: Account) {
    me in s.offers && s.offers[me].state.Accepting? && s.offers[me].acceptedBy == to
  }

  /** What is left of the bundle can be moved, or is the recipient's already. */
  ghost predicate Ready(s: State, me: OfferId, to: Account) {
    me in s.offers
    && forall x | x in NotDone(s.offers[me]) ::
         x in s.owners && (s.owners[x] == to || (s.owners[x] == s.offers[me].from && x !in s.locked))
  }

  lemma ReadyStays(s: State, t: State, me: OfferId, to: Account)
    requires Ready(s, me, to) && Still(s, t, me) && me in t.offers && t.offers[me] == s.offers[me]
    ensures Ready(t, me, to)
  {
  }

  /** No offer is accepting any more but those whose claim somebody holds. */
  ghost predicate OnlyHeld(s: State) {
    forall id | id in s.offers && s.offers[id].state.Accepting? :: id in s.runs
  }

  lemma Apart(s: State, me: OfferId, to: Account)
    requires Inv(s) && Accepts(s, me, to)
    ensures s.offers[me].from != to
  {
  }

  lemma AcceptingNames(s: State)
    requires Inv(s)
    ensures forall id | id in s.offers && s.offers[id].state.Accepting? :: s.offers[id].acceptedBy != NOBODY
  {
  }

  ghost predicate OpenAre(s: State, left: set<OfferId>, accounts: map<OfferId, Account>) {
    && (forall id | id in s.offers && s.offers[id].state.Accepting? :: id in left || id in s.runs)
    && (forall id | id in left :: id in accounts && accounts[id] != NOBODY && Accepts(s, id, accounts[id]))
  }

  /** The accepting offers, with the account of each. */
  function Acceptances(book: Book): map<OfferId, Account> {
    map id | id in book && book[id].state.Accepting? :: book[id].acceptedBy
  }

  lemma AcceptancesAre(book: Book)
    ensures forall id | id in book && book[id].state.Accepting? ::
              id in Acceptances(book) && Acceptances(book)[id] == book[id].acceptedBy
  {
  }

  lemma ListedOpen(s: State)
    requires Inv(s)
    ensures OpenAre(s, Acceptances(s.offers).Keys, Acceptances(s.offers))
  {
    AcceptingNames(s);
  }

  lemma NoneOpen(s: State, accounts: map<OfferId, Account>)
    requires OpenAre(s, {}, accounts)
    ensures OnlyHeld(s)
  {
  }

  lemma OpenIs(s: State, left: set<OfferId>, accounts: map<OfferId, Account>, id: OfferId)
    requires OpenAre(s, left, accounts) && id in left
    ensures id in accounts && accounts[id] != NOBODY && Accepts(s, id, accounts[id])
    ensures id in s.runs ==> OpenAre(s, left - {id}, accounts)
  {
  }

  ghost predicate OnlyOffer(s: State, t: State, id: OfferId) {
    t.runs.Keys == s.runs.Keys && t.offers.Keys == s.offers.Keys
    && forall i | i in s.offers && i != id :: t.offers[i] == s.offers[i]
  }

  lemma OneLess(s: State, t: State, left: set<OfferId>, accounts: map<OfferId, Account>, id: OfferId)
    requires OpenAre(s, left, accounts) && OnlyOffer(s, t, id) && id in t.offers && IsFinal(t.offers[id].state)
    ensures OpenAre(t, left - {id}, accounts) && t.runs.Keys == s.runs.Keys
  {
  }

  lemma StillOffered(s: State, id: OfferId, to: Account)
    ensures Accepts(s, id, to) ==> id in s.offers
  {
  }

  /** Only this offer changed, and its claim is released. */
  ghost predicate AndRelease(s: State, t: State, id: OfferId) {
    t.runs.Keys == s.runs.Keys - {id} && t.offers.Keys == s.offers.Keys
    && forall i | i in s.offers && i != id :: t.offers[i] == s.offers[i]
  }

  lemma RunAndRelease(s: State, t: State, id: OfferId)
    requires Alone(s, t, id) && id in t.runs
    ensures AndRelease(s, t.(runs := t.runs - {id}), id)
  {
  }

  /** What a claim of the loop changes. */
  lemma Claimed(s: State, id: OfferId, to: Account)
    ensures var t := Step(s, Action.Resume(id, to));
            && t.(runs := s.runs) == s && (id in s.runs ==> t == s) && (Accepts(t, id, to) <==> Accepts(s, id, to))
            && (to != NOBODY && id !in s.runs ==>
                  id in t.runs && t.runs[id].to == to && forall u :: AndRelease(t, u, id) ==> OnlyOffer(s, u, id))
  {
  }

  lemma StillIsAlone(s: State, t: State, u: State, me: OfferId)
    requires Alone(s, t, me) && Still(t, u, me)
    ensures Alone(s, u, me)
  {
  }

  lemma StillIs(s: State, t: State, me: OfferId)
    requires Still(s, t, me)
    ensures t.owners == s.owners && t.locked == s.locked
  {
  }

  lemma StillFirst(s: State, t: State, u: State, me: OfferId)
    requires Still(s, t, me) && Alone(t, u, me)
    ensures Alone(s, u, me)
  {
  }

  lemma LoadMoves(s: State, mid: State, t: State, me: OfferId, to: Account)
    requires Inv(mid) && Accepts(s, me, to) && Untouched(s, mid, me) && me in mid.runs
    requires t == mid || t == StepRun(mid, me, mid.runs[me], Load)
    ensures Moved(s, t, me, to, {})
  {
  }

  function Theirs(w: World, o: Offer, to: Account): set<Site> {
    set x | x in o.sites && x in w.owners && w.owners[x] == to
  }

  /** The acceptance passed its check once, and since then only its own moves
      have changed what that check read. */
  ghost predicate Interrupted(v: World, o: Offer, to: Account) {
    exists was :: Sane(was) && Clear(was, o.from, to, o.sites) &&
      AfterMoving(was, v, Elems(o.sites), Theirs(v, o, to), to)
  }

  /** Then a check of the rest is clear now, too. */
  lemma StillFits(v: World, facts: World, o: Offer, to: Account, todo: seq<Site>)
    requires Interrupted(v, o, to) && o.from != to && NoDup(o.sites)
    requires facts.(links := v.links) == v && v.links <= facts.links <= v.links + Elems(o.sites)
    requires NoDup(todo) && Elems(todo) == Elems(o.sites) - Theirs(v, o, to)
    ensures Clear(facts, o.from, to, todo)
  {
    hide Clear, Sane;
    var was :| Sane(was) && Clear(was, o.from, to, o.sites) &&
      AfterMoving(was, v, Elems(o.sites), Theirs(v, o, to), to);
    assert AfterMoving(was, facts, Elems(o.sites), Theirs(v, o, to), to);
    StillClear(was, facts, o.sites, todo, Theirs(v, o, to), o.from, to);
  }

  /** What is left to move is what is not the recipient's yet. */
  lemma RestIs(s: State, me: OfferId, to: Account, o: Offer, todo: seq<Site>)
    requires Going(s, me, to, o) && Elems(todo) == NotDone(o) && (forall x | x in todo :: NotTheirs(s, to, x))
    requires forall x | x in o.sites :: x in s.owners
    ensures Elems(todo) == set x | x in o.sites && s.owners[x] != to
  {
    AcceptedByRun(s, me, to, o);
    forall x | x in o.done ensures x in o.sites && s.owners[x] == to {
      assert Taken(me, o, s.starts[me].owners, s.moves, x);
      assert Placed(me, o, s.starts[me].owners, s.owners, s.moves, x);
    }
    assert forall x :: x in todo <==> x in Elems(todo);
  }

  lemma StillLive(v: World, o: Offer, to: Account)
    requires Interrupted(v, o, to)
    ensures !v.recipient.Missing?
  {
    var was :| Sane(was) && Clear(was, o.from, to, o.sites) &&
      AfterMoving(was, v, Elems(o.sites), Theirs(v, o, to), to);
    WhatClearMeans(was, o.from, to, o.sites);
  }

  lemma AllThere(v: World, o: Offer, to: Account)
    requires Interrupted(v, o, to)
    ensures forall x | x in o.sites :: x in v.owners
  {
    assert forall x | x in o.sites :: x in Elems(o.sites);
  }

  lemma FitsNow(s: State, me: OfferId, to: Account, o0: Offer, o: Offer, todo: seq<Site>, v: World, facts: World)
    requires Interrupted(v, o0, to) && v.owners == s.owners
    requires Going(s, me, to, o) && o.sites == o0.sites && o.from == o0.from
    requires NoDup(todo) && Elems(todo) == NotDone(o) && (forall x | x in todo :: NotTheirs(s, to, x))
    requires facts.(links := v.links) == v && v.links <= facts.links <= v.links + Elems(o.sites)
    ensures Clear(facts, o.from, to, todo)
  {
    hide Inv, Clear, Interrupted;
    AcceptedByRun(s, me, to, o);
    AllThere(v, o0, to);
    RestIs(s, me, to, o, todo);
    StillFits(v, facts, o0, to, todo);
  }

  /** A clear check leaves every site movable. */
  lemma ClearMovable(w: World, s: State, from: Account, to: Account, todo: seq<Site>)
    requires FactsOf(w, s) && Clear(w, from, to, todo)
    ensures Movable(s, from, todo)
  {
    WhatClearMeans(w, from, to, todo);
    assert forall x | x in todo :: x in Elems(todo);
  }

  lemma ReadyMovable(s: State, t: State, me: OfferId, to: Account, o: Offer, todo: seq<Site>)
    requires Ready(s, me, to) && Moved(s, t, me, to, {})
    requires Still(s, t, me) && Going(t, me, to, o) && Elems(todo) == NotDone(o)
    requires forall x | x in todo :: NotTheirs(t, to, x)
    ensures Movable(t, o.from, todo)
  {
    assert forall x | x in todo :: x in Elems(todo);
  }
}
