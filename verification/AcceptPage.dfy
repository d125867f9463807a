/** The accept of a bundle (handleTakeoverAccept), from the recipient's POST to
    the page that answers it. */
module AcceptPage {
  import opened Prelude
  import opened Offers
  import opened Protocol
  import opened Safety
  import opened Theorems
  import opened Interference
  import opened AcceptCheck
  import opened Progress
  import opened Calls
  import opened Resume
  import opened Completion

  /** The result page: the sites that are the recipient's now, with the new
      password of each that this accept moved, those still moving, and those
      left with the sender. */
  datatype Page = Page(sites: seq<(Site, Option<nat>)>, pending: seq<Site>, stayed: seq<Site>)

  datatype Reply = NotFound | NotOpen | OutsideDates | Changed | Busy | Unavailable | Refuse(why: Refusal)
    | Result(page: Page)

  function Listed(sites: seq<(Site, Option<nat>)>): set<Site> {
    set m | m in sites :: m.0
  }

  /** Every site of the offer is on the page once, in the right part; a
      password is shown for exactly the sites this run moved, and it is theirs. */
  ghost predicate Truthful(page: Page, o: Offer, moved: seq<(Site, nat)>) {
    && |page.sites| + |page.pending| + |page.stayed| == |o.sites|
    && Listed(page.sites) == Elems(o.sites) * (Elems(o.done) + Ids(moved))
    && Elems(page.pending) + Elems(page.stayed) == Elems(o.sites) - Elems(o.done) - Ids(moved)
    && (if o.state.Accepting? then page.stayed == [] else page.pending == [])
    && forall m | m in page.sites ::
         (m.1.Some? <==> m.0 in Ids(moved)) && (m.1.Some? ==> (m.0, m.1.value) in moved)
  }

  lemma ListedAppend(s: seq<(Site, Option<nat>)>, m: (Site, Option<nat>))
    ensures Listed(s + [m]) == Listed(s) + {m.0}
  {
    forall x ensures x in Listed(s + [m]) <==> x in Listed(s) + {m.0} {
      if x in Listed(s) {
        var k :| k in s && k.0 == x;
        assert k in s + [m];
      } else if x == m.0 {
        assert m in s + [m];
      }
    }
  }

  method Password(moved: seq<(Site, nat)>, x: Site) returns (pw: Option<nat>)
    ensures pw.Some? <==> x in Ids(moved)
    ensures pw.Some? ==> (x, pw.value) in moved
  {
    pw := None;
    for i := 0 to |moved|
      invariant pw.Some? <==> exists k | 0 <= k < i :: moved[k].0 == x
      invariant pw.Some? ==> (x, pw.value) in moved
    {
      if moved[i].0 == x { pw := Some(moved[i].1); }
    }
  }

  method Render(o: Offer, moved: seq<(Site, nat)>) returns (page: Page)
    ensures Truthful(page, o, moved)
  {
    var sites, pending, stayed := [], [], [];
    for i := 0 to |o.sites|
      invariant Truthful(Page(sites, pending, stayed), o.(sites := o.sites[..i]), moved)
    {
      var x := o.sites[i];
      assert o.sites[..i + 1] == o.sites[..i] + [x];
      ElemsAppend(o.sites[..i], [x]);
      assert Elems([x]) == {x};
      var pw := Password(moved, x);
      if x !in o.done && pw.None? {
        if o.state.Accepting? {
          ElemsAppend(pending, [x]);
          pending := pending + [x];
        } else {
          ElemsAppend(stayed, [x]);
          stayed := stayed + [x];
        }
      } else {
        ListedAppend(sites, (x, pw));
        sites := sites + [(x, pw)];
      }
    }
    assert o.sites[..|o.sites|] == o.sites;
    return Page(sites, pending, stayed);
  }

  /** What the recipient's POST is about: an offer made to its verified
      address, open, within its dates, with exactly the bundle it posted. */
  predicate Acceptable(o: Offer, account: Account, email: Email, posted: seq<Site>, now: Time) {
    account != o.from && account != NOBODY && email == o.toEmail && o.state.Open? && InWindow(o, now) &&
      SameSites(posted, o.sites)
  }

  predicate Askable(s: State, me: OfferId, account: Account, email: Email, posted: seq<Site>, now: Time) {
    me in s.offers && Acceptable(s.offers[me], account, email, posted, now) && me !in s.runs
  }

  /** The answer to a POST that is not acceptable: of an offer that is not the
      account's to accept as little as of one that is not there. */
  function FirstObjection(s: State, me: OfferId, account: Account, email: Email, posted: seq<Site>, now: Time):
      Option<Reply> {
    if me !in s.offers || account == NOBODY || account == s.offers[me].from || email != s.offers[me].toEmail
    then Some(NotFound)
    else if !s.offers[me].state.Open? then Some(NotOpen)
    else if now > s.offers[me].acceptBy
            || (s.offers[me].availableFrom.Some? && now < s.offers[me].availableFrom.value) then Some(OutsideDates)
    else if Elems(posted) != Elems(s.offers[me].sites) then Some(Changed)
    else if me in s.runs then Some(Busy) else None
  }

  /** handleTakeoverAccept up to the claim: nothing is written. */
  method Ask(srv: Server, me: OfferId, account: Account, email: Email, posted: seq<Site>, now: Time)
    returns (no: Option<Reply>)
    requires Inv(srv.st)
    modifies srv
    ensures Inv(srv.st) && Leads(srv.k, old(srv.Now()), srv.Now()) && srv.links == old(srv.links)
    ensures srv.log == old(srv.log) + [Call(None, Asks(OfferList), srv.st, srv.links)]
    ensures Clean(srv.log, |old(srv.log)|)
    ensures no.None? <==> srv.k.fate(|old(srv.log)|).Works? && Askable(srv.st, me, account, email, posted, now)
    ensures no.Some? ==> !no.value.Result?
    ensures srv.k.fate(|old(srv.log)|).Works? ==> no == FirstObjection(srv.st, me, account, email, posted, now)
    ensures Quiet(srv.k, |old(srv.log)|) ==> srv.st == old(srv.st)
  {
    var read := srv.Idle(OfferList);
    if !read || me !in srv.st.offers { return Some(NotFound); }
    var o := srv.st.offers[me];
    if account == o.from || account == NOBODY || email != o.toEmail { return Some(NotFound); }
    if !o.state.Open? { return Some(NotOpen); }
    if !InWindow(o, now) { return Some(OutsideDates); }
    if !SameSites(posted, o.sites) { return Some(Changed); }
    if me in srv.st.runs { return Some(Busy); }
    no := None;
  }

  /** pauseOffer: best effort. */
  method PauseOffer(srv: Server, me: OfferId)
    requires Inv(srv.st) && me in srv.st.runs
    modifies srv
    ensures Inv(srv.st) && me in srv.st.runs && srv.st.runs[me] == old(srv.st).runs[me]
    ensures Leads(srv.k, old(srv.Now()), srv.Now()) && srv.links == old(srv.links)
    ensures old(srv.log) < srv.log && |srv.log| == |old(srv.log)| + 1 && srv.log[|old(srv.log)|].op == Edits(me, Pause)
    ensures AllOf(srv.log, |old(srv.log)|, me)
    ensures Quiet(srv.k, |old(srv.log)|) ==> srv.st == StepEdit(old(srv.st), me, Pause)
  {
    hide Inv, Env;
    var n := |srv.log|;
    srv.Others(srv.st, me, n);
    srv.InEnv(srv.st, me, n);
    var found := Env(srv.st, me, srv.k.others(n));
    OneOf(srv.log, Call(Some(me), Edits(me, Pause), found, srv.links), me);
    srv.log := srv.log + [Call(Some(me), Edits(me, Pause), found, srv.links)];
    if srv.k.fate(n).Fails? {
      srv.st := found;
    } else {
      EveryStep(found, Edit(me, Pause));
      srv.st := Step(found, Edit(me, Pause));
    }
    LeadsOne(srv.k, old(srv.Now()), srv.Now());
  }

  /** What the answer of a check makes of an accept. */
  function ReplyTo(answer: Answer<Option<Refusal>>): Option<Reply> {
    if answer.Unknown? then Some(Unavailable) else if answer.value.None? then None else Some(Refuse(answer.value.value))
  }

  /** The checks, under the claim: it goes ahead exactly if they could be made and
      were clear, and refuses exactly what they refuse. A host conflict also pauses
      the offer; nothing else is written. */
  method Recheck(srv: Server, me: OfferId, account: Account, o: Offer) returns (no: Option<Reply>)
    requires Inv(srv.st) && me in srv.st.runs
    modifies srv
    ensures Inv(srv.st) && me in srv.st.runs && srv.st.runs[me] == old(srv.st).runs[me]
    ensures Leads(srv.k, old(srv.Now()), srv.Now()) && srv.links == old(srv.links) && old(srv.log) < srv.log
    ensures AllOf(srv.log, |old(srv.log)|, me)
    ensures var n := |old(srv.log)|;
            var c := srv.log[n];
            && c.op == Asks(CheckFacts)
            && no == (if !srv.k.fate(n).Works? then Some(Unavailable)
                      else ReplyTo(Check(FactsFrom(srv.k, n, c.at, c.marked, account), o.from, account, o.sites)))
            && (if no == Some(Refuse(HostKind)) then |srv.log| == n + 2 && srv.log[n + 1].op == Edits(me, Pause)
                else |srv.log| == n + 1 && srv.st == c.at)
    ensures no.None? ==> Evident(srv.k, srv.log, |old(srv.log)|, Cleared(o.from, account, o.sites))
    ensures no.Some? ==> no.value.Unavailable? || no.value.Refuse?
    ensures Quiet(srv.k, |old(srv.log)|) ==>
              srv.st == if no == Some(Refuse(HostKind)) then StepEdit(old(srv.st), me, Pause) else old(srv.st)
    ensures Quiet(srv.k, |old(srv.log)|) && no == Some(Refuse(HostKind)) && me in old(srv.st).offers ==>
              var was := old(srv.st).offers[me];
              srv.st == old(srv.st).(offers :=
                old(srv.st).offers[me := if was.state.Open? then was.(state := Paused) else was])
    ensures Quiet(srv.k, |old(srv.log)|) ==>
              no == ReplyTo(Check(old(srv.Facts(|srv.log|, account)), o.from, account, o.sites))
  {
    hide Inv, Leads, AllOf, Check;
    var n := |srv.log|;
    var read := srv.Ask(me, CheckFacts);
    var facts := srv.Facts(n, account);
    var answer := Check(facts, o.from, account, o.sites);
    ghost var c := srv.log[n];
    EvidentLast(srv.k, old(srv.log), c, Cleared(o.from, account, o.sites));
    no := if !read then Some(Unavailable) else ReplyTo(answer);
    if no == Some(Refuse(HostKind)) {
      if me in srv.st.offers { WhenEditsTake(srv.st, me, Pause); }
      ghost var a := srv.Now();
      PauseOffer(srv, me);
      LeadsTrans(srv.k, old(srv.Now()), a, srv.Now());
      AllOfTrans(a.log, n, srv.log, me);
    }
  }

  /** The one state change that decides every race: it happens exactly if the
      offer is open, in its dates and the posted bundle when the call reaches it,
      and is answered with success. */
  method Commit(srv: Server, me: OfferId, account: Account, now: Time) returns (no: Option<Reply>)
    requires Inv(srv.st) && me in srv.st.runs && srv.st.runs[me].to == account
    modifies srv
    ensures Inv(srv.st) && me in srv.st.runs && srv.st.runs[me].to == account
    ensures Leads(srv.k, old(srv.Now()), srv.Now()) && srv.links == old(srv.links)
    ensures AllOf(srv.log, |old(srv.log)|, me)
    ensures var n := |old(srv.log)|;
            && old(srv.log) < srv.log && |srv.log| == n + 1
            && (no.None? <==> Tells(srv.k, n, srv.log[n], Began(me, now)))
            && srv.log[n].op == Acts(Begin(now)) && me in srv.log[n].at.runs &&
               srv.log[n].at.runs[me] == old(srv.st).runs[me]
            && srv.st == (if srv.k.fate(n).Fails? then srv.log[n].at
                          else StepRun(srv.log[n].at, me, srv.log[n].at.runs[me], Begin(now)))
    ensures no.None? ==>
              && Accepts(srv.st, me, account)
              && srv.st == StepRun(srv.log[|old(srv.log)|].at, me, srv.log[|old(srv.log)|].at.runs[me], Begin(now))
    ensures no.Some? ==> no.value.Unavailable? || no.value.NotOpen? || no.value.Changed?
    ensures no.Some? ==>
              var n := |old(srv.log)|;
              var at := srv.log[n].at;
              no.value == if !srv.k.fate(n).Works? || me !in at.offers then Unavailable
                          else if !at.offers[me].state.Open? then NotOpen else Changed
    ensures Quiet(srv.k, |old(srv.log)|) ==>
              && (no.None? <==> Can(old(srv.st), me, old(srv.st).runs[me], Begin(now)))
              && srv.st == StepRun(old(srv.st), me, old(srv.st).runs[me], Begin(now))
  {
    hide Inv, Leads, AllOf;
    var f := srv.k.fate(|srv.log|);
    var ok;
    ghost var mid;
    ok, mid := srv.Do(me, Begin(now));
    if ok { return None; }
    no := Some(if !f.Works? || me !in srv.st.offers then Unavailable
               else if !srv.st.offers[me].state.Open? then NotOpen else Changed);
  }

  /** An acceptance has just started, and every site is the sender's and free
      to move. */
  ghost predicate Untaken(s: State, me: OfferId, to: Account) {
    && Accepts(s, me, to) && Ready(s, me, to) && me in s.starts && s.starts[me].owners == s.owners
    && forall x | x in s.offers[me].sites :: x in s.owners && s.owners[x] == s.offers[me].from
  }

  /** When an acceptance starts with every site the sender's and ends with
      every site done, it moved every site. */
  lemma AllMoved(s: State, t: State, me: OfferId, to: Account, gone: set<Site>)
    requires Inv(s) && Inv(t) && Untaken(s, me, to) && Moved(s, t, me, to, gone)
    requires NotDone(t.offers[me]) == {}
    ensures Elems(s.offers[me].sites) <= gone
  {
    forall x | x in Elems(s.offers[me].sites) ensures x in gone {
      NotMovedYet(s, me, x);
      assert x in Elems(t.offers[me].sites) - NotDone(t.offers[me]);
      assert Taken(me, t.offers[me], t.starts[me].owners, t.moves, x);
    }
  }

  /** A clear check leaves every site movable once the acceptance starts. */
  lemma ClearIsReady(s: State, w: World, me: OfferId, account: Account, now: Time)
    requires Inv(s) && me in s.runs && s.runs[me].to == account && Can(s, me, s.runs[me], Begin(now))
    requires FactsOf(w, s) && Clear(w, s.offers[me].from, account, s.offers[me].sites)
    ensures var t := StepRun(s, me, s.runs[me], Begin(now));
            Untaken(t, me, account) && t.offers[me].sites == s.offers[me].sites && t.owners == s.owners &&
              t.locked == s.locked
  {
    WhatClearMeans(w, s.offers[me].from, account, s.offers[me].sites);
    assert forall x | x in s.offers[me].sites :: x in Elems(s.offers[me].sites);
  }

  /** A page is true to the log and the store: its offer is the stored record, at
      most one unanswered write behind; its passwords are those TransferSite
      answered with; and the sites listed as moved are those that moved since the
      acceptance began, but for at most one whose answer was an error. */
  ghost predicate Honest(k: Oracle, log: seq<Call>, n: nat, me: OfferId, page: Page, shown: Offer, stored: Offer,
                         moved: seq<(Site, nat)>, gone: set<Site>) {
    && Truthful(page, shown, moved) && Shown(k, log, n, shown, stored, Ids(moved))
    && AllGiven(k, log, n, me, moved) && AllTold(k, log, n, me, moved, gone)
  }

  lemma HonestOn(k: Oracle, g: seq<Call>, n: nat, h: seq<Call>, m: nat, me: OfferId, page: Page, shown: Offer,
                 stored: Offer,
                 moved: seq<(Site, nat)>, gone: set<Site>)
    requires Honest(k, g, n, me, page, shown, stored, moved, gone) && g <= h && m <= n
    ensures Honest(k, h, m, me, page, shown, stored, moved, gone)
  {
    hide Evident, Truthful;
    EvidentAll(k, g, n, h, m);
  }

  /** What the claimed part of an accept answers when the store holds still. */
  ghost predicate AllYours(reply: Reply, posted: seq<Site>, moved: seq<(Site, nat)>) {
    && reply.Result? && reply.page.pending == reply.page.stayed == []
    && Listed(reply.page.sites) == Elems(posted) <= Ids(moved)
  }

  /** The markers of the offer's sites went from its sender to the account, and
      every site that moved has the account's. */
  ghost predicate Markers(was: Links, links: Links, shown: Offer, account: Account, gone: set<Site>) {
    Relinks(was, links, shown.from, account, Elems(shown.sites)) && forall x | x in gone :: (account, x) in links
  }

  /** At the start of an acceptance nothing is done. */
  lemma NothingDone(s: State, me: OfferId, to: Account)
    requires Inv(s) && Untaken(s, me, to)
    ensures NotDone(s.offers[me]) == Elems(s.offers[me].sites)
  {
    forall x | x in s.offers[me].sites ensures x !in s.offers[me].done { NotMovedYet(s, me, x); }
  }

  /** The moves and the page. */
  method Deliver(srv: Server, me: OfferId, account: Account)
    returns (page: Page, ghost shown: Offer, ghost moved: seq<(Site, nat)>, ghost gone: set<Site>)
    requires Inv(srv.st) && me in srv.st.runs && srv.st.runs[me].to == account && Accepts(srv.st, me, account)
    modifies srv
    ensures Inv(srv.st) && me in srv.st.runs && Leads(srv.k, old(srv.Now()), srv.Now()) && old(srv.log) < srv.log
    ensures AllOf(srv.log, |old(srv.log)|, me)
    ensures me in srv.st.offers && MovedSince(old(srv.st), srv.st, me, gone)
    ensures srv.st.offers[me].sites == old(srv.st).offers[me].sites
    ensures Honest(srv.k, srv.log, |old(srv.log)|, me, page, shown, srv.st.offers[me], moved, gone)
    ensures Markers(old(srv.links), srv.links, shown, account, gone)
    ensures Quiet(srv.k, |old(srv.log)|) && Present(srv.k, |old(srv.log)|) && Untaken(old(srv.st), me, account) ==>
              Handed(srv.links, old(srv.st).offers[me].from, account, Elems(old(srv.st).offers[me].sites))
    ensures Quiet(srv.k, |old(srv.log)|) && Present(srv.k, |old(srv.log)|) && Untaken(old(srv.st), me, account) ==>
              AllYours(Result(page), old(srv.st).offers[me].sites, moved)
  {
    hide Inv, Leads, AllOf, Linked, Handed, Relinks, Evident;
    var started := srv.st.offers[me];
    var run, stayed, ok;
    run, stayed, ok, gone := srv.RunAccepting(me, account, false);
    GoesHands(srv.k, old(srv.Now()), srv.Now(), me, account, gone);
    var last := if run.offer.Some? then run.offer.value else started;
    shown, moved := last, run.moved;
    page := Render(last, run.moved);
    if run.offer.None? {
      SameShown(srv.k, srv.log, |old(srv.log)|, started);
      ShownWider(srv.k, srv.log, |old(srv.log)|, started, srv.st.offers[me], {}, Ids(moved));
    }
    if Quiet(srv.k, |old(srv.log)|) && Present(srv.k, |old(srv.log)|) && Untaken(old(srv.st), me, account) {
      AllMoved(old(srv.st), srv.st, me, account, gone);
      assert NotDone(last) == {};
      NothingDone(old(srv.st), me, account);
      ghost var all := NotDone(started);
      assert NotDone(srv.st.offers[me]) == {} && all - {} == all;
      assert Elems(page.pending) + Elems(page.stayed) == {};
      NoElems(page.pending);
      NoElems(page.stayed);
    }
  }

  /** No site was moved. */
  ghost predicate NoMoves(log: seq<Call>, n: nat) {
    forall i | n <= i < |log| :: !(log[i].op.Acts? && log[i].op.op.Move?)
  }

  /** The b-th call started the acceptance, after a clear check of the sites, and
      what the page says is what came of it, from there to the end. */
  ghost predicate Told(k: Oracle, log: seq<Call>, n: nat, b: nat, s: State, me: OfferId, from: Account,
                       account: Account, sites: seq<Site>, now: Time, page: Page, shown: Offer,
                       moved: seq<(Site, nat)>, gone: set<Site>) {
    && n <= b < |log| && Tells(k, b, log[b], Began(me, now)) && Evident(k, log[..b], n, Cleared(from, account, sites))
    && SameSites(sites, shown.sites)
    && me in s.offers && MovedSince(log[b].at, s, me, gone)
    && Honest(k, log, n, me, page, shown, s.offers[me], moved, gone)
  }

  /** Everything about an accept that is about to be checked. */
  ghost predicate Claims(s: State, me: OfferId, account: Account, o: Offer) {
    && Inv(s) && me in s.runs && s.runs[me].to == account
    && s.runs[me].posted.Some? && SameSites(s.runs[me].posted.value, o.sites)
  }

  /** Undisturbed, with a check that is clear as things are. */
  ghost predicate GoesWell(srv: Server, me: OfferId, account: Account, o: Offer, now: Time)
    reads srv
  {
    && Quiet(srv.k, |srv.log|) && Present(srv.k, |srv.log|)
    && me in srv.st.runs && me in srv.st.offers && srv.st.offers[me] == o &&
       Can(srv.st, me, srv.st.runs[me], Begin(now))
    && Clear(srv.Facts(|srv.log|, account), o.from, account, o.sites)
  }

  lemma TellsAll(k: Oracle, n: nat, a: Moment, c: Moment, log: seq<Call>, s: State, me: OfferId, account: Account,
                 o: Offer,
                 now: Time, page: Page, shown: Offer, moved: seq<(Site, nat)>, gone: set<Site>)
    requires n <= |a.log| && a.log < c.log <= log && |c.log| == |a.log| + 1
    requires Evident(k, a.log, n, Cleared(o.from, account, o.sites))
    requires Tells(k, |a.log|, c.log[|a.log|], Began(me, now))
    requires c.st == StepRun(c.log[|a.log|].at, me, c.log[|a.log|].at.runs[me], Begin(now))
    requires c.log[|a.log|].at.runs[me].posted.Some? && SameSites(c.log[|a.log|].at.runs[me].posted.value, o.sites)
    requires me in c.st.offers && me in s.offers
    requires s.offers[me].sites == c.st.offers[me].sites && MovedSince(c.st, s, me, gone)
    requires Honest(k, log, |c.log|, me, page, shown, s.offers[me], moved, gone)
    ensures Told(k, log, n, |a.log|, s, me, o.from, account, o.sites, now, page, shown, moved, gone)
  {
    hide Evident, Truthful, AllGiven, AllTold;
    assert log[..|a.log|] == a.log && log[|a.log|] == c.log[|a.log|];
    HonestOn(k, log, |c.log|, log, n, me, page, shown, s.offers[me], moved, gone);
  }

  /** What an undisturbed start leaves. */
  lemma StartsWell(k: Oracle, n: nat, s: State, links: Links, me: OfferId, account: Account, o: Offer, now: Time)
    requires Inv(s) && me in s.runs && s.runs[me].to == account && me in s.offers && s.offers[me] == o
    requires Can(s, me, s.runs[me], Begin(now)) && Clear(FactsFrom(k, n, s, links, account), o.from, account, o.sites)
    ensures ReplyTo(Check(FactsFrom(k, n, s, links, account), o.from, account, o.sites)).None?
    ensures var t := StepRun(s, me, s.runs[me], Begin(now)); 
            Untaken(t, me, account) && t.offers[me].sites == o.sites && t.offers[me].from == o.from
  {
    ClearIsReady(s, FactsFrom(k, n, s, links, account), me, account, now);
  }

  /** From the claim to its release. */
  method Claimed(srv: Server, me: OfferId, account: Account, o: Offer, now: Time)
    returns (reply: Reply, ghost b: nat, ghost shown: Offer, ghost moved: seq<(Site, nat)>, ghost gone: set<Site>)
    requires Claims(srv.st, me, account, o)
    modifies srv
    ensures Inv(srv.st) && me in srv.st.runs && Leads(srv.k, old(srv.Now()), srv.Now()) && old(srv.log) <= srv.log
    ensures AllOf(srv.log, |old(srv.log)|, me)
    ensures !reply.Result? ==> NoMoves(srv.log, |old(srv.log)|)
    ensures reply.Result? ==>
              Told(srv.k, srv.log, |old(srv.log)|, b, srv.st, me, o.from, account, o.sites, now,
                reply.page, shown, moved, gone)
    ensures if reply.Result? then Markers(old(srv.links), srv.links, shown, account, gone)
            else srv.links == old(srv.links)
    ensures old(GoesWell(srv, me, account, o, now)) ==> Handed(srv.links, o.from, account, Elems(o.sites))
    ensures old(GoesWell(srv, me, account, o, now)) ==> AllYours(reply, o.sites, moved)
  {
    hide Inv, Leads, AllOf, Markers, Handed, Evident, Told, AllYours, Untaken, Check, Tells, Can, StepRun, FactsFrom,
      ReplyTo, Honest, MovedSince, Clear, Quiet, Present;
    b, shown, moved, gone := |srv.log|, o, [], {};
    ghost var s0, well := srv.st, GoesWell(srv, me, account, o, now);
    QuietOn(srv.k, |srv.log|, |srv.log| + 1);
    QuietOn(srv.k, |srv.log|, |srv.log| + 2);
    PresentOn(srv.k, |srv.log|, |srv.log| + 2);
    if well { StartsWell(srv.k, |srv.log|, srv.st, srv.links, me, account, o, now); }
    var no := Recheck(srv, me, account, o);
    if no.Some? { return no.value, b, shown, moved, gone; }
    ghost var a := srv.Now();
    b := |srv.log|;
    no := Commit(srv, me, account, now);
    LeadsTrans(srv.k, old(srv.Now()), a, srv.Now());
    AllOfTrans(a.log, |old(srv.log)|, srv.log, me);
    if no.Some? { return no.value, b, shown, moved, gone; }
    ghost var c := srv.Now();
    var page;
    page, shown, moved, gone := Deliver(srv, me, account);
    LeadsTrans(srv.k, old(srv.Now()), c, srv.Now());
    LeadsLog(srv.k, c, srv.Now());
    AllOfTrans(c.log, |old(srv.log)|, srv.log, me);
    TellsAll(srv.k, |old(srv.log)|, a, c, srv.log, srv.st, me, account, o, now, page, shown, moved, gone);
    reply := Result(page);
  }

  lemma NoMovesOn(g: seq<Call>, n: nat, h: seq<Call>)
    requires n <= |g| && g <= h && NoMoves(g, n) && NoMoves(h, |g|)
    ensures NoMoves(h, n)
  {
  }

  lemma ToldOn(k: Oracle, g: seq<Call>, n: nat, h: seq<Call>, m: nat, b: nat, s: State, t: State, me: OfferId,
               from: Account,
               account: Account, sites: seq<Site>, now: Time, page: Page, shown: Offer,
               moved: seq<(Site, nat)>, gone: set<Site>)
    requires g <= h && m <= n && t.offers == s.offers && t.moves == s.moves
    requires Told(k, g, n, b, s, me, from, account, sites, now, page, shown, moved, gone)
    ensures Told(k, h, m, b, t, me, from, account, sites, now, page, shown, moved, gone)
  {
    hide Evident, Honest, Tells;
    HonestOn(k, g, n, h, m, me, page, shown, s.offers[me], moved, gone);
    assert h[..b] == g[..b] && h[b] == g[b];
    EvidentMore(k, g[..b], n, g[..b], m, Cleared(from, account, sites));
  }

  /** Undisturbed from before the question on, with a check that is clear. */
  ghost predicate AllWell(srv: Server, me: OfferId, account: Account, email: Email, posted: seq<Site>, now: Time)
    reads srv
  {
    && Quiet(srv.k, |srv.log|) && Steady(srv.k, |srv.log|) && Askable(srv.st, me, account, email, posted, now)
    && Clear(srv.Facts(|srv.log|, account), srv.st.offers[me].from, account, srv.st.offers[me].sites)
  }

  /** Then all is well at the claim, too. */
  lemma StillWell(k: Oracle, n: nat, m: nat, s: State, links: Links, me: OfferId, account: Account, email: Email,
                  posted: seq<Site>, now: Time)
    requires n <= m && Quiet(k, n) && Steady(k, n) && Askable(s, me, account, email, posted, now)
    requires Clear(FactsFrom(k, n, s, links, account), s.offers[me].from, account, s.offers[me].sites)
    ensures var t := Step(s, Protocol.Claim(me, account, email, posted));
            && Quiet(k, m) && Present(k, m)
            && me in t.runs && me in t.offers && t.offers[me] == s.offers[me] && Can(t, me, t.runs[me], Begin(now))
            && Clear(FactsFrom(k, m, t, links, account), t.offers[me].from, account, t.offers[me].sites)
  {
    var t := Step(s, Protocol.Claim(me, account, email, posted));
    FactsSteady(k, n, m, s, t, links, account);
    WhatClearMeans(FactsFrom(k, n, s, links, account), s.offers[me].from, account, s.offers[me].sites);
    assert k.world(n).recipient.Live?;
  }

  /** And with its release. */
  method Through(srv: Server, me: OfferId, account: Account, o: Offer, now: Time)
    returns (reply: Reply, ghost b: nat, ghost shown: Offer, ghost moved: seq<(Site, nat)>, ghost gone: set<Site>)
    requires Claims(srv.st, me, account, o)
    modifies srv
    ensures Inv(srv.st) && Leads(srv.k, old(srv.Now()), srv.Now()) && old(srv.log) < srv.log
    ensures AllOf(srv.log[..|srv.log| - 1], |old(srv.log)|, me)
    ensures srv.log[|srv.log| - 1].who.None? && srv.log[|srv.log| - 1].op == Frees(me)
    ensures !reply.Result? ==> NoMoves(srv.log, |old(srv.log)|)
    ensures reply.Result? ==>
              Told(srv.k, srv.log, |old(srv.log)|, b, srv.st, me, o.from, account, o.sites, now,
                reply.page, shown, moved, gone)
    ensures if reply.Result? then Markers(old(srv.links), srv.links, shown, account, gone)
            else srv.links == old(srv.links)
    ensures old(GoesWell(srv, me, account, o, now)) ==> Handed(srv.links, o.from, account, Elems(o.sites))
    ensures old(GoesWell(srv, me, account, o, now)) ==> AllYours(reply, o.sites, moved)
  {
    hide Inv, Leads, AllOf, Markers, Handed, Told, AllYours, GoesWell, NoMoves;
    ghost var n := |srv.log|;
    reply, b, shown, moved, gone := Claimed(srv, me, account, o, now);
    ghost var d := srv.Now();
    srv.Free(me);
    assert srv.log[..|srv.log| - 1] == d.log;
    LeadsTrans(srv.k, old(srv.Now()), d, srv.Now());
    if reply.Result? {
      ToldOn(srv.k, d.log, n, srv.log, n, b, d.st, srv.st, me, o.from, account, o.sites, now,
        reply.page, shown, moved, gone);
    } else {
      Quietly(d.log, srv.log);
      NoMovesOn(d.log, n, srv.log);
    }
  }

  lemma WellOn(k: Oracle, n: nat, s: State, links: Links, account: Account)
    requires Quiet(k, n) && Steady(k, n)
    ensures Quiet(k, n + 1) && Steady(k, n + 1)
    ensures FactsFrom(k, n + 1, s, links, account) == FactsFrom(k, n, s, links, account)
  {
    FactsSteady(k, n, n + 1, s, s, links, account);
  }

  /** The accept from its claim to the release of it. */
  method Answer(srv: Server, me: OfferId, account: Account, email: Email, posted: seq<Site>, now: Time)
    returns (reply: Reply, ghost b: nat, ghost shown: Offer, ghost moved: seq<(Site, nat)>, ghost gone: set<Site>)
    requires Inv(srv.st) && Askable(srv.st, me, account, email, posted, now)
    modifies srv
    ensures Inv(srv.st) && Leads(srv.k, old(srv.Now()), srv.Now()) && old(srv.log) <= srv.log
    ensures Clean(srv.log, |old(srv.log)|)
    ensures !reply.Result? ==> NoMoves(srv.log, |old(srv.log)|)
    ensures reply.Result? ==>
              var o := old(srv.st).offers[me];
              && o.from == shown.from
              && Told(srv.k, srv.log, |old(srv.log)|, b, srv.st, me, o.from, account, o.sites,
                 now, reply.page, shown, moved, gone)
    ensures if reply.Result? then Markers(old(srv.links), srv.links, shown, account, gone)
            else srv.links == old(srv.links)
    ensures old(AllWell(srv, me, account, email, posted, now)) ==>
              Handed(srv.links, old(srv.st).offers[me].from, account, Elems(posted))
    ensures old(AllWell(srv, me, account, email, posted, now)) ==> AllYours(reply, posted, moved)
  {
    hide Inv, Leads, Markers, Handed, AllOf, Clean, Told, AllYours, Clear, FactsFrom, Can, NoMoves, InWindow;
    b, moved, gone, shown := 0, [], {}, Offer([], 0, 0, None, 0, Open, [], 0);
    ghost var n := |srv.log|;
    var offer := srv.st.offers[me];
    ghost var a := srv.Now();
    if AllWell(srv, me, account, email, posted, now) {
      StillWell(srv.k, n, n + 1, srv.st, srv.links, me, account, email, posted, now);
    }
    var got := srv.Claim(me, Protocol.Claim(me, account, email, posted));
    Quietly(a.log, srv.log);
    if !got { return Busy, b, shown, moved, gone; }
    if me !in srv.st.runs { return Unavailable, b, shown, moved, gone; }
    ghost var c := srv.Now();
    reply, b, shown, moved, gone := Through(srv, me, account, offer, now);
    LeadsTrans(srv.k, a, c, srv.Now());
    assert srv.log == srv.log[..|srv.log| - 1] + [srv.log[|srv.log| - 1]];
    Bracket(a.log, c.log[n], srv.log[..|srv.log| - 1], srv.log[|srv.log| - 1]);
    YoursFor(reply, offer.sites, posted, moved);
    if reply.Result? {
      ToldOn(srv.k, srv.log, |c.log|, srv.log, n, b, srv.st, srv.st, me, offer.from, account, offer.sites,
        now, reply.page, shown, moved, gone);
      TheirOffer(srv.k, a, srv.Now(), n, b, me, offer, account, now, reply.page, shown, moved, gone);
    } else {
      NoMovesOn(c.log, n, srv.log);
    }
  }

  /** handleTakeoverAccept. Whatever fails and whoever else acts: a page comes only
      of an acceptance that this call started after a clear check, and is true to
      the store and to TransferSite's answers; any other answer moved nothing; and
      the claim is released. With nothing failing and nobody else acting, a clear
      check moves the whole bundle and shows every password. */
  method Accept(srv: Server, me: OfferId, account: Account, email: Email, posted: seq<Site>, now: Time)
    returns (reply: Reply, ghost o: Offer, ghost b: nat, ghost shown: Offer, ghost moved: seq<(Site, nat)>,
      ghost gone: set<Site>)
    requires Inv(srv.st)
    modifies srv
    ensures Inv(srv.st) && Leads(srv.k, old(srv.Now()), srv.Now())
    ensures Clean(srv.log, |old(srv.log)|)
    ensures !reply.Result? ==> NoMoves(srv.log, |old(srv.log)|)
    ensures reply.Result? ==>
              && Acceptable(o, account, email, posted, now) && o.from == shown.from
              && Told(srv.k, srv.log, |old(srv.log)|, b, srv.st, me, o.from, account, o.sites,
                 now, reply.page, shown, moved, gone)
    ensures if reply.Result? then Markers(old(srv.links), srv.links, shown, account, gone)
            else srv.links == old(srv.links)
    ensures old(AllWell(srv, me, account, email, posted, now)) ==>
              Handed(srv.links, old(srv.st).offers[me].from, account, Elems(posted))
    ensures old(AllWell(srv, me, account, email, posted, now)) ==> AllYours(reply, posted, moved)
  {
    hide Inv, Leads, Markers, Handed, Clean, Told, AllYours, Clear, FactsFrom, NoMoves;
    b, moved, gone, shown := 0, [], {}, Offer([], 0, 0, None, 0, Open, [], 0);
    o := shown;
    ghost var n := |srv.log|;
    var no := Ask(srv, me, account, email, posted, now);
    Quietly(old(srv.log), srv.log);
    if no.Some? { return no.value, o, b, shown, moved, gone; }
    o := srv.st.offers[me];
    ghost var a := srv.Now();
    if old(AllWell(srv, me, account, email, posted, now)) { WellOn(srv.k, n, srv.st, srv.links, account); }
    reply, b, shown, moved, gone := Answer(srv, me, account, email, posted, now);
    LeadsTrans(srv.k, old(srv.Now()), a, srv.Now());
    CleanOn(a.log, n, srv.log);
    if reply.Result? {
      ToldOn(srv.k, srv.log, |a.log|, srv.log, n, b, srv.st, srv.st, me, o.from, account, o.sites,
        now, reply.page, shown, moved, gone);
    } else {
      NoMovesOn(a.log, n, srv.log);
    }
  }

  /** The page is about an offer of the same sender as the one that was checked. */
  lemma TheirOffer(k: Oracle, a: Moment, c: Moment, n: nat, b: nat, me: OfferId, o: Offer, account: Account,
                   now: Time, page: Page, shown: Offer, moved: seq<(Site, nat)>, gone: set<Site>)
    requires Inv(a.st) && Leads(k, a, c) && me in a.st.offers && a.st.offers[me] == o
    requires Told(k, c.log, n, b, c.st, me, o.from, account, o.sites, now, page, shown, moved, gone)
    ensures shown.from == o.from
  {
    hide Inv, Leads, Evident, Exec;
    LeadsReaches(k, a, c);
    var trace :| c.st == Exec(a.st, trace);
    SenderStays(a.st, trace, me);
  }

  lemma YoursFor(reply: Reply, a: seq<Site>, b: seq<Site>, moved: seq<(Site, nat)>)
    requires SameSites(a, b)
    ensures AllYours(reply, a, moved) ==> AllYours(reply, b, moved)
  {
  }

  lemma Quietly(g: seq<Call>, h: seq<Call>)
    requires |h| == |g| + 1 && g <= h && !h[|g|].op.Acts?
    ensures NoMoves(h, |g|)
  {
  }
}
