/** Deleting an account (lockedSites, beforeAccountDelete,
    deleteAccountAndSites): what goes, what stays, and what is never touched. */
module Deletion {
  import opened Prelude
  import opened Offers
  import Invitations

  type InviteState = Invitations.InviteState

  datatype Invite = Invite(site: Site, from: Account, toEmail: Email, state: InviteState)

  datatype Everything = Everything(
    owners: map<Site, Account>,
    admins: map<Site, seq<Account>>,
    locked: set<Site>,
    links: set<(Account, Site)>,     // site markers
    shares: set<(Account, Site)>,    // share markers
    offers: Book,
    invites: map<nat, Invite>,
    accounts: set<Account>
  )

  datatype Who = Who(id: Account, email: Option<Email>)

  predicate About(who: Who, from: Account, toEmail: Email) {
    from == who.id || who.email == Some(toEmail)
  }

  // ---- what each part leaves ----

  function EndOffers(book: Book, who: Who, ids: set<OfferId>): Book {
    map id | id in book ::
      if id in ids && About(who, book[id].from, book[id].toEmail) && Apply(book[id], EndFor(who.id)).Some?
      then Apply(book[id], EndFor(who.id)).value else book[id]
  }

  function EndInvite(i: Invite, who: Who): Invite {
    if i.state.Open? then i.(state := if i.from == who.id then Invitations.Cancelled else Invitations.Expired) else i
  }

  function EndInvites(invites: map<nat, Invite>, who: Who, ids: set<nat>): map<nat, Invite> {
    map id | id in invites ::
      if id in ids && About(who, invites[id].from, invites[id].toEmail) then EndInvite(invites[id], who)
        else invites[id]
  }

  predicate Ends(e: Everything, who: Who, x: Site) {
    x in e.owners && e.owners[x] != NOBODY && e.owners[x] != who.id && x !in e.locked
  }

  function EndShares(e: Everything, who: Who, sites: set<Site>): map<Site, seq<Account>> {
    map x | x in e.admins :: if x in sites && Ends(e, who, x) then Without(e.admins[x], who.id) else e.admins[x]
  }

  function Left<T>(m: map<Site, T>, owners: map<Site, Account>, who: Who, sites: set<Site>): map<Site, T> {
    map x | x in m && !(x in sites && x in owners && owners[x] == who.id) :: m[x]
  }

  /** Nothing of anybody else's was lost: their sites and their records, and
      every admin entry but this account's. */
  ghost predicate Harmless(was: Everything, e: Everything, who: Who) {
    && (forall x | x in was.owners && was.owners[x] != who.id :: x in e.owners && e.owners[x] == was.owners[x])
    && (forall x | x in e.owners :: x in was.owners && e.owners[x] == was.owners[x])
    && (forall x | x in e.admins ::
         x in was.admins && (e.admins[x] == was.admins[x] || e.admins[x] == Without(was.admins[x], who.id)))
    && e.offers.Keys == was.offers.Keys && e.invites.Keys == was.invites.Keys
    && (forall id | id in was.offers && !About(who, was.offers[id].from, was.offers[id].toEmail) ::
       e.offers[id] == was.offers[id])
    && (forall id | id in was.invites && !About(who, was.invites[id].from, was.invites[id].toEmail) ::
       e.invites[id] == was.invites[id])
    && e.locked == was.locked
  }

  function SharedWith(e: Everything, who: Who): set<Site> {
    set p | p in e.shares && p.0 == who.id :: p.1
  }

  function OwnedBy(e: Everything, who: Who): set<Site> {
    set x | x in e.owners && e.owners[x] == who.id
  }

  /** What a deletion that went through leaves. */
  function Deleted(e: Everything, who: Who): Everything {
    Everything(
      Left(e.owners, e.owners, who, e.owners.Keys),
      Left(EndShares(e, who, SharedWith(e, who)), e.owners, who, e.owners.Keys),
      e.locked,
      (set p | p in e.links && p.0 != who.id),
      (set p | p in e.shares && p.0 != who.id),
      EndOffers(e.offers, who, e.offers.Keys),
      EndInvites(e.invites, who, e.invites.Keys),
      e.accounts - {who.id})
  }

  /** The calls of a deletion. */
  datatype Call =
    | OwnersWalk | ListMarkers | LinkMarker(site: Site) | Info(site: Site)
    | ListShares | ReadAdmins(site: Site) | ReadOwner(site: Site) | SetAdmins(site: Site)
    | OffersFrom | OffersTo | EndOffer(id: OfferId) | InvitesFrom | InvitesTo | EndOneInvite(invite: nat) | DropShares
    | DeleteListing | DeleteSite(site: Site) | DropAccount

  /** What a call does when it works; the others are reads. */
  function Does(e: Everything, who: Who, c: Call): Everything {
    match c
    case LinkMarker(x) => e.(links := e.links + {(who.id, x)})
    case SetAdmins(x) =>
      if x in e.admins && x !in e.locked then e.(admins := e.admins[x := Without(e.admins[x], who.id)]) else e
    case EndOffer(id) =>
      if id in e.offers && Apply(e.offers[id], EndFor(who.id)).Some?
      then e.(offers := e.offers[id := Apply(e.offers[id], EndFor(who.id)).value]) else e
    case EndOneInvite(id) =>
      if id in e.invites then e.(invites := e.invites[id := EndInvite(e.invites[id], who)]) else e
    case DropShares => e.(shares := set p | p in e.shares && p.0 != who.id)
    case DeleteSite(x) =>
      if x in e.owners && e.owners[x] == who.id && x !in e.locked
      then e.(owners := e.owners - {x}, admins := e.admins - {x}) else e
    case DropAccount => Dropped(e, who)
    case _ => e
  }

  /** The first half of a deletion, wherever it stops. */
  lemma PartHarmless(was: Everything, e: Everything, who: Who, s: set<Site>, o: set<OfferId>, i: set<nat>,
                     dropped: bool)
    requires e.admins == EndShares(was, who, s) && e.offers == EndOffers(was.offers, who, o)
    requires e.invites == EndInvites(was.invites, who, i)
    requires e.shares == if dropped then set p | p in was.shares && p.0 != who.id else was.shares
    requires e.(admins := was.admins, shares := was.shares, offers := was.offers, invites := was.invites) == was
    ensures Harmless(was, e, who) && e.admins.Keys == was.admins.Keys
    ensures dropped && s == SharedWith(was, who) && o == was.offers.Keys && i == was.invites.Keys ==>
              e == Closed(was, who)
  {
  }

  lemma DropsAlike(e: Everything, was: Everything, who: Who, done: set<Site>)
    requires e == Minus(was, who, done)
    ensures e.(links := was.links, accounts := was.accounts) == e
    ensures var d := Dropped(e, who); d.(links := was.links, accounts := was.accounts) == e
  {
  }

  lemma MinusAll(e: Everything, who: Who)
    ensures Dropped(Minus(e, who, e.owners.Keys), who) == Gone(e, who)
  {
  }

  /** With a marker of every owned site listed, the listed sites are all that
      matter. */
  lemma ListedLocks(e: Everything, who: Who, marked: seq<Site>, listed: bool)
    requires forall x :: x in marked <==> listed && (who.id, x) in e.links
    ensures (forall x | x in OwnedBy(e, who) :: (who.id, x) in e.links) && listed ==>
              && OwnedBy(e, who) <= Elems(marked)
              && (OwnedBy(e, who) !! e.locked <==> forall x | x in marked :: x in OwnedBy(e, who) ==> x !in e.locked)
    ensures !listed ==> marked == []
  {
    if marked != [] { assert marked[0] in marked; }
  }

  lemma NoneEnded(e: Everything, who: Who)
    ensures EndOffers(e.offers, who, {}) == e.offers && EndInvites(e.invites, who, {}) == e.invites
  {
  }

  class Server {
    var all: Everything
    var log: seq<Call>                     // every call so far, in order
    const works: (nat, Call) -> bool       // whether the n-th call, if it is this one, works

    constructor (all: Everything, works: (nat, Call) -> bool)
      ensures this.all == all && log == [] && this.works == works
    {
      this.all, this.log, this.works := all, [], works;
    }

    /** Every call works but, it may be, reads of a site's Info and the listing
        of the markers when the account itself is deleted. */
    ghost predicate Fine() {
      forall k: nat, c: Call :: c.Info? || c.DeleteListing? || works(k, c)
    }

    /** The calls since, none of them that listing. */
    ghost predicate NotYet(before: seq<Call>)
      reads this
    {
      before <= log && forall n | |before| <= n < |log| :: !log[n].DeleteListing?
    }

    /** And none of them a read of an Info. */
    ghost predicate Plain(before: seq<Call>)
      reads this
    {
      NotYet(before) && forall n | |before| <= n < |log| :: !log[n].Info?
    }

    /** The site's Info was read, from some call on. */
    ghost predicate Read(calls: seq<Call>, from: nat, x: Site) {
      exists n :: from <= n < |calls| && calls[n] == Info(x) && works(n, Info(x))
    }

    lemma ReadNext(calls: seq<Call>, from: nat, x: Site, y: Site)
      requires from <= |calls|
      ensures Read(calls + [Info(x)], from, y) <==> Read(calls, from, y) || (y == x && works(|calls|, Info(x)))
    {
      var more := calls + [Info(x)];
      if Read(calls, from, y) {
        var n :| from <= n < |calls| && calls[n] == Info(y) && works(n, Info(y));
        assert more[n] == Info(y);
      }
      if y == x && works(|calls|, Info(x)) { assert more[|calls|] == Info(y); }
    }

    lemma ReadLater(calls: seq<Call>, from: nat, later: nat, x: Site)
      requires from <= later <= |calls| && forall n | from <= n < later :: !calls[n].Info?
      ensures Read(calls, from, x) <==> Read(calls, later, x)
    {
    }

    /** From one log and its state to another: nothing happened but what the calls
        in between do, those of them that work. */
    ghost predicate Leads(who: Who, g: seq<Call>, e: Everything, h: seq<Call>, d: Everything) {
      g <= h && d == Replay(who, |g|, h[|g|..], e)
    }

    /** The state after these calls, the first of them the n-th. */
    function Replay(who: Who, n: nat, calls: seq<Call>, e: Everything): Everything {
      if calls == [] then e
      else
        var was, k := Replay(who, n, calls[..|calls| - 1], e), |calls| - 1;
        if works(n + k, calls[k]) then Does(was, who, calls[k]) else was
    }

    lemma {:induction false} ReplayOn(who: Who, n: nat, a: seq<Call>, b: seq<Call>, e: Everything)
      ensures Replay(who, n, a + b, e) == Replay(who, n + |a|, b, Replay(who, n, a, e))
    {
      hide Does;
      if b == [] {
        assert a + b == a;
      } else {
        ReplayOn(who, n, a, b[..|b| - 1], e);
        assert (a + b)[..|a + b| - 1] == a + b[..|b| - 1];
      }
    }

    lemma Onward(who: Who, g0: seq<Call>, e0: Everything, g1: seq<Call>, e1: Everything, g2: seq<Call>, e2: Everything)
      requires Leads(who, g0, e0, g1, e1) && Leads(who, g1, e1, g2, e2)
      ensures Leads(who, g0, e0, g2, e2)
    {
      ReplayOn(who, |g0|, g1[|g0|..], g2[|g1|..], e0);
      assert g2[|g0|..] == g1[|g0|..] + g2[|g1|..];
    }

    /** The n-th call stops a deletion: it fails, or the site is the account's and
        locked. Not a read of an Info or the last listing; and of a site that is
        gone the admins need not be read. */
    predicate Stops(who: Who, e: Everything, n: nat, c: Call) {
      match c
      case Info(_) => false
      case DeleteListing => false
      case ReadAdmins(x) => x in e.owners && !works(n, c)
      case DeleteSite(x) => !works(n, c) || (x in e.owners && e.owners[x] == who.id && x in e.locked)
      case _ => !works(n, c)
    }

    ghost predicate Unstopped(who: Who, e: Everything, calls: seq<Call>, from: nat) {
      forall n | from <= n < |calls| :: !Stops(who, e, n, calls[n])
    }

    lemma UnstoppedOn(who: Who, e: Everything, d: Everything, g: seq<Call>, from: nat, h: seq<Call>)
      requires g <= h && from <= |g| && d.owners == e.owners && d.locked == e.locked
      ensures Unstopped(who, e, h, from) <==> Unstopped(who, e, g, from) && Unstopped(who, d, h, |g|)
    {
      if Unstopped(who, e, h, from) { assert forall n | from <= n < |g| :: g[n] == h[n]; }
    }

    lemma UnstoppedNext(who: Who, e: Everything, g: seq<Call>, from: nat, c: Call)
      requires from <= |g|
      ensures Unstopped(who, e, g + [c], from) <==> Unstopped(who, e, g, from) && !Stops(who, e, |g|, c)
    {
      assert (g + [c])[|g|] == c && forall n | from <= n < |g| :: (g + [c])[n] == g[n];
    }

    /** One more call. */
    lemma Next(who: Who, g0: seq<Call>, e0: Everything, g: seq<Call>, e: Everything, h: seq<Call>, d: Everything,
               was: Everything, c: Call)
      requires Leads(who, g0, e0, g, e) && Leads(who, g, e, h, d) && h == g + [c]
      ensures Leads(who, g0, e0, h, d)
      ensures Unstopped(who, was, h, |g0|) <==> Unstopped(who, was, g, |g0|) && !Stops(who, was, |g|, c)
      ensures forall b | Asked(g, |g0|, b) :: Asked(h, |g0|, b)
      ensures Asked(h, |g0|, c)
    {
      hide Leads, Replay;
      Onward(who, g0, e0, g, e, h, d);
      LeadsLog(who, g0, e0, g, e);
      UnstoppedNext(who, was, g, |g0|, c);
      AskedOn(g, |g0|, h);
      assert h[|g|] == c;
    }

    /** Some more calls. */
    lemma Further(who: Who, g0: seq<Call>, e0: Everything, g: seq<Call>, e: Everything, h: seq<Call>, d: Everything)
      requires Leads(who, g0, e0, g, e) && Leads(who, g, e, h, d) && e.owners == e0.owners && e.locked == e0.locked
      ensures Leads(who, g0, e0, h, d)
      ensures Unstopped(who, e0, h, |g0|) <==> Unstopped(who, e0, g, |g0|) && Unstopped(who, e, h, |g|)
      ensures forall b | Asked(g, |g0|, b) :: Asked(h, |g0|, b)
      ensures forall b | Asked(h, |g|, b) :: Asked(h, |g0|, b)
    {
      hide Replay, Asked;
      Onward(who, g0, e0, g, e, h, d);
      LeadsLog(who, g0, e0, g, e);
      UnstoppedOn(who, e0, e, g, |g0|, h);
      AskedOn(g, |g0|, h);
    }

    lemma LeadsLog(who: Who, g: seq<Call>, e: Everything, h: seq<Call>, d: Everything)
      requires Leads(who, g, e, h, d)
      ensures g <= h
    {
    }

    lemma Here(who: Who, g: seq<Call>, e: Everything)
      ensures Leads(who, g, e, g, e) && Unstopped(who, e, g, |g|)
    {
    }

    ghost predicate Asked(calls: seq<Call>, from: nat, c: Call) {
      exists n :: from <= n < |calls| && calls[n] == c
    }

    lemma AskedOn(g: seq<Call>, from: nat, h: seq<Call>)
      requires g <= h && from <= |g|
      ensures forall c | Asked(g, from, c) :: Asked(h, from, c)
      ensures forall c | Asked(h, |g|, c) :: Asked(h, from, c)
    {
      forall c | Asked(g, from, c) ensures Asked(h, from, c) {
        var n :| from <= n < |g| && g[n] == c;
        assert h[n] == c;
      }
    }

    lemma Single(who: Who, n: nat, c: Call, e: Everything)
      ensures Replay(who, n, [c], e) == if works(n, c) then Does(e, who, c) else e
    {
      hide Does;
      assert [c][..0] == [];
      assert Replay(who, n, [], e) == e;
    }

    /** One call, with what it does if it works. */
    method Do(who: Who, c: Call) returns (ok: bool)
      modifies this`all, this`log
      ensures log == old(log) + [c] && ok == works(|old(log)|, c)
      ensures all == if ok then Does(old(all), who, c) else old(all)
      ensures Leads(who, old(log), old(all), log, all) && Asked(log, |old(log)|, c)
    {
      hide Does;
      ok := works(|log|, c);
      log := log + [c];
      if ok { all := Does(all, who, c); }
      assert log[|old(log)|..] == [c] && log[|old(log)|] == c;
      Single(who, |old(log)|, c, old(all));
    }

    /** linkOwnedMarkers: every owned site has a marker then. */
    method LinkOwned(who: Who) returns (ok: bool)
      modifies this`all, this`log
      ensures all.(links := old(all.links)) == old(all)
      ensures old(all.links) <= all.links && forall p | p in all.links - old(all.links) :: p.0 == who.id
      ensures Leads(who, old(log), old(all), log, all)
      ensures ok <==> Unstopped(who, old(all), log, |old(log)|)
      ensures ok ==> Asked(log, |old(log)|, OwnersWalk) && Asked(log, |old(log)|, ListMarkers)
      ensures ok ==> forall x | x in OwnedBy(all, who) :: (who.id, x) in all.links
      ensures Fine() ==> ok
      ensures Plain(old(log))
    {
      hide Leads, Unstopped, Asked;
      Here(who, log, all);
      ok := Do(who, OwnersWalk);
      Next(who, old(log), old(all), old(log), old(all), log, all, old(all), OwnersWalk);
      if !ok { return; }
      ghost var g := log;
      ok := Do(who, ListMarkers);
      Next(who, old(log), old(all), g, old(all), log, all, old(all), ListMarkers);
      if !ok { return; }
      var left := OwnedBy(all, who);
      while left != {}
        invariant all.(links := old(all.links)) == old(all)
        invariant Plain(old(log))
        invariant Leads(who, old(log), old(all), log, all) && Unstopped(who, old(all), log, |old(log)|)
        invariant Asked(log, |old(log)|, OwnersWalk) && Asked(log, |old(log)|, ListMarkers)
        invariant old(all.links) <= all.links && forall p | p in all.links - old(all.links) :: p.0 == who.id
        invariant forall x | x in OwnedBy(all, who) - left :: (who.id, x) in all.links
      {
        var x :| x in left;
        if (who.id, x) !in all.links {
          g := log;
          ghost var e := all;
          ok := Do(who, LinkMarker(x));
          Next(who, old(log), old(all), g, e, log, all, old(all), LinkMarker(x));
          if !ok { return; }
        }
        left := left - {x};
      }
      ok := true;
    }

    /** lockedSites: the markers listed after the linking are all there is, and
        the Info of every listed site is asked for. A locked site is missed
        exactly if its Info could not be read. */
    method LockedSites(who: Who) returns (ok: bool, locked: seq<Site>)
      modifies this`all, this`log
      ensures all.(links := old(all.links)) == old(all)
      ensures forall p | p in all.links - old(all.links) :: p.0 == who.id
      ensures old(all.links) <= all.links
      ensures ok ==> forall x :: x in locked <==> x in OwnedBy(all, who) && x in all.locked && Read(log, |old(log)|, x)
      ensures ok ==> forall x | x in OwnedBy(all, who) :: (who.id, x) in all.links
      ensures Leads(who, old(log), old(all), log, all)
      ensures ok <==> Unstopped(who, old(all), log, |old(log)|)
      ensures ok ==> forall x | x in OwnedBy(all, who) :: Asked(log, |old(log)|, Info(x))
      ensures forall n | |old(log)| <= n < |log| && log[n].Info? :: (who.id, log[n].site) in all.links
      ensures Fine() ==> ok
      ensures NotYet(old(log)) && (!ok ==> Plain(old(log)))
    {
      hide Leads, Unstopped, Asked, Read;
      locked := [];
      ok := LinkOwned(who);
      if !ok { return; }
      ghost var g, e := log, all;
      ok := Do(who, ListMarkers);
      Next(who, old(log), old(all), g, e, log, all, old(all), ListMarkers);
      if !ok { return; }
      var marked := Listing(set p | p in all.links && p.0 == who.id :: p.1);
      assert forall x :: x in marked <==> x in Elems(marked);
      ghost var begun := log;
      locked := LocksOf(who, marked);
      Further(who, old(log), old(all), begun, all, log, all);
      forall x ensures Read(log, |old(log)|, x) <==> Read(log, |begun|, x) { ReadLater(log, |old(log)|, |begun|, x); }
    }

    /** ownedSiteInfos: a site whose Info cannot be read is passed over. */
    method LocksOf(who: Who, marked: seq<Site>) returns (locked: seq<Site>)
      requires NoDup(marked)
      modifies this`all, this`log
      ensures all == old(all) && Leads(who, old(log), old(all), log, all) && Unstopped(who, all, log, |old(log)|)
      ensures forall x :: x in locked <==>
        x in marked && x in OwnedBy(all, who) && x in all.locked && Read(log, |old(log)|, x)
      ensures forall x | x in marked :: Asked(log, |old(log)|, Info(x))
      ensures old(log) <= log && forall n | |old(log)| <= n < |log| :: log[n].Info? && log[n].site in marked
      ensures NotYet(old(log))
    {
      hide Leads, Unstopped, Asked;
      Here(who, log, all);
      locked := [];
      for i := 0 to |marked|
        invariant all == old(all) && Leads(who, old(log), old(all), log, all)
        invariant Unstopped(who, all, log, |old(log)|)
        invariant forall x | x in marked[..i] :: Asked(log, |old(log)|, Info(x))
        invariant NotYet(old(log)) && forall n | |old(log)| <= n < |log| :: log[n].Info? && log[n].site in marked
        invariant forall x :: Read(log, |old(log)|, x) ==> x in marked[..i]
        invariant forall x :: x in locked <==> x in OwnedBy(all, who) && x in all.locked && Read(log, |old(log)|, x)
      {
        var x := marked[i];
        assert marked[..i + 1] == marked[..i] + [x] && x !in marked[..i];
        forall y { ReadNext(log, |old(log)|, x, y); }
        ghost var g := log;
        var read := Do(who, Info(x));
        Next(who, old(log), old(all), g, all, log, all, old(all), Info(x));
        if read && x in OwnedBy(all, who) && x in all.locked { locked := locked + [x]; }
      }
      assert marked[..|marked|] == marked;
    }

    /** Ending the shares on other people's sites. */
    method EndAllShares(who: Who) returns (ok: bool)
      requires all.admins.Keys == all.owners.Keys
      modifies this`all, this`log
      ensures all.(admins := old(all.admins)) == old(all)
      ensures exists done :: done <= SharedWith(all, who) && all.admins == EndShares(old(all), who, done)
                             && (ok ==> done == SharedWith(all, who))
      ensures Leads(who, old(log), old(all), log, all)
      ensures ok <==> Unstopped(who, old(all), log, |old(log)|)
      ensures ok ==> Asked(log, |old(log)|, ListShares)
      ensures Fine() ==> ok
      ensures Plain(old(log))
    {
      var marked := Listing(SharedWith(all, who));
      hide Leads, Unstopped, Asked;
      Here(who, log, all);
      ok := Do(who, ListShares);
      Next(who, old(log), old(all), old(log), old(all), log, all, old(all), ListShares);
      ghost var done: set<Site> := {};
      EndNone(all, who);
      if !ok { return; }
      for i := 0 to |marked|
        invariant done == Elems(marked[..i]) && done <= SharedWith(all, who) && Plain(old(log))
        invariant Leads(who, old(log), old(all), log, all) && Unstopped(who, old(all), log, |old(log)|)
        invariant Asked(log, |old(log)|, ListShares)
        invariant all == old(all).(admins := EndShares(old(all), who, done))
      {
        var x := marked[i];
        assert marked[..i + 1] == marked[..i] + [x];
        ElemsAppend(marked[..i], [x]);
        assert x !in done && Elems(marked[..i + 1]) == done + {x};
        EndMore(old(all), who, done, x);
        ghost var g, e := log, all;
        ok := EndShare(who, x);
        Further(who, old(log), old(all), g, e, log, all);
        if !ok { return; }
        done := done + {x};
      }
      assert marked[..|marked|] == marked;
    }

    method EndShare(who: Who, x: Site) returns (ok: bool)
      requires all.admins.Keys == all.owners.Keys
      modifies this`all, this`log
      ensures all.(admins := old(all.admins)) == old(all)
      ensures all.admins ==
        if ok && Ends(old(all), who, x) then old(all.admins)[x := Without(old(all.admins)[x], who.id)]
        else old(all.admins)
      ensures Leads(who, old(log), old(all), log, all)
      ensures ok <==> Unstopped(who, old(all), log, |old(log)|)
      ensures ok && x in all.owners && who.id in old(all.admins)[x] ==>
                if all.owners[x] == NOBODY || all.owners[x] == who.id
                then log == old(log) + [ReadAdmins(x), ReadOwner(x)]
                else log == old(log) + [ReadAdmins(x), ReadOwner(x), SetAdmins(x)]
      ensures Fine() ==> ok
      ensures Plain(old(log))
    {
      hide Leads, Unstopped, Asked;
      Here(who, log, all);
      ok := Do(who, ReadAdmins(x));
      Next(who, old(log), old(all), old(log), old(all), log, all, old(all), ReadAdmins(x));
      if x !in all.owners { return true; }
      if !ok { return; }
      if who.id !in all.admins[x] {
        WithoutIs(all.admins[x], who.id);
        assert all.admins[x := all.admins[x]] == all.admins;
        return;
      }
      ghost var g := log;
      ok := Do(who, ReadOwner(x));
      Next(who, old(log), old(all), g, all, log, all, old(all), ReadOwner(x));
      if !ok { return; }
      if all.owners[x] == NOBODY || all.owners[x] == who.id { return; }
      g := log;
      ok := Do(who, SetAdmins(x));
      Next(who, old(log), old(all), g, old(all), log, all, old(all), SetAdmins(x));
    }

    /** cancelAccountRecords on the offers: the account's own, then those to its
        address, each ended once if it is still open. */
    method EndAllOffers(who: Who) returns (ok: bool)
      modifies this`all, this`log
      ensures all.(offers := old(all.offers)) == old(all)
      ensures exists done ::
        all.offers == EndOffers(old(all.offers), who, done) && (ok ==> done == old(all.offers).Keys)
      ensures Leads(who, old(log), old(all), log, all)
      ensures ok <==> Unstopped(who, old(all), log, |old(log)|)
      ensures ok ==> Asked(log, |old(log)|, OffersFrom) && (who.email.Some? ==> Asked(log, |old(log)|, OffersTo))
      ensures Fine() ==> ok
      ensures Plain(old(log))
    {
      hide EndOffers, Leads, Unstopped, Asked;
      Here(who, log, all);
      NoneEnded(all, who);
      ok := Do(who, OffersFrom);
      Next(who, old(log), old(all), old(log), old(all), log, all, old(all), OffersFrom);
      ghost var g := log;
      var own := Listing(set id | id in all.offers && all.offers[id].from == who.id);
      var ids := own;
      if ok && who.email.Some? {
        ok := Do(who, OffersTo);
        Next(who, old(log), old(all), g, all, log, all, old(all), OffersTo);
        var toMe := Listing(set id | id in all.offers && all.offers[id].toEmail == who.email.value);
        ids := own + toMe;
        ElemsAppend(own, toMe);
      }
      if !ok { return; }
      assert forall id :: id in ids <==> id in Elems(ids);
      EndListed(all.offers, who, Elems(ids));
      g := log;
      ok := EndEach(who, ids);
      Further(who, old(log), old(all), g, old(all), log, all);
    }

    method EndEach(who: Who, ids: seq<OfferId>) returns (ok: bool)
      requires forall id | id in ids :: id in all.offers && About(who, all.offers[id].from, all.offers[id].toEmail)
      modifies this`all, this`log
      ensures all.(offers := old(all.offers)) == old(all)
      ensures exists done :: all.offers == EndOffers(old(all.offers), who, done) && (ok ==> done == Elems(ids))
      ensures Leads(who, old(log), old(all), log, all)
      ensures ok <==> Unstopped(who, old(all), log, |old(log)|)
      ensures Fine() ==> ok
      ensures Plain(old(log))
    {
      hide EndOffers, Leads, Unstopped, Asked;
      Here(who, log, all);
      ghost var was := all.offers;
      var seen: set<OfferId> := {};
      EndNoOffers(was, who);
      assert Elems(ids[..0]) == {};
      ok := true;
      for i := 0 to |ids|
        invariant Plain(old(log)) && ok && all == old(all).(offers := EndOffers(was, who, Elems(ids[..i])))
        invariant Leads(who, old(log), old(all), log, all) && Unstopped(who, old(all), log, |old(log)|)
        invariant seen <= Elems(ids[..i])
        invariant forall id | id in seen :: id in all.offers && !Editable(all.offers[id])
      {
        var id := ids[i];
        assert ids[..i + 1] == ids[..i] + [id];
        ElemsAppend(ids[..i], [id]);
        assert Elems(ids[..i + 1]) == Elems(ids[..i]) + {id};
        EndMoreOffers(was, who, Elems(ids[..i]), id);
        if id !in seen && Editable(all.offers[id]) {
          ghost var g, e := log, all;
          ok := Do(who, EndOffer(id));
          Next(who, old(log), old(all), g, e, log, all, old(all), EndOffer(id));
          if !ok { return; }
          seen := seen + {id};
        }
      }
      assert ids[..|ids|] == ids;
    }

    /** And on the invitations. */
    method EndAllInvites(who: Who) returns (ok: bool)
      modifies this`all, this`log
      ensures all.(invites := old(all.invites)) == old(all)
      ensures exists done ::
        all.invites == EndInvites(old(all.invites), who, done) && (ok ==> done == old(all.invites).Keys)
      ensures Leads(who, old(log), old(all), log, all)
      ensures ok <==> Unstopped(who, old(all), log, |old(log)|)
      ensures ok ==> Asked(log, |old(log)|, InvitesFrom) && (who.email.Some? ==> Asked(log, |old(log)|, InvitesTo))
      ensures Fine() ==> ok
      ensures Plain(old(log))
    {
      hide EndInvites, Leads, Unstopped, Asked;
      Here(who, log, all);
      NoneEnded(all, who);
      ok := Do(who, InvitesFrom);
      Next(who, old(log), old(all), old(log), old(all), log, all, old(all), InvitesFrom);
      ghost var g := log;
      var own := Listing(set id | id in all.invites && all.invites[id].from == who.id);
      var ids := own;
      if ok && who.email.Some? {
        ok := Do(who, InvitesTo);
        Next(who, old(log), old(all), g, all, log, all, old(all), InvitesTo);
        var toMe := Listing(set id | id in all.invites && all.invites[id].toEmail == who.email.value);
        ids := own + toMe;
        ElemsAppend(own, toMe);
      }
      if !ok { return; }
      assert forall id :: id in ids <==> id in Elems(ids);
      EndListedInvites(all.invites, who, Elems(ids));
      g := log;
      ok := EndEachInvite(who, ids);
      Further(who, old(log), old(all), g, old(all), log, all);
    }

    method EndEachInvite(who: Who, ids: seq<nat>) returns (ok: bool)
      requires forall id | id in ids :: id in all.invites && About(who, all.invites[id].from, all.invites[id].toEmail)
      modifies this`all, this`log
      ensures all.(invites := old(all.invites)) == old(all)
      ensures exists done :: all.invites == EndInvites(old(all.invites), who, done) && (ok ==> done == Elems(ids))
      ensures Leads(who, old(log), old(all), log, all)
      ensures ok <==> Unstopped(who, old(all), log, |old(log)|)
      ensures Fine() ==> ok
      ensures Plain(old(log))
    {
      hide EndInvites, Leads, Unstopped, Asked;
      Here(who, log, all);
      ghost var was := all.invites;
      var seen: set<nat> := {};
      EndNoInvites(was, who);
      assert Elems(ids[..0]) == {};
      ok := true;
      for i := 0 to |ids|
        invariant Plain(old(log)) && ok && all == old(all).(invites := EndInvites(was, who, Elems(ids[..i])))
        invariant Leads(who, old(log), old(all), log, all) && Unstopped(who, old(all), log, |old(log)|)
        invariant seen <= Elems(ids[..i])
        invariant forall id | id in seen :: id in all.invites && !all.invites[id].state.Open?
      {
        var id := ids[i];
        assert ids[..i + 1] == ids[..i] + [id];
        ElemsAppend(ids[..i], [id]);
        assert Elems(ids[..i + 1]) == Elems(ids[..i]) + {id};
        EndMoreInvites(was, who, Elems(ids[..i]), id);
        if id !in seen && all.invites[id].state.Open? {
          ghost var g, e := log, all;
          ok := Do(who, EndOneInvite(id));
          Next(who, old(log), old(all), g, e, log, all, old(all), EndOneInvite(id));
          if !ok { return; }
          seen := seen + {id};
        }
      }
      assert ids[..|ids|] == ids;
    }

    /** beforeAccountDelete: the shares, the records, the share markers. */
    method Before(who: Who) returns (ok: bool)
      requires all.admins.Keys == all.owners.Keys
      modifies this`all, this`log
      ensures Harmless(old(all), all, who)
      ensures all.(admins := old(all.admins), shares := old(all.shares), offers := old(all.offers),
        invites := old(all.invites)) == old(all)
      ensures all.admins.Keys == all.owners.Keys
      ensures ok ==> all == Closed(old(all), who)
      ensures Leads(who, old(log), old(all), log, all)
      ensures ok <==> Unstopped(who, old(all), log, |old(log)|)
      ensures ok ==> AllAsked(who, log, |old(log)|)
      ensures Fine() ==> ok
      ensures Plain(old(log))
    {
      hide Leads, Unstopped, Asked, AllAsked, Harmless, Closed, EndShares, EndOffers, EndInvites;
      NoneEnded(all, who);
      EndNone(all, who);
      ghost var was, s, o, i: set<nat> := all, {}, {}, {};
      PartHarmless(was, all, who, s, o, i, false);
      ok := EndAllShares(who);
      s :| s <= SharedWith(all, who) && all.admins == EndShares(was, who, s) && (ok ==> s == SharedWith(all, who));
      PartHarmless(was, all, who, s, o, i, false);
      if !ok { return; }
      ghost var g, e := log, all;
      ok := EndAllOffers(who);
      Further(who, old(log), old(all), g, e, log, all);
      o :| all.offers == EndOffers(was.offers, who, o) && (ok ==> o == was.offers.Keys);
      PartHarmless(was, all, who, s, o, i, false);
      if !ok { return; }
      g, e := log, all;
      ok := EndAllInvites(who);
      Further(who, old(log), old(all), g, e, log, all);
      i :| all.invites == EndInvites(was.invites, who, i) && (ok ==> i == was.invites.Keys);
      PartHarmless(was, all, who, s, o, i, false);
      if !ok { return; }
      g, e := log, all;
      ok := Do(who, DropShares);
      Next(who, old(log), old(all), g, e, log, all, old(all), DropShares);
      PartHarmless(was, all, who, s, o, i, ok);
      if ok { AllAskedIs(who, log, |old(log)|); }
    }

    lemma AllAskedIs(who: Who, calls: seq<Call>, from: nat)
      requires Asked(calls, from, ListShares) && Asked(calls, from, OffersFrom) && Asked(calls, from, InvitesFrom)
      requires who.email.Some? ==> Asked(calls, from, OffersTo) && Asked(calls, from, InvitesTo)
      ensures AllAsked(who, calls, from)
    {
    }

    /** The shares, the offers and the invitations were asked for. */
    ghost predicate AllAsked(who: Who, calls: seq<Call>, from: nat) {
      && Asked(calls, from, ListShares) && Asked(calls, from, OffersFrom) && Asked(calls, from, InvitesFrom)
      && (who.email.Some? ==> Asked(calls, from, OffersTo) && Asked(calls, from, InvitesTo))
    }

    /** The sites a deletion lists, each only while it is the account's. */
    method DeleteMarked(who: Who, marked: seq<Site>) returns (ok: bool)
      requires NoDup(marked)
      modifies this`all, this`log
      ensures exists done :: all == Minus(old(all), who, done) && (ok ==> done == Elems(marked))
      ensures Leads(who, old(log), old(all), log, all)
      ensures ok <==> Unstopped(who, old(all), log, |old(log)|)
      ensures ok ==> forall x | x in marked :: Asked(log, |old(log)|, DeleteSite(x))
      ensures ok ==> forall x | x in marked :: x in OwnedBy(old(all), who) ==> x !in old(all.locked)
      ensures Fine() && (forall x | x in marked :: x in OwnedBy(old(all), who) ==> x !in old(all.locked)) ==> ok
      ensures Plain(old(log))
    {
      hide Minus, Leads, Unstopped, Asked;
      Here(who, log, all);
      ghost var was := all;
      ok := true;
      LeftAll(was, who);
      assert Elems(marked[..0]) == {};
      for i := 0 to |marked|
        invariant Plain(old(log)) && ok && all == Minus(was, who, Elems(marked[..i]))
        invariant Leads(who, old(log), old(all), log, all) && Unstopped(who, was, log, |old(log)|)
        invariant forall x | x in marked[..i] :: Asked(log, |old(log)|, DeleteSite(x))
        invariant forall x | x in marked[..i] :: x in OwnedBy(was, who) ==> x !in was.locked
      {
        var x := marked[i];
        assert marked[..i + 1] == marked[..i] + [x] && x !in marked[..i];
        ElemsAppend(marked[..i], [x]);
        assert Elems(marked[..i + 1]) == Elems(marked[..i]) + {x};
        LeftMore(was, who, Elems(marked[..i]), x);
        ghost var g, e := log, all;
        var stuck := x in all.owners && all.owners[x] == who.id && x in all.locked;
        ok := Do(who, DeleteSite(x));
        Next(who, old(log), old(all), g, e, log, all, was, DeleteSite(x));
        ok := ok && !stuck;
        if !ok { return; }
      }
      assert marked[..|marked|] == marked;
    }

    /** accounts.Delete: the sites its markers list; then the account. A listing
        that fails lists nothing, and stops nothing. */
    method DeleteSites(who: Who) returns (ok: bool)
      modifies this`all, this`log
      ensures old(log) < log && log[|old(log)|] == DeleteListing
      ensures forall n | |old(log)| < n < |log| :: !log[n].DeleteListing?
      ensures forall n | |old(log)| <= n < |log| :: !log[n].Info?
      ensures Leads(who, old(log), old(all), log, all)
      ensures ok <==> Unstopped(who, old(all), log, |old(log)|)
      ensures ok ==> Asked(log, |old(log)|, DropAccount)
      ensures ok && works(|old(log)|, DeleteListing) ==>
                forall x | (who.id, x) in old(all.links) :: Asked(log, |old(log)|, DeleteSite(x))
      ensures exists done :: all.(links := old(all.links), accounts := old(all.accounts)) == Minus(old(all), who, done)
      ensures (forall x | x in OwnedBy(old(all), who) :: (who.id, x) in old(all.links)) ==>
                var listed := works(|old(log)|, DeleteListing);
                && (Fine() ==> (ok <==> !listed || OwnedBy(old(all), who) !! old(all.locked)))
                && (ok && listed ==> OwnedBy(old(all), who) !! old(all.locked))
                && (ok ==> all == if listed then Gone(old(all), who) else Dropped(old(all), who))
    {
      hide Leads, Unstopped, Asked, Minus, Gone, Dropped, OwnedBy;
      ghost var was := all;
      Here(who, log, all);
      var listed := Do(who, DeleteListing);
      Next(who, old(log), was, old(log), was, log, all, was, DeleteListing);
      var marked := Listing(if listed then set p | p in all.links && p.0 == who.id :: p.1 else {});
      assert forall x :: x in marked <==> x in Elems(marked);
      AllListed(was, who, Elems(marked));
      ListedLocks(was, who, marked, listed);
      ghost var begun := log;
      ok := DeleteListed(who, marked);
      Further(who, old(log), was, begun, was, log, all);
      assert log[|old(log)|] == begun[|old(log)|];
      LeftAll(was, who);
      MinusAll(was, who);
    }

    /** Its sites, and then the account. */
    method DeleteListed(who: Who, marked: seq<Site>) returns (ok: bool)
      requires NoDup(marked)
      modifies this`all, this`log
      ensures Leads(who, old(log), old(all), log, all)
      ensures ok <==> Unstopped(who, old(all), log, |old(log)|)
      ensures ok ==> Asked(log, |old(log)|, DropAccount)
      ensures ok ==> forall x | x in marked :: Asked(log, |old(log)|, DeleteSite(x))
      ensures exists done :: all.(links := old(all.links), accounts := old(all.accounts)) == Minus(old(all), who, done)
      ensures ok ==> all == Dropped(Minus(old(all), who, Elems(marked)), who)
      ensures ok ==> forall x | x in marked :: x in OwnedBy(old(all), who) ==> x !in old(all.locked)
      ensures Fine() && (forall x | x in marked :: x in OwnedBy(old(all), who) ==> x !in old(all.locked)) ==> ok
      ensures Plain(old(log))
    {
      hide Leads, Unstopped, Asked, Minus, Dropped, OwnedBy;
      ghost var was := all;
      ok := DeleteMarked(who, marked);
      ghost var done :| all == Minus(was, who, done) && (ok ==> done == Elems(marked));
      DropsAlike(all, was, who, done);
      if !ok { return; }
      ghost var g, e := log, all;
      ok := Do(who, DropAccount);
      Next(who, old(log), was, g, e, log, all, was, DropAccount);
    }

    /** The whole deletion: refused while a site of the account is seen to be
        locked, and otherwise carried through. Wherever it stops, it took nothing
        of anybody else's. When it is done, everything but the account's sites is
        as a deletion leaves it; they are gone exactly if the listing of its
        markers worked in the end. */
    method DeleteAccount(who: Who) returns (r: Outcome)
      requires all.admins.Keys == all.owners.Keys
      modifies this`all, this`log
      ensures Harmless(old(all), all, who)
      ensures Leads(who, old(log), old(all), log, all) && old(log) <= log
      ensures r.Failed? <==> !Unstopped(who, old(all), log, |old(log)|)
      ensures r.Refused? ==> all.(links := old(all.links)) == old(all)
      ensures r.Refused? <==> exists x ::
        x in OwnedBy(old(all), who) && x in old(all.locked) && Read(log, |old(log)|, x)
      ensures r.Refused? || r.Done? ==> forall x | x in OwnedBy(old(all), who) :: Asked(log, |old(log)|, Info(x))
      ensures r.Done? ==> AllAsked(who, log, |old(log)|)
      ensures r.Done? ==> exists n :: |old(log)| <= n < |log| && log[n] == DeleteListing
      ensures r.Done? ==> forall n | |old(log)| <= n < |log| && log[n] == DeleteListing ::
                all == (if works(n, DeleteListing) then Deleted(old(all), who) else Unlisted(old(all), who))
                && (OwnedBy(all, who) == {} <==> works(n, DeleteListing) || OwnedBy(old(all), who) == {})
                && (works(n, DeleteListing) ==> OwnedBy(old(all), who) !! old(all.locked))
      ensures Fine() && OwnedBy(old(all), who) !! old(all.locked) ==> r.Done?
    {
      hide Harmless, Deleted, Gone, Closed, Unlisted, Minus, Read, Leads, Unstopped, Asked, AllAsked;
      ghost var begun := |log|;
      var ok, locked := LockedSites(who);
      StillHarmless(old(all), all, all, all, who, {});
      if !ok {
        NothingRead(begun);
        return Failed;
      }
      ghost var linked, asked := all, log;
      SameOwned(old(all), linked, who);
      if locked != [] {
        assert locked[0] in locked;
        return Refused;
      }
      r := Carry(who);
      NoneRead(asked, begun);
      Further(who, old(log), old(all), asked, linked, log, all);
      AllAskedOn(who, asked, begun, log);
      if r.Done? { Halves(old(all), linked, who); }
    }

    lemma AllAskedOn(who: Who, g: seq<Call>, from: nat, h: seq<Call>)
      requires g <= h && from <= |g|
      ensures AllAsked(who, h, |g|) ==> AllAsked(who, h, from)
    {
      hide Asked;
      AskedOn(g, from, h);
    }

    /** From the first half on. */
    method Carry(who: Who) returns (r: Outcome)
      requires all.admins.Keys == all.owners.Keys
      requires forall x | x in OwnedBy(all, who) :: (who.id, x) in all.links
      modifies this`all, this`log
      ensures forall was: Everything :: old(all).(links := was.links) == was ==> Harmless(was, all, who)
      ensures Leads(who, old(log), old(all), log, all) && old(log) <= log && !r.Refused?
      ensures r.Failed? <==> !Unstopped(who, old(all), log, |old(log)|)
      ensures r.Done? ==> AllAsked(who, log, |old(log)|)
      ensures forall n | |old(log)| <= n < |log| :: !log[n].Info?
      ensures r.Done? ==> exists n :: |old(log)| <= n < |log| && log[n] == DeleteListing
      ensures r.Done? ==> forall n | |old(log)| <= n < |log| && log[n] == DeleteListing ::
                all == (if works(n, DeleteListing) then Gone(Closed(old(all), who), who)
                        else Dropped(Closed(old(all), who), who))
                && (works(n, DeleteListing) ==> OwnedBy(old(all), who) !! old(all.locked))
      ensures Fine() && OwnedBy(old(all), who) !! old(all.locked) ==> r.Done?
    {
      hide Harmless, Deleted, Gone, Closed, Dropped, Unlisted, Minus, Leads, Unstopped, Asked, AllAsked, OwnedBy;
      ghost var linked, asked := all, log;
      var ok := Before(who);
      AnyHarmless(linked, all, all, who, {});
      if !ok { return Failed; }
      ghost var closed, called := all, log;
      SameOwned(linked, closed, who);
      ok := DeleteSites(who);
      Further(who, asked, linked, called, closed, log, all);
      AllAskedMore(who, called, |asked|, log);
      assert log[|called|] == DeleteListing;
      ghost var done :| all.(links := closed.links, accounts := closed.accounts) == Minus(closed, who, done);
      AnyHarmless(linked, closed, all, who, done);
      r := if ok then Done else Failed;
    }

    lemma AllAskedMore(who: Who, g: seq<Call>, from: nat, h: seq<Call>)
      requires g <= h && from <= |g| && AllAsked(who, g, from)
      ensures AllAsked(who, h, from)
    {
      hide Asked;
      AskedOn(g, from, h);
    }

    lemma AnyHarmless(linked: Everything, e: Everything, d: Everything, who: Who, done: set<Site>)
      requires Harmless(linked, e, who)
      requires d.(links := e.links, accounts := e.accounts) == Minus(e, who, done) || d == e
      ensures forall was: Everything :: linked.(links := was.links) == was ==> Harmless(was, d, who)
    {
      hide Harmless, Minus;
      forall was: Everything | linked.(links := was.links) == was ensures Harmless(was, d, who) {
        StillHarmless(was, linked, e, d, who, done);
      }
    }

    lemma NothingRead(begun: nat)
      requires forall n | begun <= n < |log| :: !log[n].Info?
      ensures forall x :: !Read(log, begun, x)
    {
    }

    lemma NoneRead(asked: seq<Call>, begun: nat)
      requires begun <= |asked| && asked <= log && forall n | |asked| <= n < |log| :: !log[n].Info?
      ensures forall x :: Read(log, begun, x) <==> Read(asked, begun, x)
    {
      assert forall n | begun <= n < |asked| :: log[n] == asked[n];
    }
  }

  lemma SameOwned(linked: Everything, closed: Everything, who: Who)
    requires closed.owners == linked.owners && closed.locked == linked.locked
    ensures OwnedBy(closed, who) == OwnedBy(linked, who)
  {
  }

  lemma StillHarmless(was: Everything, linked: Everything, e: Everything, d: Everything, who: Who, done: set<Site>)
    requires linked.(links := was.links) == was && (Harmless(linked, e, who) || e == linked)
    requires d.(links := e.links, accounts := e.accounts) == Minus(e, who, done) || d == e
    ensures Harmless(was, d, who)
  {
  }

  lemma Halves(e: Everything, linked: Everything, who: Who)
    requires linked.(links := e.links) == e && e.links <= linked.links && forall p | p in linked.links - e.links ::
      p.0 == who.id
    ensures Gone(Closed(linked, who), who) == Deleted(e, who)
    ensures Dropped(Closed(linked, who), who) == Unlisted(e, who)
    ensures OwnedBy(Deleted(e, who), who) == {} && OwnedBy(Unlisted(e, who), who) == OwnedBy(e, who)
  {
    assert SharedWith(linked, who) == SharedWith(e, who);
    var none := (set p | p in linked.links && p.0 != who.id);
    assert none == (set p | p in e.links && p.0 != who.id);
    assert EndShares(linked, who, SharedWith(linked, who)) == EndShares(e, who, SharedWith(e, who));
  }

  datatype Outcome = Refused | Failed | Done

  /** e without those of these sites that are the account's. */
  function Minus(e: Everything, who: Who, done: set<Site>): Everything {
    e.(owners := Left(e.owners, e.owners, who, done), admins := Left(e.admins, e.owners, who, done))
  }

  lemma AllListed(e: Everything, who: Who, done: set<Site>)
    ensures OwnedBy(e, who) <= done ==> Minus(e, who, done) == Minus(e, who, e.owners.Keys)
  {
  }

  /** e without the account and its markers. */
  function Dropped(e: Everything, who: Who): Everything {
    e.(links := (set p | p in e.links && p.0 != who.id), accounts := e.accounts - {who.id})
  }

  /** What a deletion leaves whose last listing failed: all of the account's sites
      stay. */
  function Unlisted(e: Everything, who: Who): Everything {
    Dropped(Closed(e, who), who)
  }

  /** After the first half, the second still to come. */
  function Closed(e: Everything, who: Who): Everything {
    e.(admins := EndShares(e, who, SharedWith(e, who)), shares := (set p | p in e.shares && p.0 != who.id),
       offers := EndOffers(e.offers, who, e.offers.Keys), invites := EndInvites(e.invites, who, e.invites.Keys))
  }

  /** The second half. */
  function Gone(e: Everything, who: Who): Everything {
    e.(owners := Left(e.owners, e.owners, who, e.owners.Keys), admins := Left(e.admins, e.owners, who, e.owners.Keys),
       links := (set p | p in e.links && p.0 != who.id), accounts := e.accounts - {who.id})
  }

  lemma LeftAll(e: Everything, who: Who)
    ensures Minus(e, who, {}) == e
  {
  }

  lemma LeftMore(e: Everything, who: Who, done: set<Site>, x: Site)
    requires x !in done
    ensures var part := Minus(e, who, done);
            && part.locked == e.locked
            && (x in part.owners <==> x in e.owners) && (x in part.owners ==> part.owners[x] == e.owners[x])
            && Minus(e, who, done + {x}) ==
               (if x in OwnedBy(e, who) then part.(owners := part.owners - {x}, admins := part.admins - {x}) else part)
  {
  }

  lemma EndNoInvites(invites: map<nat, Invite>, who: Who)
    ensures EndInvites(invites, who, {}) == invites
  {
  }

  lemma EndListedInvites(invites: map<nat, Invite>, who: Who, ids: set<nat>)
    requires forall id | id in invites && About(who, invites[id].from, invites[id].toEmail) :: id in ids
    ensures EndInvites(invites, who, ids) == EndInvites(invites, who, invites.Keys)
  {
  }

  lemma EndMoreInvites(invites: map<nat, Invite>, who: Who, done: set<nat>, id: nat)
    requires id in invites
    ensures var part := EndInvites(invites, who, done);
            && id in part
            && EndInvites(invites, who, done + {id}) ==
               (if part[id].state.Open? && About(who, invites[id].from, invites[id].toEmail)
                then part[id := EndInvite(part[id], who)] else part)
  {
  }

  lemma EndNoOffers(book: Book, who: Who)
    ensures EndOffers(book, who, {}) == book
  {
  }

  /** The offers not listed are not about the account. */
  lemma EndListed(book: Book, who: Who, ids: set<OfferId>)
    requires forall id | id in book && About(who, book[id].from, book[id].toEmail) :: id in ids
    ensures EndOffers(book, who, ids) == EndOffers(book, who, book.Keys)
  {
  }

  lemma EndMoreOffers(book: Book, who: Who, done: set<OfferId>, id: OfferId)
    requires id in book
    ensures var part := EndOffers(book, who, done);
            && id in part
            && EndOffers(book, who, done + {id}) ==
               (if Editable(part[id]) && About(who, book[id].from, book[id].toEmail)
                then part[id := Apply(part[id], EndFor(who.id)).value] else part)
  {
  }

  lemma EndNone(e: Everything, who: Who)
    ensures EndShares(e, who, {}) == e.admins
  {
  }

  lemma EndMore(e: Everything, who: Who, done: set<Site>, x: Site)
    requires x !in done && e.admins.Keys == e.owners.Keys
    ensures var part := EndShares(e, who, done);
            && part.Keys == e.admins.Keys && (x in part ==> part[x] == e.admins[x])
            && EndShares(e, who, done + {x}) ==
               (if Ends(e, who, x) then part[x := Without(e.admins[x], who.id)] else part)
  {
  }

  /** A deletion that went through is complete: no site names the account, no
      open record is from it or to its address, and the admin entries left of it
      are on locked sites. Everybody else's entries are as they were. */
  lemma DeletionIsComplete(e: Everything, who: Who)
    requires e.admins.Keys == e.owners.Keys && who.id != NOBODY
    requires forall x | x in e.admins && who.id in e.admins[x] :: (who.id, x) in e.shares && e.owners[x] != NOBODY
    ensures var d := Deleted(e, who);
            && (forall x | x in d.owners :: d.owners[x] != who.id)
            && (forall x | x in e.owners && e.owners[x] != who.id :: x in d.owners && d.owners[x] == e.owners[x])
            && (forall id | id in d.offers && About(who, d.offers[id].from, d.offers[id].toEmail) ::
               !Editable(d.offers[id]))
            && (forall id | id in d.invites && About(who, d.invites[id].from, d.invites[id].toEmail) ::
               !d.invites[id].state.Open?)
            && (forall x | x in d.admins && who.id in d.admins[x] :: x in e.locked)
            && (forall x, b | x in d.admins && b != who.id :: b in d.admins[x] <==> b in e.admins[x])
            && (forall x | x in d.admins && (who.id, x) !in e.shares :: d.admins[x] == e.admins[x])
  {
    forall x | x in e.admins { WithoutIs(e.admins[x], who.id); }
  }

  /** The account's own records end as cancelled, those made to it as expired;
      what was accepted, or is being accepted, stays. */
  lemma HowRecordsEnd(e: Everything, who: Who, id: OfferId)
    requires id in e.offers
    ensures var o, d := e.offers[id], Deleted(e, who).offers[id];
            d == if !About(who, o.from, o.toEmail) || !Editable(o) then o
                 else if o.from == who.id then o.(state := Cancelled)
                 else o.(state := Expired)
  {
  }

  /** And so do invitations. */
  lemma HowInvitesEnd(e: Everything, who: Who, id: nat)
    requires id in e.invites
    ensures var i, d := e.invites[id], Deleted(e, who).invites[id];
            d == if !About(who, i.from, i.toEmail) || !i.state.Open? then i
                 else if i.from == who.id then i.(state := Invitations.Cancelled)
                 else i.(state := Invitations.Expired)
  {
  }

  /** One account with one site, and nothing else. */
  const ALONE := Everything(map[5 := 1], map[5 := []], {}, {(1, 5)}, {}, map[], map[], {1})

  /** Every call works but the last listing of the account's markers: the
      deletion says that it is done, the account is gone, and its site names it
      still. */
  method DoneWithASiteLeft() returns (r: Outcome, owners: map<Site, Account>, accounts: set<Account>)
    ensures r.Done? && owners == map[5 := 1] && accounts == {}
  {
    var server := new Server(ALONE, (n: nat, c: Call) => !c.DeleteListing?);
    r := server.DeleteAccount(Who(1, None));
    assert OwnedBy(ALONE, Who(1, None)) !! ALONE.locked;
    owners, accounts := server.all.owners, server.all.accounts;
  }
}
