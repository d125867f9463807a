/** The re-check before sites move (acceptCheck) with the host rule and the
    limits check, and why partial progress never makes it refuse. */
module AcceptCheck {
  import opened Prelude

  type Host = nat

  datatype Tier = Tier(sharing: bool, maxSites: int, maxContainers: int, maxSiteBytes: int, maxFiles: int,
                       customDomains: int, maxForms: int)

  /** What an account's plan is known to be: no tiers at all (accounts mode), a
      tier, or a tier nobody configured or PayGate could not name. */
  datatype Plan = NoTiers | OnTier(tier: Tier) | UnknownTier

  datatype Standing = Missing | Suspended | Live

  /** A custom domain: its host, and whether it is bound to the account and so
      does not move with the site. */
  datatype Address = Address(host: Host, bound: bool)

  datatype SiteFacts = SiteFacts(addresses: seq<Address>, bytes: nat, files: nat, forms: int,
                                 counts: bool, services: nat)

  datatype World = World(
    owners: map<Site, Account>,
    locked: set<Site>,
    all: seq<Site>,                 // every site, as the container runtime lists them
    sites: map<Site, SiteFacts>,
    sender: Standing, senderPlan: Plan,
    recipient: Standing, plan: Plan,
    mailSuspended: bool,            // the offer's address belongs to a verified, suspended account
    links: set<Site>                // the recipient's site markers
  )

  ghost predicate Sane(w: World) {
    && NoDup(w.all)
    && Elems(w.all) == w.owners.Keys == w.sites.Keys
  }

  datatype Answer<+T> = Unknown | Known(value: T)

  function SharingAllowed(st: Standing, plan: Plan): Answer<bool> {
    if !st.Live? then Known(false)
    else if plan.NoTiers? then Known(true)
    else if plan.OnTier? then Known(plan.tier.sharing)
    else Unknown
  }

  // ---- the host rule ----

  predicate OnHost(w: World, x: Site, h: Host) {
    x in w.sites && exists i | 0 <= i < |w.sites[x].addresses| :: w.sites[x].addresses[i].host == h
  }

  predicate ShareHost(w: World, x: Site, y: Site) {
    x in w.sites && exists i | 0 <= i < |w.sites[x].addresses| :: OnHost(w, y, w.sites[x].addresses[i].host)
  }

  /** The sender's other sites that share a host with the bundle. */
  function HostConflicts(w: World, bundle: set<Site>, sender: Account): set<Site> {
    set y | y in w.owners && w.owners[y] == sender && y !in bundle && exists x | x in bundle :: ShareHost(w, x, y)
  }

  // ---- the limits check ----

  datatype Label = SharingLine | SitesLine | ContainerLine | StorageLine | FilesLine | DomainsLine | FormsLine

  datatype Line = Line(ok: bool, kind: Label, site: Option<Site>)

  function Owned(w: World, to: Account): set<Site> {
    set m | m in w.links && (m !in w.owners || w.owners[m] == to)
  }

  function Services(w: World, x: Site): nat {
    if x in w.sites && w.sites[x].counts then w.sites[x].services else 0
  }

  function Incoming(w: World, ids: seq<Site>): nat {
    if ids == [] then 0 else Incoming(w, ids[..|ids| - 1]) + Services(w, ids[|ids| - 1])
  }

  /** The services the account runs, counted over every site it owns. */
  function Running(w: World, to: Account, all: seq<Site>): nat {
    if all == [] then 0
    else
      var x := all[|all| - 1];
      Running(w, to, all[..|all| - 1]) + (if x in w.owners && w.owners[x] == to then Services(w, x) else 0)
  }

  function Moving(a: seq<Address>): nat {
    if a == [] then 0 else Moving(a[..|a| - 1]) + (if a[|a| - 1].bound then 0 else 1)
  }

  function SiteLines(t: Tier, f: SiteFacts, x: Site): seq<Line> {
    (if t.maxSiteBytes > 0 then [Line(f.bytes <= t.maxSiteBytes, StorageLine, Some(x))] else [])
    + (if t.maxFiles > 0 then [Line(f.files <= t.maxFiles, FilesLine, Some(x))] else [])
    + [Line(Moving(f.addresses) <= t.customDomains, DomainsLine, Some(x))]
    + [Line(f.forms <= t.maxForms, FormsLine, Some(x))]
  }

  function AllSiteLines(w: World, t: Tier, ids: seq<Site>): seq<Line>
    requires forall x | x in ids :: x in w.sites
  {
    if ids == [] then []
    else
      var x := ids[|ids| - 1];
      AllSiteLines(w, t, ids[..|ids| - 1]) + SiteLines(t, w.sites[x], x)
  }

  function BundleLines(w: World, t: Tier, to: Account, ids: seq<Site>): seq<Line> {
    (if t.maxSites > 0 then [Line(|Owned(w, to)| + |ids| <= t.maxSites, SitesLine, None)] else [])
    + (if Incoming(w, ids) > 0
       then [Line(Running(w, to, w.all) + Incoming(w, ids) <= t.maxContainers, ContainerLine, None)] else [])
  }

  function LimitLines(w: World, to: Account, ids: seq<Site>): Answer<seq<Line>> {
    match SharingAllowed(w.recipient, w.plan)
    case Unknown => Unknown
    case Known(allowed) =>
      var sharing := [Line(allowed, SharingLine, None)];
      match w.plan
      case NoTiers => Known(sharing)
      case UnknownTier => Unknown
      case OnTier(t) =>
        if exists x | x in ids :: x !in w.sites then Unknown
        else Known(sharing + BundleLines(w, t, to, ids) + AllSiteLines(w, t, ids))
  }

  method LimitsCheck(w: World, to: Account, ids: seq<Site>) returns (lines: seq<Line>, known: bool)
    ensures known <==> LimitLines(w, to, ids).Known?
    ensures known ==> lines == LimitLines(w, to, ids).value
  {
    lines := [];
    var allowed := SharingAllowed(w.recipient, w.plan);
    if allowed.Unknown? { return [], false; }
    lines := [Line(allowed.value, SharingLine, None)];
    if w.plan.NoTiers? { return lines, true; }
    if w.plan.UnknownTier? { return [], false; }
    for i := 0 to |ids|
      invariant forall x | x in ids[..i] :: x in w.sites
    {
      if ids[i] !in w.sites { return [], false; }
    }
    assert ids[..|ids|] == ids;
    var bundle := CheckBundle(w, w.plan.tier, to, ids);
    var each := CheckSites(w, w.plan.tier, ids);
    return lines + bundle + each, true;
  }

  method CheckBundle(w: World, tier: Tier, to: Account, ids: seq<Site>) returns (lines: seq<Line>)
    requires forall x | x in ids :: x in w.sites
    ensures lines == BundleLines(w, tier, to, ids)
  {
    lines := [];
    if tier.maxSites > 0 {
      lines := [Line(|Owned(w, to)| + |ids| <= tier.maxSites, SitesLine, None)];
    }
    var incoming := 0;
    for i := 0 to |ids|
      invariant incoming == Incoming(w, ids[..i])
    {
      assert ids[..i + 1][..i] == ids[..i];
      if w.sites[ids[i]].counts { incoming := incoming + w.sites[ids[i]].services; }
    }
    assert ids[..|ids|] == ids;
    if incoming > 0 {
      var running := CountRunning(w, to);
      lines := lines + [Line(running + incoming <= tier.maxContainers, ContainerLine, None)];
    }
  }

  method CountRunning(w: World, to: Account) returns (running: nat)
    ensures running == Running(w, to, w.all)
  {
    running := 0;
    for i := 0 to |w.all|
      invariant running == Running(w, to, w.all[..i])
    {
      assert w.all[..i + 1][..i] == w.all[..i];
      if w.all[i] in w.owners && w.owners[w.all[i]] == to && w.all[i] in w.sites && w.sites[w.all[i]].counts {
        running := running + w.sites[w.all[i]].services;
      }
    }
    assert w.all[..|w.all|] == w.all;
  }

  method CheckSites(w: World, tier: Tier, ids: seq<Site>) returns (lines: seq<Line>)
    requires forall x | x in ids :: x in w.sites
    ensures lines == AllSiteLines(w, tier, ids)
  {
    lines := [];
    for i := 0 to |ids|
      invariant lines == AllSiteLines(w, tier, ids[..i])
    {
      assert ids[..i + 1][..i] == ids[..i];
      var f := w.sites[ids[i]];
      var own := [];
      if tier.maxSiteBytes > 0 { own := own + [Line(f.bytes <= tier.maxSiteBytes, StorageLine, Some(ids[i]))]; }
      if tier.maxFiles > 0 { own := own + [Line(f.files <= tier.maxFiles, FilesLine, Some(ids[i]))]; }
      var moving := CountMoving(f.addresses);
      own := own + [Line(moving <= tier.customDomains, DomainsLine, Some(ids[i]))];
      own := own + [Line(f.forms <= tier.maxForms, FormsLine, Some(ids[i]))];
      assert own == SiteLines(tier, f, ids[i]);
      lines := lines + own;
    }
    assert ids[..|ids|] == ids;
  }

  method CountMoving(a: seq<Address>) returns (moving: nat)
    ensures moving == Moving(a)
  {
    moving := 0;
    for i := 0 to |a|
      invariant moving == Moving(a[..i])
    {
      assert a[..i + 1][..i] == a[..i];
      if !a[i].bound { moving := moving + 1; }
    }
    assert a[..|a|] == a;
  }

  // ---- the re-check ----

  datatype Refusal = PausedKind | GoneKind | HostKind | PlanKind | LimitsKind

  predicate AllOk(lines: seq<Line>) {
    forall l | l in lines :: l.ok
  }

  function Check(w: World, from: Account, to: Account, ids: seq<Site>): Answer<Option<Refusal>> {
    if !w.sender.Live? then Known(Some(PausedKind))
    else if SharingAllowed(w.sender, w.senderPlan).Unknown? then Unknown
    else if !SharingAllowed(w.sender, w.senderPlan).value then Known(Some(PausedKind))
    else if (exists x | x in ids :: x in w.owners && x in w.locked) || w.mailSuspended then Known(Some(PausedKind))
    else if exists x | x in ids :: x !in w.owners || w.owners[x] != from then Known(Some(GoneKind))
    else if HostConflicts(w, Elems(ids), from) != {} then Known(Some(HostKind))
    else
      match LimitLines(w, to, ids)
      case Unknown => Unknown
      case Known(lines) =>
        if AllOk(lines) then Known(None)
        else if Line(false, SharingLine, None) in lines then Known(Some(PlanKind))
        else Known(Some(LimitsKind))
  }

  predicate Clear(w: World, from: Account, to: Account, ids: seq<Site>) {
    Check(w, from, to, ids) == Known(None)
  }

  // ---- partial progress ----

  /** After some of the bundle's sites moved: they are the recipient's, linked
      to it, and their services still run; nothing else changed. A moved site's
      addresses and sizes may be anything, and a site whose transfer failed may
      have left a stray marker. */
  ghost predicate AfterMoving(w: World, v: World, bundle: set<Site>, moved: set<Site>, to: Account) {
    && moved <= bundle <= w.owners.Keys
    && v.owners.Keys == w.owners.Keys
    && (forall x | x in w.owners :: v.owners[x] == if x in moved then to else w.owners[x])
    && v.all == w.all
    && v.sites.Keys == w.sites.Keys
    && (forall x | x in w.sites && x !in moved :: v.sites[x] == w.sites[x])
    && (forall x | x in moved && x in w.sites :: Services(v, x) == Services(w, x))
    && v.(owners := w.owners, sites := w.sites, links := w.links) == w
    && w.links + moved <= v.links <= w.links + bundle
  }

  /** The re-check of the rest meets no host conflict the whole bundle lacked. */
  lemma NoNewConflict(w: World, v: World, bundle: set<Site>, moved: set<Site>, from: Account, to: Account)
    requires AfterMoving(w, v, bundle, moved, to) && from != to
    ensures HostConflicts(v, bundle - moved, from) <= HostConflicts(w, bundle, from)
  {
    forall y | y in HostConflicts(v, bundle - moved, from) ensures y in HostConflicts(w, bundle, from) {
      var x :| x in bundle - moved && ShareHost(v, x, y);
      var i :| 0 <= i < |v.sites[x].addresses| && OnHost(v, y, v.sites[x].addresses[i].host);
      assert OnHost(w, y, w.sites[x].addresses[i].host);
      assert ShareHost(w, x, y);
    }
  }

  function Chosen(w: World, ids: set<Site>, all: seq<Site>): nat {
    if all == [] then 0
    else Chosen(w, ids, all[..|all| - 1]) + (if all[|all| - 1] in ids then Services(w, all[|all| - 1]) else 0)
  }

  lemma {:induction false} ChosenAdd(w: World, ids: set<Site>, x: Site, all: seq<Site>)
    requires NoDup(all) && x !in ids
    ensures Chosen(w, ids + {x}, all) == Chosen(w, ids, all) + (if x in all then Services(w, x) else 0)
  {
    if all != [] { ChosenAdd(w, ids, x, all[..|all| - 1]); }
  }

  lemma {:induction false} ChosenNone(w: World, all: seq<Site>)
    ensures Chosen(w, {}, all) == 0
  {
    if all != [] { ChosenNone(w, all[..|all| - 1]); }
  }

  lemma {:induction false} IncomingIsChosen(w: World, ids: seq<Site>, all: seq<Site>)
    requires NoDup(ids) && NoDup(all) && Elems(ids) <= Elems(all)
    ensures Incoming(w, ids) == Chosen(w, Elems(ids), all)
  {
    if ids == [] {
      assert Elems(ids) == {};
      ChosenNone(w, all);
    } else {
      var front, x := ids[..|ids| - 1], ids[|ids| - 1];
      assert ids == front + [x];
      ElemsAppend(front, [x]);
      assert Elems(ids) == Elems(front) + {x};
      IncomingIsChosen(w, front, all);
      assert x !in Elems(front) && x in Elems(ids);
      ChosenAdd(w, Elems(front), x, all);
    }
  }

  lemma {:induction false} ServicesConserved(w: World, v: World, bundle: set<Site>, moved: set<Site>, from: Account,
                                        to: Account, all: seq<Site>)
    requires AfterMoving(w, v, bundle, moved, to) && from != to
    requires forall x | x in bundle :: w.owners[x] == from
    ensures Running(v, to, all) + Chosen(v, bundle - moved, all) == Running(w, to, all) + Chosen(w, bundle, all)
    ensures Chosen(v, bundle - moved, all) <= Chosen(w, bundle, all)
  {
    if all != [] {
      ServicesConserved(w, v, bundle, moved, from, to, all[..|all| - 1]);
    }
  }

  /** Owned, moved and remaining sites add up to the same total at every point
      of the way. */
  lemma SitesConserved(w: World, v: World, bundle: seq<Site>, rest: seq<Site>, moved: set<Site>, from: Account,
                       to: Account)
    requires NoDup(bundle) && NoDup(rest) && Elems(rest) == Elems(bundle) - moved
    requires AfterMoving(w, v, Elems(bundle), moved, to) && from != to
    requires forall x | x in Elems(bundle) :: w.owners[x] == from
    ensures |Owned(v, to)| + |rest| == |Owned(w, to)| + |bundle|
  {
    OwnedAfter(w, v, Elems(bundle), moved, from, to);
    assert Owned(w, to) !! moved;
    NoDupSize(bundle);
    NoDupSize(rest);
    assert Elems(bundle) == Elems(rest) + moved;
  }

  lemma OwnedAfter(w: World, v: World, bundle: set<Site>, moved: set<Site>, from: Account, to: Account)
    requires AfterMoving(w, v, bundle, moved, to) && from != to
    requires forall x | x in bundle :: w.owners[x] == from
    ensures Owned(v, to) == Owned(w, to) + moved
  {
    forall m ensures m in Owned(v, to) <==> m in Owned(w, to) + moved {
    }
  }

  /** And so do the container services: running, moved and still to come. */
  lemma ServicesTotal(w: World, v: World, bundle: seq<Site>, rest: seq<Site>, moved: set<Site>, from: Account,
                      to: Account)
    requires Sane(w) && NoDup(bundle) && NoDup(rest) && Elems(rest) == Elems(bundle) - moved
    requires AfterMoving(w, v, Elems(bundle), moved, to) && from != to
    requires forall x | x in Elems(bundle) :: w.owners[x] == from
    ensures Running(v, to, v.all) + Incoming(v, rest) == Running(w, to, w.all) + Incoming(w, bundle)
    ensures Incoming(v, rest) <= Incoming(w, bundle)
  {
    IncomingIsChosen(w, bundle, w.all);
    IncomingIsChosen(v, rest, w.all);
    ServicesConserved(w, v, Elems(bundle), moved, from, to, w.all);
  }

  lemma {:induction false} SiteLinesOk(w: World, t: Tier, ids: seq<Site>)
    requires forall x | x in ids :: x in w.sites
    ensures AllOk(AllSiteLines(w, t, ids)) <==> forall x | x in ids :: AllOk(SiteLines(t, w.sites[x], x))
  {
    if ids != [] {
      var front, x := ids[..|ids| - 1], ids[|ids| - 1];
      SiteLinesOk(w, t, front);
      assert ids == front + [x];
      AllOkAppend(AllSiteLines(w, t, front), SiteLines(t, w.sites[x], x));
    }
  }

  lemma AllOkAppend(a: seq<Line>, b: seq<Line>)
    ensures AllOk(a + b) <==> AllOk(a) && AllOk(b)
  {
    assert forall l | l in a :: l in a + b;
    assert forall l | l in b :: l in a + b;
  }

  lemma LinesStillOk(w: World, v: World, bundle: seq<Site>, rest: seq<Site>, moved: set<Site>, from: Account,
                     to: Account)
    requires Sane(w) && NoDup(bundle) && NoDup(rest) && Elems(rest) == Elems(bundle) - moved
    requires AfterMoving(w, v, Elems(bundle), moved, to) && from != to
    requires forall x | x in Elems(bundle) :: w.owners[x] == from
    requires w.plan.OnTier? && (forall x | x in bundle :: x in w.sites) && (forall x | x in rest :: x in v.sites)
    requires AllOk(BundleLines(w, w.plan.tier, to, bundle)) && AllOk(AllSiteLines(w, w.plan.tier, bundle))
    ensures AllOk(BundleLines(v, w.plan.tier, to, rest)) && AllOk(AllSiteLines(v, w.plan.tier, rest))
  {
    var t := w.plan.tier;
    SitesConserved(w, v, bundle, rest, moved, from, to);
    ServicesTotal(w, v, bundle, rest, moved, from, to);
    SiteLinesOk(w, t, bundle);
    SiteLinesOk(v, t, rest);
    forall x | x in rest ensures AllOk(SiteLines(t, v.sites[x], x)) {
      assert x in Elems(rest);
      assert x in bundle;
    }
    BundleOk(w, t, to, bundle);
    BundleOk(v, t, to, rest);
  }

  lemma BundleOk(w: World, t: Tier, to: Account, ids: seq<Site>)
    ensures AllOk(BundleLines(w, t, to, ids)) <==>
              && (t.maxSites > 0 ==> |Owned(w, to)| + |ids| <= t.maxSites)
              && (Incoming(w, ids) > 0 ==> Running(w, to, w.all) + Incoming(w, ids) <= t.maxContainers)
  {
    AllOkAppend(if t.maxSites > 0 then [Line(|Owned(w, to)| + |ids| <= t.maxSites, SitesLine, None)] else [],
                if Incoming(w, ids) > 0
                then [Line(Running(w, to, w.all) + Incoming(w, ids) <= t.maxContainers, ContainerLine, None)] else []);
  }

  /** The addresses that would move, counted as a set. */
  function MovingSet(a: seq<Address>): set<nat> {
    set i: nat | i < |a| && !a[i].bound
  }

  lemma {:induction false} MovingIs(a: seq<Address>)
    ensures Moving(a) == |MovingSet(a)|
  {
    if a != [] {
      var n := |a| - 1;
      MovingIs(a[..n]);
      assert MovingSet(a) == MovingSet(a[..n]) + (if a[n].bound then {} else {n});
    }
  }

  predicate SiteFits(t: Tier, f: SiteFacts) {
    && (t.maxSiteBytes > 0 ==> f.bytes <= t.maxSiteBytes)
    && (t.maxFiles > 0 ==> f.files <= t.maxFiles)
    && |MovingSet(f.addresses)| <= t.customDomains
    && f.forms <= t.maxForms
  }

  lemma SiteFitsIs(t: Tier, f: SiteFacts, x: Site)
    ensures AllOk(SiteLines(t, f, x)) <==> SiteFits(t, f)
  {
    MovingIs(f.addresses);
    var a := if t.maxSiteBytes > 0 then [Line(f.bytes <= t.maxSiteBytes, StorageLine, Some(x))] else [];
    var b := if t.maxFiles > 0 then [Line(f.files <= t.maxFiles, FilesLine, Some(x))] else [];
    var c, d := [Line(Moving(f.addresses) <= t.customDomains, DomainsLine, Some(x))],
      [Line(f.forms <= t.maxForms, FormsLine, Some(x))];
    AllOkAppend(a, b);
    AllOkAppend(a + b, c);
    AllOkAppend(a + b + c, d);
    assert AllOk(c) <==> c[0].ok;
    assert AllOk(d) <==> d[0].ok;
  }

  /** The limits check passes exactly if the account may share, its sites and
      these stay within the plan's number, so do its running services and these
      sites', and each site is within the plan's caps for one. */
  lemma LimitsMean(w: World, to: Account, ids: seq<Site>)
    requires Sane(w) && NoDup(ids) && w.plan.OnTier? && forall x | x in ids :: x in w.sites
    ensures var t := w.plan.tier;
            var services := Chosen(w, Elems(ids), w.all);
            LimitLines(w, to, ids).Known? && AllOk(LimitLines(w, to, ids).value) <==>
              && w.recipient.Live? && t.sharing
              && (t.maxSites > 0 ==>
                    |set m | m in w.links && (m in w.owners ==> w.owners[m] == to)| + |ids| <= t.maxSites)
              && (services > 0 ==> Running(w, to, w.all) + services <= t.maxContainers)
              && forall x | x in ids :: SiteFits(t, w.sites[x])
  {
    assert Owned(w, to) == set m | m in w.links && (m in w.owners ==> w.owners[m] == to);
    hide LimitLines, BundleLines, AllSiteLines, SiteLines, AllOk, SiteFits;
    var t := w.plan.tier;
    WhyRefused(w, to, ids);
    BundleOk(w, t, to, ids);
    assert forall x | x in Elems(ids) :: x in w.sites;
    IncomingIsChosen(w, ids, w.all);
    SiteLinesOk(w, t, ids);
    forall x | x in ids ensures AllOk(SiteLines(t, w.sites[x], x)) <==> SiteFits(t, w.sites[x]) {
      SiteFitsIs(t, w.sites[x], x);
    }
  }

  /** What a clear answer says, part by part. */
  lemma WhatClearMeans(w: World, from: Account, to: Account, ids: seq<Site>)
    requires w.owners.Keys == w.sites.Keys
    ensures Clear(w, from, to, ids) <==>
              && w.sender.Live? && (w.senderPlan.NoTiers? || (w.senderPlan.OnTier? && w.senderPlan.tier.sharing))
              && !w.mailSuspended
              && (forall x | x in Elems(ids) :: x in w.owners && w.owners[x] == from && x !in w.locked)
              && HostConflicts(w, Elems(ids), from) == {}
              && w.recipient.Live?
              && (!w.plan.NoTiers? ==>
                    && w.plan.OnTier? && w.plan.tier.sharing
                    && AllOk(BundleLines(w, w.plan.tier, to, ids))
                    && AllOk(AllSiteLines(w, w.plan.tier, ids)))
  {
    if !w.plan.UnknownTier? && forall x | x in ids :: x in w.sites { WhyRefused(w, to, ids); }
    hide HostConflicts, AllOk, BundleLines, AllSiteLines;
    assert forall x :: x in ids <==> x in Elems(ids);
  }

  /** When the limits check has no answer: of a plan that is not known, or of a site
      that is gone. Without tiers it passes exactly for an account that is there and
      not suspended. */
  lemma LimitsKnown(w: World, to: Account, ids: seq<Site>)
    ensures LimitLines(w, to, ids).Unknown? <==>
              w.plan.UnknownTier? || (w.plan.OnTier? && exists x | x in ids :: x !in w.sites)
    ensures w.plan.NoTiers? ==> (AllOk(LimitLines(w, to, ids).value) <==> w.recipient.Live?)
  {
    if w.plan.NoTiers? {
      assert LimitLines(w, to, ids).value[0] == Line(w.recipient.Live?, SharingLine, None);
    }
  }

  /** Nothing of the sender's, and nobody else's lock, stands in the way. */
  ghost predicate Offered(w: World, ids: seq<Site>) {
    && w.sender.Live? && (w.senderPlan.NoTiers? || (w.senderPlan.OnTier? && w.senderPlan.tier.sharing))
    && !w.mailSuspended && forall x | x in ids :: x in w.owners ==> x !in w.locked
  }

  /** The sites are the sender's still, and no other of its sites shares a host. */
  ghost predicate Whole(w: World, from: Account, ids: seq<Site>) {
    (forall x | x in ids :: x in w.owners && w.owners[x] == from) && HostConflicts(w, Elems(ids), from) == {}
  }

  /** What every other answer says: none while a plan that matters is not known, and
      which of the reasons comes first. */
  lemma WhatRefusalsMean(w: World, from: Account, to: Account, ids: seq<Site>)
    requires w.owners.Keys == w.sites.Keys
    ensures var c := Check(w, from, to, ids);
            && (c.Unknown? <==>
                  || (w.sender.Live? && w.senderPlan.UnknownTier?)
                  || (Offered(w, ids) && Whole(w, from, ids) && w.plan.UnknownTier?))
            && (c == Known(Some(PausedKind)) <==> !Offered(w, ids) && (w.sender.Live? ==> !w.senderPlan.UnknownTier?))
            && (c == Known(Some(GoneKind)) <==>
                  Offered(w, ids) && exists x | x in ids :: x !in w.owners || w.owners[x] != from)
            && (c == Known(Some(HostKind)) <==>
                  && Offered(w, ids) && !Whole(w, from, ids)
                  && forall x | x in ids :: x in w.owners && w.owners[x] == from)
            && (c == Known(Some(PlanKind)) <==>
                  && Offered(w, ids) && Whole(w, from, ids) && !w.plan.UnknownTier?
                  && !(w.recipient.Live? && (w.plan.NoTiers? || w.plan.tier.sharing)))
            && (c == Known(Some(LimitsKind)) <==>
                  && Offered(w, ids) && Whole(w, from, ids) && w.plan.OnTier?
                  && w.recipient.Live? && w.plan.tier.sharing
                  && !(AllOk(BundleLines(w, w.plan.tier, to, ids)) && AllOk(AllSiteLines(w, w.plan.tier, ids))))
  {
    hide HostConflicts;
    if Offered(w, ids) && Whole(w, from, ids) && !w.plan.UnknownTier? { WhyRefused(w, to, ids); }
  }

  lemma WhyRefused(w: World, to: Account, ids: seq<Site>)
    requires !w.plan.UnknownTier? && forall x | x in ids :: x in w.sites
    ensures LimitLines(w, to, ids).Known?
    ensures var lines := LimitLines(w, to, ids).value;
            var may := w.recipient.Live? && (w.plan.NoTiers? || w.plan.tier.sharing);
            && (Line(false, SharingLine, None) in lines <==> !may)
            && (AllOk(lines) <==>
                  && may
                  && (w.plan.OnTier? ==> AllOk(BundleLines(w, w.plan.tier, to, ids))
                                         && AllOk(AllSiteLines(w, w.plan.tier, ids))))
  {
    LimitsKnown(w, to, ids);
    if w.plan.OnTier? {
      var may := w.recipient.Live? && w.plan.tier.sharing;
      var a, b, c := [Line(may, SharingLine, None)], BundleLines(w, w.plan.tier, to, ids),
        AllSiteLines(w, w.plan.tier, ids);
      assert LimitLines(w, to, ids).value == a + b + c;
      AllOkAppend(a, b);
      AllOkAppend(a + b, c);
      assert AllOk(a) <==> a[0].ok;
      OtherLines(w, w.plan.tier, ids);
      assert a[0] in a + b + c;
      assert forall l | l in b :: l.kind != SharingLine;
    }
  }

  lemma {:induction false} OtherLines(w: World, t: Tier, ids: seq<Site>)
    requires forall x | x in ids :: x in w.sites
    ensures forall l | l in AllSiteLines(w, t, ids) :: l.kind != SharingLine
  {
    if ids != [] {
      var front, x := ids[..|ids| - 1], ids[|ids| - 1];
      OtherLines(w, t, front);
      assert forall l | l in SiteLines(t, w.sites[x], x) :: l.kind != SharingLine;
    }
  }

  /** Partial progress never manufactures a refusal: if the check of the whole
      bundle was clear, so is the check of what is left, whatever part moved. */
  lemma StillClear(w: World, v: World, bundle: seq<Site>, rest: seq<Site>, moved: set<Site>, from: Account, to: Account)
    requires Sane(w) && NoDup(bundle) && NoDup(rest) && Elems(rest) == Elems(bundle) - moved
    requires AfterMoving(w, v, Elems(bundle), moved, to) && from != to
    requires Clear(w, from, to, bundle)
    ensures Clear(v, from, to, rest)
  {
    WhatClearMeans(w, from, to, bundle);
    WhatClearMeans(v, from, to, rest);
    assert forall x | x in rest :: x in Elems(rest);
    NoNewConflict(w, v, Elems(bundle), moved, from, to);
    if w.plan.OnTier? {
      LinesStillOk(w, v, bundle, rest, moved, from, to);
    }
  }
}
