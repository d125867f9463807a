/** The host rule when an offer is made or edited: a host moves whole, so the
    sender's other sites on a host of the bundle must come along. */
module HostClosure {
  import opened Prelude
  import opened Offers
  import opened AcceptCheck

  predicate Closed(w: World, bundle: set<Site>, sender: Account) {
    HostConflicts(w, bundle, sender) == {}
  }

  /** What planOffer answers to a posted bundle, as far as its sites decide. */
  datatype Answer = Empty | TooMany | NotOwnable | Conflict(all: seq<Site>, blocked: seq<Site>) | Fits

  predicate Ownable(w: World, sites: set<Site>, sender: Account) {
    forall x | x in sites :: x in w.owners && w.owners[x] == sender && x !in w.locked
  }

  /** hostRule's list, from the conflicts by host: each site once. */
  method Listed(found: seq<seq<Site>>, bundle: seq<Site>) returns (conflicts: seq<Site>)
    ensures NoDup(conflicts)
    ensures forall x :: x in conflicts <==> x !in bundle && exists i | 0 <= i < |found| :: x in found[i]
  {
    conflicts := [];
    for i := 0 to |found|
      invariant NoDup(conflicts)
      invariant forall x :: x in conflicts <==> x !in bundle && exists k | 0 <= k < i :: x in found[k]
    {
      for j := 0 to |found[i]|
        invariant NoDup(conflicts)
        invariant forall x :: x in conflicts <==>
          x !in bundle && (x in found[i][..j] || exists k | 0 <= k < i :: x in found[k])
      {
        if found[i][j] !in bundle && found[i][j] !in conflicts { conflicts := conflicts + [found[i][j]]; }
      }
      assert found[i][..|found[i]|] == found[i];
    }
  }

  /** planOffer on a bundle, and what "Add them to the bundle" would post. found
      is the site service's answer, host by host. */
  method Post(w: World, sites: seq<Site>, sender: Account, found: seq<seq<Site>>) returns (a: Answer)
    requires forall x :: x in HostConflicts(w, Elems(sites), sender) <==> exists i | 0 <= i < |found| :: x in found[i]
    ensures a.Empty? <==> sites == []
    ensures a.TooMany? <==> |sites| > MAX_BUNDLE
    ensures a.NotOwnable? <==> 1 <= |sites| <= MAX_BUNDLE && !Ownable(w, Elems(sites), sender)
    ensures a.Fits? <==>
      1 <= |sites| <= MAX_BUNDLE && Ownable(w, Elems(sites), sender) && Closed(w, Elems(sites), sender)
    ensures a.Conflict? ==>
              && Elems(a.all) == Elems(sites) + HostConflicts(w, Elems(sites), sender) &&
                 (NoDup(sites) ==> NoDup(a.all))
              && Elems(a.blocked) == HostConflicts(w, Elems(sites), sender) * w.locked
  {
    if sites == [] { return Empty; }
    if |sites| > MAX_BUNDLE { return TooMany; }
    if exists x | x in sites :: !(x in w.owners && w.owners[x] == sender && x !in w.locked) { return NotOwnable; }
    assert Ownable(w, Elems(sites), sender);
    var conflicts := Listed(found, sites);
    assert Elems(conflicts) == HostConflicts(w, Elems(sites), sender);
    if conflicts == [] { return Fits; }
    var blocked := [];
    for i := 0 to |conflicts|
      invariant Elems(blocked) == Elems(conflicts[..i]) * w.locked
    {
      assert conflicts[..i + 1] == conflicts[..i] + [conflicts[i]];
      ElemsAppend(conflicts[..i], [conflicts[i]]);
      if conflicts[i] in w.locked {
        ElemsAppend(blocked, [conflicts[i]]);
        blocked := blocked + [conflicts[i]];
      }
    }
    assert conflicts[..|conflicts|] == conflicts;
    assert conflicts[0] in Elems(conflicts);
    AddedElems(sites, conflicts);
    a := Conflict(Added(sites, conflicts), blocked);
  }

  // ---- the least closed bundle ----

  function SitesOf(w: World, sender: Account): set<Site> {
    set x | x in w.owners && w.owners[x] == sender
  }

  /** Adding the conflicts again and again. */
  function Closure(w: World, bundle: set<Site>, sender: Account): set<Site>
    decreases SitesOf(w, sender) - bundle
  {
    var more := HostConflicts(w, bundle, sender);
    if more == {} then bundle
    else
      assert SitesOf(w, sender) - (bundle + more) < SitesOf(w, sender) - bundle by {
        var y :| y in more; assert y in SitesOf(w, sender) - bundle;
      }
      Closure(w, bundle + more, sender)
  }

  lemma ConflictsOfMore(w: World, a: set<Site>, b: set<Site>, sender: Account)
    requires a <= b
    ensures HostConflicts(w, a, sender) <= HostConflicts(w, b, sender) + b
  {
    forall y | y in HostConflicts(w, a, sender) && y !in b ensures y in HostConflicts(w, b, sender) {
      var x :| x in a && ShareHost(w, x, y);
      assert x in b;
    }
  }

  /** It is closed, contains the bundle, adds only the sender's sites, and every
      closed bundle that contains the first contains it. */
  lemma {:induction false} ClosureIsLeast(w: World, bundle: set<Site>, sender: Account)
    ensures Closed(w, Closure(w, bundle, sender), sender)
    ensures bundle <= Closure(w, bundle, sender) <= bundle + SitesOf(w, sender)
    ensures forall c | bundle <= c && Closed(w, c, sender) :: Closure(w, bundle, sender) <= c
    decreases SitesOf(w, sender) - bundle
  {
    var more := HostConflicts(w, bundle, sender);
    if more != {} {
      assert SitesOf(w, sender) - (bundle + more) < SitesOf(w, sender) - bundle by {
        var y :| y in more; assert y in SitesOf(w, sender) - bundle;
      }
      ClosureIsLeast(w, bundle + more, sender);
      forall c | bundle <= c && Closed(w, c, sender) ensures Closure(w, bundle, sender) <= c {
        ConflictsOfMore(w, bundle, c, sender);
        assert bundle + more <= c;
      }
    }
  }

  /** What the site service answers, for any bundle. */
  ghost predicate Answers(w: World, sender: Account, reports: seq<Site> -> seq<seq<Site>>) {
    forall sites: seq<Site>, x :: x in HostConflicts(w, Elems(sites), sender) <==>
      exists i | 0 <= i < |reports(sites)| :: x in reports(sites)[i]
  }

  /** Someone posts a bundle, and adds what is asked for until nothing is. It
      ends with a bundle that fits exactly if the closure of the first does, and
      then with the closure; every round adds at least one site. */
  method AddUntilItFits(w: World, first: seq<Site>, sender: Account, reports: seq<Site> -> seq<seq<Site>>)
    returns (sites: seq<Site>, a: Answer)
    requires Answers(w, sender, reports) && NoDup(first) && first != []
    ensures a.Fits? ==> NoDup(sites) && Elems(sites) == Closure(w, Elems(first), sender)
    ensures a.Fits? <==>
      |Closure(w, Elems(first), sender)| <= MAX_BUNDLE && Ownable(w, Closure(w, Elems(first), sender), sender)
  {
    sites := first;
    ghost var end := Closure(w, Elems(first), sender);
    while true
      invariant NoDup(sites) && sites != [] && Closure(w, Elems(sites), sender) == end
      decreases SitesOf(w, sender) - Elems(sites)
    {
      a := Post(w, sites, sender, reports(sites));
      ClosureIsLeast(w, Elems(sites), sender);
      NoDupSize(sites);
      if !a.Conflict? {
        Fitting(w, sites, sender, a);
        return;
      }
      assert Elems(a.all) - Elems(sites) != {};
      var y :| y in HostConflicts(w, Elems(sites), sender);
      assert y in SitesOf(w, sender) - Elems(sites);
      sites := a.all;
      assert y in Elems(sites);
    }
  }

  lemma Fitting(w: World, sites: seq<Site>, sender: Account, a: Answer)
    requires sites != [] && NoDup(sites)
    requires a.TooMany? <==> |sites| > MAX_BUNDLE
    requires a.NotOwnable? <==> 1 <= |sites| <= MAX_BUNDLE && !Ownable(w, Elems(sites), sender)
    requires a.Fits? <==>
      1 <= |sites| <= MAX_BUNDLE && Ownable(w, Elems(sites), sender) && Closed(w, Elems(sites), sender)
    requires !a.Conflict? && !a.Empty?
    ensures var end := Closure(w, Elems(sites), sender);
            && (a.Fits? ==> Elems(sites) == end)
            && (a.Fits? <==> |end| <= MAX_BUNDLE && Ownable(w, end, sender))
  {
    var end := Closure(w, Elems(sites), sender);
    ClosureIsLeast(w, Elems(sites), sender);
    NoDupSize(sites);
    SubsetSize(Elems(sites), end);
    assert Elems(sites) <= end;
  }

  lemma SubsetSize(a: set<Site>, b: set<Site>)
    requires a <= b
    ensures |a| <= |b|
  {
    assert b == a + (b - a);
  }

  // ---- editing an offer ----

  /** What "Add them to the bundle" posts on an edit: the conflicts are added,
      and none of them is removed any more. */
  lemma RepostAddsTheConflicts(cur: seq<Site>, add: seq<Site>, remove: seq<Site>, conflicts: seq<Site>)
    ensures Elems(BundleAfter(cur, BundleAfter(add, conflicts, []), Removed(remove, conflicts))) ==
            Elems(BundleAfter(cur, add, remove)) + Elems(conflicts)
  {
    BundleAfterElems(cur, add, remove);
    BundleAfterElems(add, conflicts, []);
    RemovedElems(remove, conflicts);
    BundleAfterElems(cur, BundleAfter(add, conflicts, []), Removed(remove, conflicts));
    assert Elems<Site>([]) == {};
  }

  // ---- one owner per host ----

  ghost predicate OneOwnerPerHost(w: World) {
    forall x, y | x in w.owners && y in w.owners && ShareHost(w, x, y) :: w.owners[x] == w.owners[y]
  }

  lemma ClosedMeans(w: World, bundle: set<Site>, from: Account)
    requires Closed(w, bundle, from)
    ensures forall x, y | x in bundle && y in w.owners && w.owners[y] == from && ShareHost(w, x, y) :: y in bundle
  {
    forall x, y | x in bundle && y in w.owners && w.owners[y] == from && ShareHost(w, x, y) ensures y in bundle {
      assert y in bundle || y in HostConflicts(w, bundle, from);
    }
  }

  /** Handing over a bundle keeps one owner per host exactly if it is closed. */
  lemma ClosedKeepsHostsWhole(w: World, bundle: set<Site>, from: Account, to: Account)
    requires OneOwnerPerHost(w) && from != to
    requires bundle <= SitesOf(w, from)
    ensures OneOwnerPerHost(w.(owners := map x | x in w.owners :: if x in bundle then to else w.owners[x])) <==>
      Closed(w, bundle, from)
  {
    var v := w.(owners := map x | x in w.owners :: if x in bundle then to else w.owners[x]);
    forall x, y ensures ShareHost(v, x, y) <==> ShareHost(w, x, y) {
      SameShare(w, v, x, y);
      SameShare(v, w, x, y);
    }
    if Closed(w, bundle, from) {
      ClosedMeans(w, bundle, from);
      forall x, y | x in v.owners && y in v.owners && ShareHost(v, x, y) ensures v.owners[x] == v.owners[y] {
        ShareBack(w, x, y);
      }
    } else {
      var y :| y in HostConflicts(w, bundle, from);
      var x :| x in bundle && ShareHost(w, x, y);
      assert ShareHost(v, x, y) && v.owners[x] != v.owners[y];
    }
  }

  lemma SameShare(w: World, v: World, x: Site, y: Site)
    requires v.sites == w.sites
    ensures ShareHost(w, x, y) ==> ShareHost(v, x, y)
  {
    if ShareHost(w, x, y) {
      var i :| 0 <= i < |w.sites[x].addresses| && OnHost(w, y, w.sites[x].addresses[i].host);
      assert OnHost(v, y, w.sites[x].addresses[i].host);
    }
  }

  lemma ShareBack(w: World, x: Site, y: Site)
    requires ShareHost(w, x, y)
    ensures ShareHost(w, y, x)
  {
    var i :| 0 <= i < |w.sites[x].addresses| && OnHost(w, y, w.sites[x].addresses[i].host);
    var j :| 0 <= j < |w.sites[y].addresses| && w.sites[y].addresses[j].host == w.sites[x].addresses[i].host;
    assert OnHost(w, x, w.sites[y].addresses[j].host);
  }
}
