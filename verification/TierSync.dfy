/** Bringing an account's sites to its current tier (syncTier, restampSites),
    pass after pass, with failures anywhere. */
module TierSync {
  import opened Prelude

  type TierId = string

  datatype Config = Config(tiers: set<TierId>, defaultTier: TierId)

  /** PayGate's answer: not asked or none, a failure, or a tier id. */
  datatype Live = NoAnswer | Failure | Says(id: TierId)

  /** An account: its stored tier, its site markers, and the tier whose caps each
      existing site was last stamped with. */
  datatype Account = Account(tier: TierId, links: set<Site>, stamps: map<Site, TierId>)

  /** One pass: what PayGate says, and which calls fail. */
  datatype Pass = Pass(live: Live, lists: bool, unreadable: set<Site>, refused: set<Site>,
    kept: set<Site>, stores: bool)

  /** storedTier: with no tier at all, the default; None for a tier nobody
      configured. */
  function StoredTier(cfg: Config, tier: TierId): Option<TierId> {
    if tier == "" then (if cfg.defaultTier in cfg.tiers then Some(cfg.defaultTier) else None)
    else if tier in cfg.tiers then Some(tier)
    else None
  }

  /** effectiveTierStrict: None when it is not known. */
  function Resolved(cfg: Config, a: Account, p: Pass): Option<TierId> {
    if p.live.Failure? then None
    else if p.live.Says? && p.live.id in cfg.tiers then Some(p.live.id)
    else StoredTier(cfg, a.tier)
  }

  /** The sites a pass works on: its markers whose site is gone or, as far as
      that could be read, the account's (mine). */
  predicate Resolves(a: Account, p: Pass, mine: set<Site>, x: Site) {
    x in a.links && x !in p.unreadable && (x in a.stamps ==> x in mine)
  }

  predicate Restamps(a: Account, p: Pass, mine: set<Site>, x: Site) {
    Resolves(a, p, mine, x) && x in a.stamps && x !in p.refused
  }

  predicate Fails(a: Account, p: Pass, mine: set<Site>) {
    exists x | x in a.links :: x in p.unreadable || (Resolves(a, p, mine, x) && x in a.stamps && x in p.refused)
  }

  /** What restampSites leaves once it has been at these sites. */
  function Stamped(a: Account, p: Pass, mine: set<Site>, t: TierId, within: set<Site>): Account {
    a.(links := (set x | x in a.links && !(x in within && Resolves(a, p, mine, x) && x !in a.stamps && x !in p.kept)),
       stamps := map x | x in a.stamps :: if x in within && Restamps(a, p, mine, x) then t else a.stamps[x])
  }

  /** What one pass leaves. */
  function Synced(cfg: Config, a: Account, p: Pass, mine: set<Site>): Account {
    match Resolved(cfg, a, p)
    case None => a
    case Some(t) =>
      if t == a.tier || !p.lists then a
      else
        var stamped := Stamped(a, p, mine, t, a.links);
        if Fails(a, p, mine) || !p.stores then stamped else stamped.(tier := t)
  }

  // ---- the code ----

  class Server {
    var account: Account
    const cfg: Config

    constructor (account: Account, cfg: Config)
      ensures this.account == account && this.cfg == cfg
    {
      this.account, this.cfg := account, cfg;
    }

    /** ownedSiteIDs: gone sites and the account's own; ok is false when one
        could not be read. */
    method OwnedSites(p: Pass, mine: set<Site>) returns (ids: seq<Site>, ok: bool)
      ensures NoDup(ids) && forall x :: x in ids <==> Resolves(account, p, mine, x)
      ensures ok <==> forall x | x in account.links :: x !in p.unreadable
    {
      ids, ok := [], true;
      var left := account.links;
      while left != {}
        invariant left <= account.links && NoDup(ids)
        invariant forall x :: x in ids <==> x !in left && Resolves(account, p, mine, x)
        invariant ok <==> forall x | x in account.links - left :: x !in p.unreadable
      {
        var x :| x in left;
        left := left - {x};
        if x in p.unreadable {
          ok := false;
        } else if x !in account.stamps || x in mine {
          ids := ids + [x];
        }
      }
    }

    method RestampSites(p: Pass, mine: set<Site>, t: TierId) returns (ok: bool)
      requires p.lists
      modifies this`account
      ensures account == Stamped(old(account), p, mine, t, old(account).links)
      ensures ok <==> !Fails(old(account), p, mine)
    {
      hide Stamped;
      ghost var was := account;
      var ids;
      ids, ok := OwnedSites(p, mine);
      StampedNone(was, p, mine, t);
      assert Elems(ids[..0]) == {};
      for i := 0 to |ids|
        invariant account == Stamped(was, p, mine, t, Elems(ids[..i]))
        invariant ok <==> (forall x | x in was.links :: x !in p.unreadable) && forall x | x in ids[..i] ::
          x in was.stamps ==>
                  x !in p.refused
      {
        var x := ids[i];
        assert ids[..i + 1] == ids[..i] + [x] && x !in ids[..i];
        ElemsAppend(ids[..i], [x]);
        assert Elems(ids[..i + 1]) == Elems(ids[..i]) + {x};
        StampedMore(was, p, mine, t, Elems(ids[..i]), x);
        if x !in account.stamps {
          if x !in p.kept { account := account.(links := account.links - {x}); }
        } else if x in p.refused {
          ok := false;
        } else {
          account := account.(stamps := account.stamps[x := t]);
        }
      }
      assert ids[..|ids|] == ids;
      StampedAll(was, p, mine, t, Elems(ids));
    }

    method SyncTier(p: Pass, mine: set<Site>)
      modifies this`account
      ensures account == Synced(cfg, old(account), p, mine)
    {
      var t := Resolved(cfg, account, p);
      if t.None? || t.value == account.tier || !p.lists { return; }
      var ok := RestampSites(p, mine, t.value);
      if ok && p.stores { account := account.(tier := t.value); }
    }
  }

  lemma StampedNone(a: Account, p: Pass, mine: set<Site>, t: TierId)
    ensures Stamped(a, p, mine, t, {}) == a
  {
  }

  lemma StampedAll(a: Account, p: Pass, mine: set<Site>, t: TierId, within: set<Site>)
    requires forall x | Resolves(a, p, mine, x) :: x in within
    ensures Stamped(a, p, mine, t, within) == Stamped(a, p, mine, t, a.links)
  {
  }

  lemma StampedMore(a: Account, p: Pass, mine: set<Site>, t: TierId, within: set<Site>, x: Site)
    requires x !in within && Resolves(a, p, mine, x)
    ensures var part := Stamped(a, p, mine, t, within);
            && part.stamps.Keys == a.stamps.Keys
            && Stamped(a, p, mine, t, within + {x}) ==
               (if x !in a.stamps then (if x in p.kept then part else part.(links := part.links - {x}))
                else if x in p.refused then part else part.(stamps := part.stamps[x := t]))
  {
  }

  // ---- what passes do ----

  /** Every site of the account has the caps of its stored tier. */
  predicate Consistent(a: Account, mine: set<Site>) {
    forall x | x in a.links && x in mine && x in a.stamps :: a.stamps[x] == a.tier
  }

  /** Nothing fails in the pass. */
  predicate Clean(a: Account, p: Pass) {
    p.lists && p.stores && p.refused == {} && p.unreadable == {}
  }

  /** What a pass to a tier leaves: nothing changes on that tier already, or when the
      markers cannot be listed; else every site it gets to has that tier's caps, a
      marker goes only of a site that is gone, and the tier is stored exactly if
      nothing failed. */
  ghost predicate WorksTo(a: Account, p: Pass, mine: set<Site>, t: TierId, b: Account) {
    if t == a.tier || !p.lists then b == a
    else
      && b.stamps.Keys == a.stamps.Keys
      && (forall x | x in a.stamps ::
            b.stamps[x] == if x in a.links && x in mine && x !in p.unreadable && x !in p.refused
                           then t else a.stamps[x])
      && (forall x :: x in b.links <==>
            x in a.links && !(x !in a.stamps && x !in p.unreadable && x !in p.kept))
      && b.tier == if p.stores && forall x | x in a.links ::
                        x !in p.unreadable && (x in a.stamps && x in mine ==> x !in p.refused) then t else a.tier
  }

  /** Which tier a pass works to. A lookup that failed changes nothing, whatever the
      default is. A configured tier that PayGate names is it. With no answer, or a
      tier nobody configured, an account with a stored tier stays as it is, and one
      with none goes to the default if that is configured. */
  lemma WhichTier(cfg: Config, a: Account, p: Pass, mine: set<Site>)
    ensures var b := Synced(cfg, a, p, mine);
            match p.live
            case Failure => b == a
            case _ =>
              if p.live.Says? && p.live.id in cfg.tiers then WorksTo(a, p, mine, p.live.id, b)
              else if a.tier == "" && cfg.defaultTier in cfg.tiers then WorksTo(a, p, mine, cfg.defaultTier, b)
              else b == a
  {
  }

  /** A tier is stored only by a pass that stamped it on every site of the
      account, with none unreadable. */
  lemma StoredOnlyWhenStamped(cfg: Config, a: Account, p: Pass, mine: set<Site>)
    ensures var b := Synced(cfg, a, p, mine);
            b.tier != a.tier ==>
              && Resolved(cfg, a, p) == Some(b.tier) && a.links !! p.unreadable && Consistent(b, mine)
              && forall x | x in a.links && x in mine && x in a.stamps :: x in b.links && b.stamps[x] == b.tier
  {
  }

  /** An undisturbed pass brings the account to its tier, whatever markers
      dangle, drops those, and leaves nothing for the next. */
  lemma CleanPassSettles(cfg: Config, a: Account, p: Pass, mine: set<Site>)
    requires Clean(a, p) && Resolved(cfg, a, p).Some? && Resolved(cfg, a, p).value != a.tier
    ensures var b := Synced(cfg, a, p, mine);
            && Some(b.tier) == Resolved(cfg, a, p) && Consistent(b, mine)
            && (p.kept == {} ==> forall x | x in b.links :: x in a.stamps)
            && Synced(cfg, b, p, mine) == b
  {
  }

  function Run(cfg: Config, a: Account, passes: seq<Pass>, mine: set<Site>): Account {
    if passes == [] then a
    else Synced(cfg, Run(cfg, a, passes[..|passes| - 1], mine), passes[|passes| - 1], mine)
  }

  /** While the plan stays at one tier, no retry is lost: the account is stored
      on it only with every site on it, and one clean pass gets it there. */
  lemma {:induction false} NoRetryLost(cfg: Config, a: Account, passes: seq<Pass>, mine: set<Site>, t: TierId)
    requires t in cfg.tiers && forall p | p in passes :: p.live == Says(t)
    requires a.tier != t || Consistent(a, mine)
    ensures var b := Run(cfg, a, passes, mine);
            && (b.tier == t ==> Consistent(b, mine))
            && ((exists p | p in passes :: Clean(a, p)) ==> b.tier == t)
  {
    if passes != [] {
      var front, p := passes[..|passes| - 1], passes[|passes| - 1];
      assert passes == front + [p];
      NoRetryLost(cfg, a, front, mine, t);
      StoredOnlyWhenStamped(cfg, Run(cfg, a, front, mine), p, mine);
    }
  }

  /** One pass from a consistent account keeps it so unless it stamped some site
      with another tier and then failed: exactly then. */
  lemma ConsistentExactlyIf(cfg: Config, a: Account, p: Pass, mine: set<Site>)
    requires Consistent(a, mine)
    ensures var half := Resolved(cfg, a, p).Some? && Resolved(cfg, a, p).value != a.tier && p.lists
                        && (Fails(a, p, mine) || !p.stores) && exists x | x in a.links && x in mine ::
                           Restamps(a, p, mine, x);
            Consistent(Synced(cfg, a, p, mine), mine) <==> !half
  {
    var b := Synced(cfg, a, p, mine);
    if x :| x in a.links && x in mine && Restamps(a, p, mine, x) { assert x in b.links || x in a.stamps; }
  }

  const CFG := Config({"free", "pro"}, "free")
  const TWO := Account("free", {1, 2}, map[1 := "free", 2 := "free"])
  const HALF := Pass(Says("pro"), true, {}, {2}, {}, true)

  /** A pass to another tier that fails half-way, and the plan going back: from
      then on no pass, however clean, finds anything to do, and a site keeps the
      other tier's caps. */
  lemma {:induction false} StuckAfterHalf(clean: seq<Pass>)
    requires forall p | p in clean :: p.live == Says("free") && Clean(TWO, p)
    ensures Consistent(TWO, {1, 2})
    ensures var b := Run(CFG, TWO, [HALF] + clean, {1, 2}); b.tier == "free" && b.stamps == map[1 := "pro", 2 := "free"]
  {
    if clean == [] {
      var b := Synced(CFG, TWO, HALF, {1, 2});
      assert ([HALF] + clean)[..0] == [];
      assert Restamps(TWO, HALF, {1, 2}, 1) && !Restamps(TWO, HALF, {1, 2}, 2);
      assert 2 in TWO.links && Fails(TWO, HALF, {1, 2});
      assert b.stamps == map[1 := "pro", 2 := "free"];
    } else {
      var front := clean[..|clean| - 1];
      StuckAfterHalf(front);
      assert ([HALF] + clean)[..|[HALF] + clean| - 1] == [HALF] + front;
      assert clean[|clean| - 1] in clean;
    }
  }
}
