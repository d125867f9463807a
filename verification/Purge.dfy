/** Dropping old entries of the accounts' logs (PurgeProvenance): the shortcuts
    it takes, against the plain policy. */
module Purge {
  import opened Prelude

  datatype Lock = Unlocked | Held | CaseOpen

  /** A site's lock, and whether its Info can be read; one that cannot is passed
      over by both walks. */
  datatype Info = Info(lock: Lock, readable: bool)

  /** A site shared with the account, as the check of the holds finds it. */
  datatype Shared = Gone | Unread | NotListed | Listed(info: Info)

  /** What is the case with one account; None for a listing that fails. */
  datatype Facts = Facts(known: bool, suspended: bool, owned: Option<seq<Info>>, shared: Option<seq<Shared>>,
    writes: bool)

  /** An account's log: the latest time of each entry. */
  type Log = Option<seq<Time>>

  // ---- the plain policy: every hold is asked for, then the cutoff, then the filter ----

  /** The sites the account is involved with, as far as they were listed. */
  function Involved(f: Facts): set<Info> {
    (if f.owned.Some? then set i | i in f.owned.value else {})
    + (if f.shared.Some? then set s | s in f.shared.value && s.Listed? :: s.info else {})
  }

  predicate Unsure(f: Facts) {
    f.owned.None? || f.shared.None? || Unread in f.shared.value
  }

  /** What the holds really are. */
  predicate AnyOpen(f: Facts) {
    exists i | i in Involved(f) :: i.lock.CaseOpen?
  }

  predicate AnyLock(f: Facts) {
    exists i | i in Involved(f) :: !i.lock.Unlocked?
  }

  /** What the walks see of them. */
  predicate SeesOpen(f: Facts) {
    exists i | i in Involved(f) :: i.readable && i.lock.CaseOpen?
  }

  predicate SeesLock(f: Facts) {
    exists i | i in Involved(f) :: i.readable && !i.lock.Unlocked?
  }

  function From(log: seq<Time>, cutoff: Time): seq<Time> {
    if log == [] then []
    else From(log[..|log| - 1], cutoff) + (if log[|log| - 1] < cutoff then [] else [log[|log| - 1]])
  }

  function Policy(log: Log, f: Facts, before: Time, heldBefore: Option<Time>): Log {
    if log.None? || !f.known || !f.writes || Unsure(f) || SeesOpen(f) then log
    else if !f.suspended && !SeesLock(f) then Some(From(log.value, before))
    else if heldBefore.Some? then Some(From(log.value, heldBefore.value))
    else log
  }

  lemma {:induction false} FromIs(log: seq<Time>, cutoff: Time)
    ensures forall t :: t in From(log, cutoff) <==> t in log && cutoff <= t
    ensures (forall t | t in log :: cutoff <= t) ==> From(log, cutoff) == log
  {
    if log != [] {
      var front, last := log[..|log| - 1], log[|log| - 1];
      FromIs(front, cutoff);
      assert log == front + [last];
      assert last in log && forall t | t in front :: t in log;
    }
  }

  // ---- the code ----

  datatype Holds = Error | Holds(locked: bool, caseOpen: bool)

  /** lockHolds, which stops at the first open case or error it sees. */
  method LockHolds(f: Facts) returns (h: Holds)
    ensures h.Error? || h.caseOpen <==> Unsure(f) || SeesOpen(f)
    ensures !h.Error? && !h.caseOpen ==> (h.locked <==> SeesLock(f))
  {
    if f.owned.None? { return Error; }
    var own, shared := f.owned.value, f.shared;
    assert forall i | i in own :: i in Involved(f);
    var locked := false;
    for n := 0 to |own|
      invariant forall i | i in own[..n] :: !(i.readable && i.lock.CaseOpen?)
      invariant locked <==> exists i | i in own[..n] :: i.readable && !i.lock.Unlocked?
    {
      assert own[n] in own;
      if own[n].readable && !own[n].lock.Unlocked? {
        locked := true;
        if own[n].lock.CaseOpen? { return Holds(true, true); }
      }
    }
    assert own[..|own|] == own;
    if shared.None? { return Error; }
    assert forall s | s in shared.value && s.Listed? :: s.info in Involved(f);
    for n := 0 to |shared.value|
      invariant Unread !in shared.value[..n]
      invariant forall s | s in shared.value[..n] :: !(s.Listed? && s.info.readable && s.info.lock.CaseOpen?)
      invariant locked <==> (exists i | i in own :: i.readable && !i.lock.Unlocked?)
                            || exists s | s in shared.value[..n] ::
                              s.Listed? && s.info.readable && !s.info.lock.Unlocked?
    {
      var s := shared.value[n];
      assert s in shared.value;
      if s.Unread? { return Error; }
      if s.Listed? && s.info.readable && !s.info.lock.Unlocked? {
        locked := true;
        if s.info.lock.CaseOpen? { return Holds(true, true); }
      }
    }
    assert shared.value[..|shared.value|] == shared.value;
    h := Holds(locked, false);
  }

  method HasEntryBefore(log: Log, before: Time) returns (has: bool)
    ensures has <==> log.Some? && exists t | t in log.value :: t < before
  {
    if log.None? { return false; }
    for i := 0 to |log.value|
      invariant forall t | t in log.value[..i] :: before <= t
    {
      assert log.value[i] in log.value && log.value[..i + 1] == log.value[..i] + [log.value[i]];
      if log.value[i] < before { return true; }
    }
    assert log.value[..|log.value|] == log.value;
    has := false;
  }

  class Store {
    var logs: map<Account, Log>

    constructor (logs: map<Account, Log>)
      ensures this.logs == logs
    {
      this.logs := logs;
    }

    /** The store's purge: an account whose write fails keeps its log. */
    method Drop(id: Account, cutoff: Time, writes: bool)
      requires id in logs && logs[id].Some?
      modifies this
      ensures logs == if writes then old(logs)[id := Some(From(old(logs)[id].value, cutoff))] else old(logs)
    {
      if !writes { return; }
      var kept, log := [], logs[id].value;
      for i := 0 to |log|
        invariant logs == old(logs) && kept == From(log[..i], cutoff)
      {
        assert log[..i + 1][..i] == log[..i];
        if log[i] >= cutoff { kept := kept + [log[i]]; }
      }
      assert log[..|log|] == log;
      logs := logs[id := Some(kept)];
    }

    method PurgeOne(id: Account, f: Facts, before: Time, heldBefore: Option<Time>)
      requires id in logs
      requires heldBefore.Some? ==> heldBefore.value <= before
      modifies this
      ensures logs == old(logs)[id := Policy(old(logs)[id], f, before, heldBefore)]
    {
      var log := logs[id];
      SameLog(logs, id);
      if log.Some? {
        FromIs(log.value, before);
        if heldBefore.Some? { FromIs(log.value, heldBefore.value); }
      }
      var has := HasEntryBefore(log, before);
      if !has || !f.known { return; }
      var held := false;
      if heldBefore.Some? { held := HasEntryBefore(log, heldBefore.value); }
      if f.suspended && !held { return; }
      var h := LockHolds(f);
      if h.Error? || h.caseOpen { return; }
      var cutoff := before;
      if f.suspended || h.locked {
        if !held { return; }
        cutoff := heldBefore.value;
      }
      Drop(id, cutoff, f.writes);
    }

    /** PurgeProvenance leaves every account's log as the plain policy does. */
    method PurgeAll(ids: seq<Account>, facts: Account -> Facts, before: Time, heldBefore: Option<Time>)
      requires NoDup(ids) && Elems(ids) <= logs.Keys
      requires heldBefore.Some? ==> heldBefore.value <= before
      modifies this
      ensures logs.Keys == old(logs).Keys
      ensures forall a | a in logs ::
                logs[a] == if a in ids then Policy(old(logs)[a], facts(a), before, heldBefore) else old(logs)[a]
    {
      for i := 0 to |ids|
        invariant logs.Keys == old(logs).Keys
        invariant forall a | a in logs ::
                    logs[a] == if a in ids[..i] then Policy(old(logs)[a], facts(a), before, heldBefore)
                      else old(logs)[a]
      {
        assert ids[i] in Elems(ids) && ids[i] !in ids[..i];
        PurgeOne(ids[i], facts(ids[i]), before, heldBefore);
      }
    }
  }

  lemma SameLog(logs: map<Account, Log>, id: Account)
    requires id in logs
    ensures logs[id := logs[id]] == logs
  {
  }

  /** Exactly which entries go: with no error and no open case seen, the old
      ones, and where something seen holds the account, those past the holds' own
      retention. */
  lemma WhatThePolicyDrops(log: seq<Time>, f: Facts, before: Time, heldBefore: Option<Time>, t: Time)
    requires heldBefore.Some? ==> heldBefore.value <= before
    requires t in log
    ensures t !in Policy(Some(log), f, before, heldBefore).value <==>
              && f.known && f.writes && !Unsure(f) && !SeesOpen(f) && t < before
              && (f.suspended || SeesLock(f) ==> heldBefore.Some? && t < heldBefore.value)
  {
    FromIs(log, before);
    if heldBefore.Some? { FromIs(log, heldBefore.value); }
  }

  /** The account's one site is under an open case, and its meta.json cannot be
      read. */
  const UNSEEN := Facts(true, false, Some([Info(CaseOpen, false)]), Some([]), true)

  /** Its old entry is dropped although the case is open. */
  method OpenCaseDropped() returns (kept: Log)
    ensures AnyOpen(UNSEEN) && kept == Some([])
  {
    var store := new Store(map[1 := Some([10])]);
    assert Elems([1]) == {1} by { assert [1][0] == 1; }
    store.PurgeAll([1], a => UNSEEN, 20, None);
    assert Info(CaseOpen, false) in Involved(UNSEEN) by { assert [Info(CaseOpen, false)][0] in UNSEEN.owned.value; }
    assert 1 in [1];
    WhatThePolicyDrops([10], UNSEEN, 20, None, 10);
    assert From([10], 20) == From([], 20) + [] by { assert [10][..0] == []; }
    kept := store.logs[1];
  }

  /** No entry of an account under an open case is ever dropped, whatever its log
      and the retentions, exactly if one of its open cases can be read, or the
      purge stops for another reason. */
  lemma OpenCaseKeepsExactlyIf(f: Facts)
    requires AnyOpen(f)
    ensures (forall log, before, heldBefore: Option<Time>, t |
               t in log && (heldBefore.Some? ==> heldBefore.value <= before) ::
               t in Policy(Some(log), f, before, heldBefore).value) <==>
            SeesOpen(f) || Unsure(f) || !f.known || !f.writes
  {
    if SeesOpen(f) || Unsure(f) || !f.known || !f.writes {
      forall log, before, heldBefore: Option<Time>, t | t in log && (heldBefore.Some? ==> heldBefore.value <= before)
        ensures t in Policy(Some(log), f, before, heldBefore).value
      {
        WhatThePolicyDrops(log, f, before, heldBefore, t);
      }
    } else {
      WhatThePolicyDrops([10], f, 20, Some(20), 10);
      assert 10 in [10] && 10 !in Policy(Some([10]), f, 20, Some(20)).value;
    }
  }

  /** And the log of an account held by any lock goes back to the holds' own
      retention, whatever it is, exactly if one of the locks can be read. */
  lemma HoldKeepsExactlyIf(f: Facts)
    requires AnyLock(f) && !f.suspended && f.known && f.writes && !Unsure(f)
    ensures (forall log, before, heldBefore: Time, t | t in log && heldBefore <= t && heldBefore <= before ::
               t in Policy(Some(log), f, before, Some(heldBefore)).value) <==> SeesLock(f)
  {
    if SeesLock(f) {
      forall log, before, heldBefore: Time, t | t in log && heldBefore <= t && heldBefore <= before
        ensures t in Policy(Some(log), f, before, Some(heldBefore)).value
      {
        WhatThePolicyDrops(log, f, before, Some(heldBefore), t);
      }
    } else {
      WhatThePolicyDrops([10], f, 20, Some(0), 10);
      assert 10 in [10] && 10 !in Policy(Some([10]), f, 20, Some(0)).value;
    }
  }
}
