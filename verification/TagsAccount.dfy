/** An account-wide rename or delete as it runs: site by site, then the
    registry, any of which may be left undone, and the same again after it. */
module TagsAccount {
  import opened Prelude
  import opened Tags
  import opened TagsManage

  datatype Account = Account(sites: map<Site, seq<Tag>>, reg: Registry)

  datatype Edit = Rename(newKey: Tag, target: Tag) | Delete

  function Lists(sites: map<Site, seq<Tag>>, order: seq<Site>): seq<seq<Tag>> {
    if order == [] then []
    else
      var x := order[|order| - 1];
      Lists(sites, order[..|order| - 1]) + [if x in sites then sites[x] else []]
  }

  /** The spelling in use, "" for none. */
  function Spelling(a: Account, order: seq<Site>, key: Tag): Tag {
    var inUse := InUse(Lists(a.sites, order));
    if key in inUse then inUse[key] else ""
  }

  /** tagName: the registry's spelling, else the one the sites carry. */
  function TagName(a: Account, order: seq<Site>, key: Tag): Tag {
    if key in a.reg.tags && a.reg.tags[key].name != "" then a.reg.tags[key].name
    else if Spelling(a, order, key) != "" then Spelling(a, order, key)
    else key
  }

  predicate Known(a: Account, order: seq<Site>, key: Tag) {
    key in a.reg.tags || Spelling(a, order, key) != ""
  }

  /** The spelling a rename writes: on a merge the existing one wins. */
  function Target(a: Account, order: seq<Site>, key: Tag, newName: Tag): Tag {
    if TagKey(newName) != key && Known(a, order, TagKey(newName)) then TagName(a, order, TagKey(newName)) else newName
  }

  function Edited(cur: seq<Tag>, key: Tag, e: Edit): seq<Tag> {
    match e
    case Rename(newKey, target) => Renamed(cur, key, newKey, target)
    case Delete => Kept(cur, key)
  }

  function Retagged(sites: map<Site, seq<Tag>>, within: set<Site>, key: Tag, e: Edit, skip: set<Site>): map<Site,
                    seq<Tag>> {
    map x | x in sites :: if x in within && x !in skip && key in Keys(sites[x]) then
      Edited(sites[x], key, e) else sites[x]
  }

  function EditedRegistry(reg: Registry, key: Tag, e: Edit): Registry {
    match e
    case Rename(newKey, target) => RenameEntry(reg, key, newKey, target)
    case Delete => reg.(tags := reg.tags - {key})
  }

  function Applied(a: Account, order: seq<Site>, key: Tag, e: Edit, skip: set<Site>, lost: bool): Account {
    Account(Retagged(a.sites, Elems(order), key, e, skip), if lost then a.reg else EditedRegistry(a.reg, key, e))
  }

  /** What one account-wide rename leaves: skip are the sites it could not
      write, lost says the registry write failed. */
  function RenameAll(a: Account, order: seq<Site>, key: Tag, newName: Tag, skip: set<Site>, lost: bool): Account {
    if !Known(a, order, key) then a
    else Applied(a, order, key, Rename(TagKey(newName), Target(a, order, key, newName)), skip, lost)
  }

  function DeleteAll(a: Account, order: seq<Site>, key: Tag, skip: set<Site>, lost: bool): Account {
    if !Known(a, order, key) then a else Applied(a, order, key, Delete, skip, lost)
  }

  /** The listing has every site, and no site an empty tag. */
  ghost predicate Tidy(a: Account, order: seq<Site>) {
    Elems(order) == a.sites.Keys && forall x | x in a.sites :: "" !in a.sites[x]
  }

  /** What the stores keep. */
  ghost predicate Sound(a: Account, order: seq<Site>) {
    ValidRegistry(a.reg) && Tidy(a, order)
  }

  // ---- spellings ----

  /** The first spelling of a key in a list, "" for none. */
  function FirstIn(tags: seq<Tag>, key: Tag): Tag {
    if tags == [] then ""
    else
      var front := FirstIn(tags[..|tags| - 1], key);
      if front != "" then front else if TagKey(tags[|tags| - 1]) == key then tags[|tags| - 1] else ""
  }

  function First(lists: seq<seq<Tag>>, key: Tag): Tag {
    if lists == [] then ""
    else
      var front := First(lists[..|lists| - 1], key);
      if front != "" then front else FirstIn(lists[|lists| - 1], key)
  }

  lemma {:induction false} AddedFirst(inUse: map<Tag, Tag>, tags: seq<Tag>, key: Tag)
    ensures var was := if key in inUse then inUse[key] else "";
            var r := AddedUse(inUse, tags);
            (if key in r then r[key] else "") == if was != "" then was else FirstIn(tags, key)
  {
    if tags != [] { AddedFirst(inUse, tags[..|tags| - 1], key); }
  }

  lemma {:induction false} InUseFirst(lists: seq<seq<Tag>>, key: Tag)
    ensures (if key in InUse(lists) then InUse(lists)[key] else "") == First(lists, key)
  {
    if lists != [] {
      InUseFirst(lists[..|lists| - 1], key);
      AddedFirst(InUse(lists[..|lists| - 1]), lists[|lists| - 1], key);
    }
  }

  lemma {:induction false} FirstInIs(tags: seq<Tag>, key: Tag)
    requires "" !in tags
    ensures FirstIn(tags, key) != "" <==> key in Keys(tags)
    ensures FirstIn(tags, key) != "" ==> TagKey(FirstIn(tags, key)) == key
  {
    if tags != [] {
      var front, t := tags[..|tags| - 1], tags[|tags| - 1];
      FirstInIs(front, key);
      assert tags == front + [t];
      KeysAppend(front, [t]);
      assert Keys([t]) == {TagKey(t)} && t in tags;
    }
  }

  /** A key has a spelling exactly if some site carries it. */
  lemma {:induction false} FirstIs(a: map<Site, seq<Tag>>, order: seq<Site>, key: Tag)
    requires forall x | x in a :: "" !in a[x]
    ensures First(Lists(a, order), key) != "" <==> exists x | x in order && x in a :: key in Keys(a[x])
    ensures First(Lists(a, order), key) != "" ==> TagKey(First(Lists(a, order), key)) == key
  {
    if order != [] {
      var front, x := order[..|order| - 1], order[|order| - 1];
      FirstIs(a, front, key);
      assert order == front + [x];
      FirstInIs(if x in a then a[x] else [], key);
    }
  }

  lemma {:induction false} FirstInAppend(a: seq<Tag>, b: seq<Tag>, key: Tag)
    ensures FirstIn(a + b, key) == if FirstIn(a, key) != "" then FirstIn(a, key) else FirstIn(b, key)
  {
    if b == [] {
      assert a + b == a;
    } else {
      FirstInAppend(a, b[..|b| - 1], key);
      assert (a + b)[..|a + b| - 1] == a + b[..|b| - 1];
    }
  }

  /** Dropping another key's tags leaves a key's first spelling. */
  lemma {:induction false} FirstInKept(tags: seq<Tag>, key: Tag, other: Tag)
    ensures FirstIn(Kept(tags, key), other) == if other == key then "" else FirstIn(tags, other)
  {
    if tags != [] {
      var front, t := tags[..|tags| - 1], tags[|tags| - 1];
      FirstInKept(front, key, other);
      FirstInAppend(Kept(front, key), if TagKey(t) == key then [] else [t], other);
      assert [t][..0] == [];
    }
  }

  lemma FirstInRenamed(tags: seq<Tag>, key: Tag, newKey: Tag, target: Tag)
    requires "" !in tags && target != "" && TagKey(target) == newKey && newKey != key
    ensures FirstIn(Renamed(tags, key, newKey, target), newKey) ==
            if newKey in Keys(tags) then FirstIn(tags, newKey) else if key in Keys(tags) then target else ""
  {
    FirstInIs(tags, newKey);
    if key in Keys(tags) {
      FirstInKept(tags, key, newKey);
      var tail := if newKey in Keys(tags) then [] else [target];
      FirstInAppend(Kept(tags, key), tail, newKey);
      assert tail != [] ==> tail[..0] == [];
    }
  }

  /** A rename to the first spelling of the new key, or to a new key, leaves
      that spelling first wherever it got to. */
  lemma {:induction false} FirstAfter(a: map<Site, seq<Tag>>, order: set<Site>, within: seq<Site>, key: Tag,
                                      target: Tag, skip: set<Site>)
    requires forall x | x in a :: "" !in a[x]
    requires TagKey(target) != key && target != ""
    requires First(Lists(a, within), TagKey(target)) in {"", target}
    ensures var p := Retagged(a, order, key, Rename(TagKey(target), target), skip);
            && First(Lists(p, within), TagKey(target)) in {"", target}
            && (First(Lists(a, within), TagKey(target)) == target ==> First(Lists(p, within), TagKey(target)) == target)
  {
    if within != [] {
      var front, x := within[..|within| - 1], within[|within| - 1];
      FirstAfter(a, order, front, key, target, skip);
      if x in a {
        FirstInIs(a[x], TagKey(target));
        FirstInRenamed(a[x], key, TagKey(target), target);
      }
    }
  }

  // ---- the same again ----

  lemma SpellingIs(a: Account, order: seq<Site>, key: Tag)
    requires Tidy(a, order)
    ensures Spelling(a, order, key) == First(Lists(a.sites, order), key)
    ensures Spelling(a, order, key) != "" <==> exists x | x in a.sites :: key in Keys(a.sites[x])
    ensures Spelling(a, order, key) != "" ==> TagKey(Spelling(a, order, key)) == key
  {
    InUseFirst(Lists(a.sites, order), key);
    FirstIs(a.sites, order, key);
    assert forall x :: x in order <==> x in Elems(order);
  }

  lemma TargetIs(a: Account, order: seq<Site>, key: Tag, newName: Tag)
    requires Sound(a, order) && newName != ""
    ensures Target(a, order, key, newName) != "" && TagKey(Target(a, order, key, newName)) == TagKey(newName)
  {
    SpellingIs(a, order, TagKey(newName));
  }

  lemma EntryName(reg: Registry, key: Tag, newKey: Tag, name: Tag)
    requires newKey != key
    ensures var to := RenameEntry(reg, key, newKey, name);
            newKey in to.tags ==> to.tags[newKey].name == if newKey in reg.tags then reg.tags[newKey].name else name
    ensures newKey in reg.tags ==> newKey in RenameEntry(reg, key, newKey, name).tags
  {
  }

  /** After a partial rename to the spelling of the whole account, that spelling is
      kept, be it a merge now. */
  lemma TargetAgain(a: Account, part: seq<Site>, order: seq<Site>, key: Tag, newName: Tag, skip: set<Site>, lost: bool)
    requires Sound(a, order) && newName != ""
    requires Target(a, part, key, newName) == Target(a, order, key, newName)
    ensures Target(RenameAll(a, part, key, newName, skip, lost), order, key, newName) == Target(a, order, key, newName)
  {
    hide Applied;
    if Known(a, part, key) {
      AppliedTarget(a, part, order, key, newName, skip, lost);
    }
  }

  lemma AppliedTarget(a: Account, part: seq<Site>, order: seq<Site>, key: Tag, newName: Tag, skip: set<Site>,
                      lost: bool)
    requires Sound(a, order) && newName != ""
    ensures var target := Target(a, order, key, newName);
            Target(Applied(a, part, key, Rename(TagKey(newName), target), skip, lost), order, key, newName) == target
  {
    hide Retagged, Tidy;
    var newKey, target := TagKey(newName), Target(a, order, key, newName);
    if newKey != key {
      var p := Applied(a, part, key, Rename(newKey, target), skip, lost);
      TargetIs(a, order, key, newName);
      InUseFirst(Lists(a.sites, order), newKey);
      InUseFirst(Lists(p.sites, order), newKey);
      EntryName(a.reg, key, newKey, target);
      if newKey !in a.reg.tags {
        TidyIs(a, order);
        FirstAfter(a.sites, Elems(part), order, key, target, skip);
      }
    }
  }

  lemma TidyIs(a: Account, order: seq<Site>)
    requires Tidy(a, order)
    ensures forall x | x in a.sites :: "" !in a.sites[x]
  {
  }

  lemma KeptAgain(cur: seq<Tag>, key: Tag)
    ensures Kept(Kept(cur, key), key) == Kept(cur, key)
  {
    KeptIs(cur, key);
    KeptAll(Kept(cur, key), key);
  }

  lemma {:induction false} KeptAppend(a: seq<Tag>, b: seq<Tag>, key: Tag)
    ensures Kept(a + b, key) == Kept(a, key) + Kept(b, key)
  {
    if b == [] {
      assert a + b == a;
    } else {
      KeptAppend(a, b[..|b| - 1], key);
      assert (a + b)[..|a + b| - 1] == a + b[..|b| - 1];
    }
  }

  /** Renaming twice is renaming once. */
  lemma RenamedAgain(cur: seq<Tag>, key: Tag, target: Tag)
    ensures var once := Renamed(cur, key, TagKey(target), target); Renamed(once, key, TagKey(target), target) == once
  {
    var newKey := TagKey(target);
    var once := Renamed(cur, key, newKey, target);
    RenamedIs(cur, key, newKey, target);
    if newKey == key && key in Keys(cur) {
      KeptAppend(Kept(cur, key), [target], key);
      KeptAgain(cur, key);
      assert [target][..0] == [];
    }
  }

  lemma RetaggedAgain(sites: map<Site, seq<Tag>>, part: set<Site>, order: set<Site>, key: Tag, target: Tag,
                      skip: set<Site>)
    requires part <= order
    ensures var e := Rename(TagKey(target), target);
            Retagged(Retagged(sites, part, key, e, skip), order, key, e, {}) == Retagged(sites, order, key, e, {})
  {
    forall x | x in sites { RenamedAgain(sites[x], key, target); }
  }

  lemma RenameEntryAgain(reg: Registry, key: Tag, newKey: Tag, name: Tag)
    ensures RenameEntry(RenameEntry(reg, key, newKey, name), key, newKey, name) == RenameEntry(reg, key, newKey, name)
  {
    var once := RenameEntry(reg, key, newKey, name);
    if newKey == key && key in reg.tags { assert once.tags[key := once.tags[key]] == once.tags; }
  }

  lemma TidyAfter(a: Account, part: seq<Site>, order: seq<Site>, key: Tag, e: Edit, skip: set<Site>, lost: bool)
    requires Tidy(a, order) && (e.Rename? ==> e.target != "")
    ensures Tidy(Applied(a, part, key, e, skip, lost), order)
  {
    forall x | x in a.sites { KeptIs(a.sites[x], key); }
  }

  lemma SkippedNone(sites: map<Site, seq<Tag>>, part: set<Site>, order: set<Site>, key: Tag, e: Edit, skip: set<Site>)
    requires part <= order
    requires var p := Retagged(sites, part, key, e, skip); forall x | x in p :: key !in Keys(p[x])
    ensures Retagged(sites, part, key, e, skip) == Retagged(sites, order, key, e, {})
  {
    var p := Retagged(sites, part, key, e, skip);
    forall x | x in sites ensures key in Keys(sites[x]) ==> x in part && x !in skip {
      assert x in p && (x in skip || x !in part ==> p[x] == sites[x]);
    }
  }

  /** A tag unknown after an edit left no site out and no registry entry. */
  lemma NothingLeft(a: Account, part: seq<Site>, order: seq<Site>, key: Tag, e: Edit, skip: set<Site>, lost: bool)
    requires Tidy(a, order) && Elems(part) <= Elems(order) && (e.Rename? ==> e.target != "")
    requires !Known(Applied(a, part, key, e, skip, lost), order, key)
    ensures Applied(a, part, key, e, skip, lost) == Applied(a, order, key, e, {}, false)
  {
    var p := Applied(a, part, key, e, skip, lost);
    TidyAfter(a, part, order, key, e, skip, lost);
    SpellingIs(p, order, key);
    SkippedNone(a.sites, Elems(part), Elems(order), key, e, skip);
    if e.Delete? && key !in a.reg.tags { assert a.reg.tags - {key} == a.reg.tags; }
  }

  /** Whatever an edit to the spelling of the whole account left undone, a rename
      finishes. */
  lemma FinishesIt(a: Account, part: seq<Site>, order: seq<Site>, key: Tag, newName: Tag, skip: set<Site>, lost: bool)
    requires Sound(a, order) && Elems(part) <= Elems(order) && newName != "" && Known(a, order, key)
    ensures var e := Rename(TagKey(newName), Target(a, order, key, newName));
            RenameAll(Applied(a, part, key, e, skip, lost), order, key, newName, {}, false)
            == RenameAll(a, order, key, newName, {}, false)
  {
    TargetIs(a, order, key, newName);
    var target := Target(a, order, key, newName);
    var e := Rename(TagKey(newName), target);
    var p := Applied(a, part, key, e, skip, lost);
    if Known(p, order, key) {
      AppliedTarget(a, part, order, key, newName, skip, lost);
      RetaggedAgain(a.sites, Elems(part), Elems(order), key, target, skip);
      RenameEntryAgain(a.reg, key, TagKey(newName), target);
    } else {
      NothingLeft(a, part, order, key, e, skip, lost);
    }
  }

  /** Whatever a rename left undone, the same again finishes: the account is as
      one undisturbed rename leaves it, even if the second is a merge now. */
  lemma RenameAgain(a: Account, order: seq<Site>, key: Tag, newName: Tag, skip: set<Site>, lost: bool)
    requires Sound(a, order) && newName != ""
    ensures var p := RenameAll(a, order, key, newName, skip, lost);
            RenameAll(p, order, key, newName, {}, false) == RenameAll(a, order, key, newName, {}, false)
  {
    if Known(a, order, key) { FinishesIt(a, order, order, key, newName, skip, lost); }
  }

  // ---- a site that could not be listed the first time ----

  /** The listing passes over a site whose Info cannot be read (part are those it
      had the first time). The same again, with every site listed, still reaches
      the tags of one undisturbed rename, up to the case of the new one. */
  lemma RenameAgainUpToCase(a: Account, part: seq<Site>, order: seq<Site>, key: Tag, newName: Tag,
    skip: set<Site>, lost: bool)
    requires Tidy(a, order) && ValidRegistry(a.reg) && Elems(part) <= Elems(order) && newName != "" &&
      TagKey(key) == key
    ensures var p := RenameAll(a, part, key, newName, skip, lost);
            var q, f := RenameAll(p, order, key, newName, {}, false), RenameAll(a, order, key, newName, {}, false);
            q.sites.Keys == f.sites.Keys && forall x | x in q.sites :: Keys(q.sites[x]) == Keys(f.sites[x])
  {
    var p := RenameAll(a, part, key, newName, skip, lost);
    var q, f := RenameAll(p, order, key, newName, {}, false), RenameAll(a, order, key, newName, {}, false);
    hide Tidy, ValidRegistry, RenameAll;
    PartTidy(a, part, order, key, newName, skip, lost);
    PartTarget(a, part, order, key, newName);
    PartValid(a, part, key, newName, skip, lost);
    PartKeys(a, part, order, key, newName, skip, lost);
    RenamedKeys(a, order, key, newName);
    RenamedKeys(p, order, key, newName);
    SameKeys(a, p, order, key, newName);
  }

  function RenKeys(keys: set<Tag>, key: Tag, newKey: Tag): set<Tag> {
    if key in keys then keys - {key} + {newKey} else keys
  }

  lemma SameKeys(a: Account, p: Account, order: seq<Site>, key: Tag, newName: Tag)
    ensures RenameAll(a, order, key, newName, {}, false).sites.Keys == a.sites.Keys
    ensures RenameAll(p, order, key, newName, {}, false).sites.Keys == p.sites.Keys
  {
  }

  lemma PartKeys(a: Account, part: seq<Site>, order: seq<Site>, key: Tag, newName: Tag, skip: set<Site>, lost: bool)
    requires Tidy(a, order) && ValidRegistry(a.reg) && newName != ""
    ensures var p := RenameAll(a, part, key, newName, skip, lost);
            && p.sites.Keys == a.sites.Keys
            && forall x | x in a.sites ::
                 RenKeys(Keys(p.sites[x]), key, TagKey(newName)) == RenKeys(Keys(a.sites[x]), key, TagKey(newName))
  {
    PartTarget(a, part, order, key, newName);
    forall x | x in a.sites { RenamedIs(a.sites[x], key, TagKey(newName), Target(a, part, key, newName)); }
  }

  /** The tags after an undisturbed rename of every listed site. */
  lemma RenamedKeys(a: Account, order: seq<Site>, key: Tag, newName: Tag)
    requires Tidy(a, order) && ValidRegistry(a.reg) && newName != ""
    ensures var f := RenameAll(a, order, key, newName, {}, false);
            forall x | x in a.sites ::
              Keys(f.sites[x]) == RenKeys(Keys(a.sites[x]), key, TagKey(newName))
  {
    TargetIs(a, order, key, newName);
    SpellingIs(a, order, key);
    forall x | x in a.sites { RenamedIs(a.sites[x], key, TagKey(newName), Target(a, order, key, newName)); }
    assert forall x :: x in order <==> x in Elems(order);
  }

  /** What a listing that misses sites still gives: a spelling of the new key. */
  lemma PartTarget(a: Account, part: seq<Site>, order: seq<Site>, key: Tag, newName: Tag)
    requires Tidy(a, order) && ValidRegistry(a.reg) && newName != ""
    ensures Target(a, part, key, newName) != "" && TagKey(Target(a, part, key, newName)) == TagKey(newName)
  {
    InUseFirst(Lists(a.sites, part), TagKey(newName));
    FirstIs(a.sites, part, TagKey(newName));
  }

  lemma PartTidy(a: Account, part: seq<Site>, order: seq<Site>, key: Tag, newName: Tag, skip: set<Site>, lost: bool)
    requires Tidy(a, order) && ValidRegistry(a.reg) && newName != ""
    ensures Tidy(RenameAll(a, part, key, newName, skip, lost), order)
  {
    PartTarget(a, part, order, key, newName);
    forall x | x in a.sites { KeptIs(a.sites[x], key); }
  }

  lemma PartValid(a: Account, part: seq<Site>, key: Tag, newName: Tag, skip: set<Site>, lost: bool)
    requires ValidRegistry(a.reg) && TagKey(Target(a, part, key, newName)) == TagKey(newName) &&
      Target(a, part, key, newName) != ""
    ensures ValidRegistry(RenameAll(a, part, key, newName, skip, lost).reg)
  {
    if key in a.reg.tags { RenameKeepsValid(a.reg, key, TagKey(newName), Target(a, part, key, newName)); }
  }

  /** A rename of the sites in part wrote its spelling of the new tag somewhere. */
  predicate Spreads(a: Account, part: seq<Site>, key: Tag, newKey: Tag, skip: set<Site>, lost: bool) {
    || (!lost && key in a.reg.tags)
    || exists x | x in part && x in a.sites && x !in skip :: key in Keys(a.sites[x]) && newKey !in Keys(a.sites[x])
  }

  /** The case is the same exactly if both listings give the same spelling, or the
      first rename wrote its own nowhere. */
  lemma RenameAgainExactlyIf(a: Account, part: seq<Site>, order: seq<Site>, key: Tag, newName: Tag,
                             skip: set<Site>, lost: bool)
    requires Sound(a, order) && Elems(part) <= Elems(order) && newName != ""
    ensures var p := RenameAll(a, part, key, newName, skip, lost);
            RenameAll(p, order, key, newName, {}, false) == RenameAll(a, order, key, newName, {}, false)
            <==> Target(a, part, key, newName) == Target(a, order, key, newName)
                 || !Spreads(a, part, key, TagKey(newName), skip, lost)
  {
    hide Applied, Spreads, Target, Sound;
    var newKey, first, target := TagKey(newName), Target(a, part, key, newName), Target(a, order, key, newName);
    if !Known(a, part, key) {
      SpreadsKnown(a, part, order, key, newName, skip, lost);
    } else {
      KnownMore(a, part, order, key);
      if first == target {
        FinishesIt(a, part, order, key, newName, skip, lost);
      } else if !Spreads(a, part, key, newKey, skip, lost) {
        TargetsOf(a, part, order, key, newName);
        SpreadsNot(a, part, key, newKey, first, target, skip, lost);
        FinishesIt(a, part, order, key, newName, skip, lost);
      } else {
        SpreadStays(a, part, order, key, newName, skip, lost);
      }
    }
  }

  lemma SpreadsKnown(a: Account, part: seq<Site>, order: seq<Site>, key: Tag, newName: Tag, skip: set<Site>, lost: bool)
    requires Sound(a, order) && !Known(a, part, key)
    ensures !Spreads(a, part, key, TagKey(newName), skip, lost)
  {
    InUseFirst(Lists(a.sites, part), key);
    FirstIs(a.sites, part, key);
  }

  lemma KnownMore(a: Account, part: seq<Site>, order: seq<Site>, key: Tag)
    requires Sound(a, order) && Elems(part) <= Elems(order) && Known(a, part, key)
    ensures Known(a, order, key)
  {
    InUseFirst(Lists(a.sites, part), key);
    FirstIs(a.sites, part, key);
    SpellingIs(a, order, key);
  }

  /** Two listings give different spellings only of a new key without an entry. */
  lemma TargetsOf(a: Account, part: seq<Site>, order: seq<Site>, key: Tag, newName: Tag)
    requires Sound(a, order) && Target(a, part, key, newName) != Target(a, order, key, newName)
    ensures TagKey(newName) != key && TagKey(newName) !in a.reg.tags
  {
  }

  lemma SpreadsNot(a: Account, part: seq<Site>, key: Tag, newKey: Tag, one: Tag, two: Tag, skip: set<Site>, lost: bool)
    requires newKey != key && !Spreads(a, part, key, newKey, skip, lost)
    ensures Applied(a, part, key, Rename(newKey, one), skip, lost)
            == Applied(a, part, key, Rename(newKey, two), skip, lost)
  {
    hide Keys, Kept;
    assert forall x :: x in part <==> x in Elems(part);
  }

  lemma OneSite(a: Account, order: seq<Site>, key: Tag, newName: Tag, skip: set<Site>, lost: bool, x: Site)
    requires x in a.sites
    ensures var f := RenameAll(a, order, key, newName, skip, lost);
            x in f.sites &&
            f.sites[x] ==
              if Known(a, order, key) && x in order && x !in skip
              then Renamed(a.sites[x], key, TagKey(newName), Target(a, order, key, newName)) else a.sites[x]
  {
    hide Known, Target, Keys, Kept;
    assert x in order <==> x in Elems(order);
    if key !in Keys(a.sites[x]) {
      assert Renamed(a.sites[x], key, TagKey(newName), Target(a, order, key, newName)) == a.sites[x];
    }
  }

  lemma OtherSpelling(cur: seq<Tag>, key: Tag, one: Tag, two: Tag)
    requires key in Keys(cur) && TagKey(one) !in Keys(cur) && TagKey(one) != key && one != two
    ensures var r := Renamed(cur, key, TagKey(one), one);
            key !in Keys(r) && r != Renamed(cur, key, TagKey(one), two)
  {
    RenamedIs(cur, key, TagKey(one), one);
    hide Kept;
    assert (Kept(cur, key) + [one])[|Kept(cur, key)|] == one;
    assert (Kept(cur, key) + [two])[|Kept(cur, key)|] == two;
  }

  /** A spelling that was written stays, on a site or in the registry. */
  lemma SpreadStays(a: Account, part: seq<Site>, order: seq<Site>, key: Tag, newName: Tag, skip: set<Site>, lost: bool)
    requires Sound(a, order) && Elems(part) <= Elems(order) && newName != ""
    requires Known(a, part, key) && Known(a, order, key)
    requires Target(a, part, key, newName) != Target(a, order, key, newName)
    requires Spreads(a, part, key, TagKey(newName), skip, lost)
    ensures var p := RenameAll(a, part, key, newName, skip, lost);
            RenameAll(p, order, key, newName, {}, false) != RenameAll(a, order, key, newName, {}, false)
  {
    hide Known, Target, Sound, ValidRegistry, RenameAll, Renamed, Keys;
    TargetsOf(a, part, order, key, newName);
    PartTargetOf(a, part, order, key, newName);
    var p := RenameAll(a, part, key, newName, skip, lost);
    if x :| x in part && x in a.sites && x !in skip && key in Keys(a.sites[x]) && TagKey(newName) !in Keys(a.sites[x]) {
      assert x in Elems(part) && x in Elems(order);
      OneSite(a, part, key, newName, skip, lost, x);
      OneSite(p, order, key, newName, {}, false, x);
      OneSite(a, order, key, newName, {}, false, x);
      OtherSpelling(a.sites[x], key, Target(a, part, key, newName), Target(a, order, key, newName));
      RenamedNone(p.sites[x], key, TagKey(newName), Target(p, order, key, newName));
    } else {
      EntryStays(a, part, order, key, newName, skip);
    }
  }

  lemma RenamedNone(cur: seq<Tag>, key: Tag, newKey: Tag, target: Tag)
    requires key !in Keys(cur)
    ensures Renamed(cur, key, newKey, target) == cur
  {
  }

  lemma EntryStays(a: Account, part: seq<Site>, order: seq<Site>, key: Tag, newName: Tag, skip: set<Site>)
    requires key in a.reg.tags && TagKey(newName) != key && TagKey(newName) !in a.reg.tags
    requires Target(a, part, key, newName) != Target(a, order, key, newName)
    ensures var p := RenameAll(a, part, key, newName, skip, false);
            RenameAll(p, order, key, newName, {}, false).reg != RenameAll(a, order, key, newName, {}, false).reg
  {
    hide Target, Retagged, TagKey;
    var p := RenameAll(a, part, key, newName, skip, false);
    EntryNew(a.reg, key, TagKey(newName), Target(a, part, key, newName));
    EntryNew(a.reg, key, TagKey(newName), Target(a, order, key, newName));
    assert RenameAll(p, order, key, newName, {}, false).reg == p.reg;
  }

  lemma EntryNew(reg: Registry, key: Tag, newKey: Tag, name: Tag)
    requires key in reg.tags && newKey != key && newKey !in reg.tags
    ensures var to := RenameEntry(reg, key, newKey, name);
            key !in to.tags && newKey in to.tags && to.tags[newKey].name == name
  {
  }

  lemma PartTargetOf(a: Account, part: seq<Site>, order: seq<Site>, key: Tag, newName: Tag)
    requires Sound(a, order) && newName != ""
    ensures TagKey(Target(a, part, key, newName)) == TagKey(newName)
  {
    PartTarget(a, part, order, key, newName);
  }

  const TWO := Account(map[1 := ["a"], 2 := ["B"]], Registry([], map[]))

  /** So it may differ: here site 2 is not listed the first time, so "a"
      becomes "b" although "B" is in use. */
  lemma CaseMayDiffer()
    ensures RenameAll(RenameAll(TWO, [1], "a", "b", {}, false), [1, 2], "a", "b", {}, false).sites[1] == ["b"]
    ensures RenameAll(TWO, [1, 2], "a", "b", {}, false).sites[1] == ["B"]
  {
    hide TagKey, Spelling, Renamed;
    Letters();
    Spelled(TWO, ["a"], ["B"], "a");
    Spelled(TWO, ["a"], ["B"], "b");
    Becomes(["a"], "b");
    Becomes(["a"], "B");
    NotCarried();
    var p := RenameAll(TWO, [1], "a", "b", {}, false);
    assert 1 in Elems([1]) && 1 in Elems([1, 2]) by { assert [1][0] == 1 && [1, 2][0] == 1; }
    assert p.sites[1] == ["b"] && p.sites[2] == ["B"] && p.reg == TWO.reg;
    assert p.sites == map[1 := ["b"], 2 := ["B"]];
    Spelled(p, ["b"], ["B"], "a");
  }

  lemma Letters()
    ensures TagKey("a") == "a" && TagKey("b") == "b" && TagKey("B") == "b"
  {
  }

  lemma NotCarried()
    ensures "a" !in Keys(["B"])
  {
    Letters();
  }

  /** What is in use on one site, or on two with a tag each. */
  lemma Spelled(a: Account, one: seq<Tag>, two: seq<Tag>, key: Tag)
    requires a.sites == map[1 := one, 2 := two] && |one| == |two| == 1 && "" !in one && "" !in two
    ensures Spelling(a, [1], key) == if TagKey(one[0]) == key then one[0] else ""
    ensures Spelling(a, [1, 2], key) ==
            if TagKey(one[0]) == key then one[0] else if TagKey(two[0]) == key then two[0] else ""
  {
    hide TagKey;
    assert [1, 2][..1] == [1] && [1][..0] == [] && one[..0] == [] && two[..0] == [];
    assert Lists(a.sites, []) == [];
    assert Lists(a.sites, [1]) == [one];
    assert Lists(a.sites, [1, 2]) == [one, two];
    assert [one, two][..1] == [one] && [one][..0] == [];
    InUseFirst([one], key);
    InUseFirst([one, two], key);
    assert one[0] in one && two[0] in two;
    assert FirstIn(one[..0], key) == "" && FirstIn(two[..0], key) == "";
    assert FirstIn(one, key) == if TagKey(one[0]) == key then one[0] else "";
    assert FirstIn(two, key) == if TagKey(two[0]) == key then two[0] else "";
    assert First([one][..0], key) == "" && First([one], key) == FirstIn(one, key);
  }

  lemma Becomes(cur: seq<Tag>, target: Tag)
    requires cur == ["a"] && TagKey(target) == "b"
    ensures Renamed(cur, "a", "b", target) == [target]
    ensures Keys(cur) == {"a"}
  {
    Letters();
    assert TagKey(cur[0]) == "a" && cur[0] in cur && cur[..0] == [];
    assert Kept(cur[..0], "a") == [];
    assert Kept(cur, "a") == [];
  }

  /** The account without the tag, site by site. */
  lemma DeletedIs(a: Account, order: seq<Site>, key: Tag, skip: set<Site>, lost: bool)
    ensures var d := DeleteAll(a, order, key, skip, lost);
            && d.sites.Keys == a.sites.Keys
            && (forall x | x in a.sites :: d.sites[x] == a.sites[x] || d.sites[x] == Kept(a.sites[x], key))
            && (d.reg == a.reg || d.reg == a.reg.(tags := a.reg.tags - {key}))
  {
  }

  lemma DeletedAll(a: Account, order: seq<Site>, key: Tag)
    requires Tidy(a, order)
    ensures var d := DeleteAll(a, order, key, {}, false);
            && d.reg == a.reg.(tags := a.reg.tags - {key})
            && forall x | x in a.sites :: d.sites[x] == Kept(a.sites[x], key)
  {
    SpellingIs(a, order, key);
    assert forall x :: x in order <==> x in Elems(order);
    forall x | x in a.sites ensures key !in Keys(a.sites[x]) ==> Kept(a.sites[x], key) == a.sites[x] {
      KeptAll(a.sites[x], key);
    }
    if key !in a.reg.tags { assert a.reg.tags - {key} == a.reg.tags; }
  }

  /** Whatever a delete left undone, sites it could not list the first time
      included, the same again finishes. */
  lemma DeleteAgain(a: Account, part: seq<Site>, order: seq<Site>, key: Tag, skip: set<Site>, lost: bool)
    requires Tidy(a, order)
    ensures var p := DeleteAll(a, part, key, skip, lost);
            DeleteAll(p, order, key, {}, false) == DeleteAll(a, order, key, {}, false)
  {
    hide Known, Applied;
    var p := DeleteAll(a, part, key, skip, lost);
    DeletedIs(a, part, key, skip, lost);
    forall x | x in a.sites ensures "" !in p.sites[x] && Kept(p.sites[x], key) == Kept(a.sites[x], key) {
      KeptIs(a.sites[x], key);
      KeptAgain(a.sites[x], key);
    }
    DeletedAll(a, order, key);
    DeletedAll(p, order, key);
    DeletedIs(a, order, key, {}, false);
    DeletedIs(p, order, key, {}, false);
    assert a.reg.tags - {key} - {key} == a.reg.tags - {key};
    assert DeleteAll(p, order, key, {}, false).sites == DeleteAll(a, order, key, {}, false).sites;
  }

  lemma RetagNone(sites: map<Site, seq<Tag>>, key: Tag, e: Edit, skip: set<Site>)
    ensures Retagged(sites, {}, key, e, skip) == sites
  {
  }

  lemma RetagNext(sites: map<Site, seq<Tag>>, within: set<Site>, x: Site, key: Tag, e: Edit, skip: set<Site>)
    requires x !in within
    ensures var part := Retagged(sites, within, key, e, skip);
            && part.Keys == sites.Keys && (x in sites ==> part[x] == sites[x])
            && Retagged(sites, within + {x}, key, e, skip) ==
               if x in sites && x !in skip && key in Keys(sites[x]) then part[x := Edited(sites[x], key, e)] else part
  {
    hide Edited, Keys;
  }

  lemma UseNone(sites: map<Site, seq<Tag>>)
    ensures InUse(Lists(sites, [])) == map[]
  {
  }

  lemma UseNext(sites: map<Site, seq<Tag>>, order: seq<Site>, i: nat)
    requires i < |order|
    ensures InUse(Lists(sites, order[..i + 1])) ==
            AddedUse(InUse(Lists(sites, order[..i])), if order[i] in sites then sites[order[i]] else [])
  {
    assert order[..i + 1][..i] == order[..i];
  }

  datatype Outcome = Unknown | AskFirst | RegistryFailed | Done(skipped: seq<Site>)

  /** The account as the handlers change it, in place. */
  class Store {
    var account: Account

    constructor (account: Account)
      ensures this.account == account
    {
      this.account := account;
    }

    /** retagSites: each site's list as stored right then, under its lock. */
    method RetagSites(order: seq<Site>, key: Tag, e: Edit, skip: set<Site>) returns (skipped: seq<Site>)
      requires NoDup(order)
      modifies this
      ensures account == old(account).(sites := Retagged(old(account.sites), Elems(order), key, e, skip))
      ensures Elems(skipped) == set x |
                x in order && x in old(account.sites) && x in skip && key in Keys(old(account.sites)[x])
    {
      hide Retagged;
      skipped := [];
      RetagNone(account.sites, key, e, skip);
      assert Elems(order[..0]) == {};
      for i := 0 to |order|
        invariant account == old(account).(sites := Retagged(old(account.sites), Elems(order[..i]), key, e, skip))
        invariant Elems(skipped) == set x |
                    x in order[..i] && x in old(account.sites) && x in skip && key in Keys(old(account.sites)[x])
      {
        var x := order[i];
        assert order[..i + 1] == order[..i] + [x] && x !in order[..i];
        ElemsAppend(order[..i], [x]);
        assert Elems(order[..i + 1]) == Elems(order[..i]) + {x};
        RetagNext(old(account.sites), Elems(order[..i]), x, key, e, skip);
        if x in account.sites && key in Keys(account.sites[x]) {
          if x in skip {
            ElemsAppend(skipped, [x]);
            skipped := skipped + [x];
          } else {
            var next, did;
            match e {
              case Rename(newKey, target) => next, did := RenameIn(account.sites[x], key, newKey, target);
              case Delete => next, did := RemoveFrom(account.sites[x], key);
            }
            account := account.(sites := account.sites[x := next]);
          }
        }
      }
      assert order[..|order|] == order;
    }

    /** tagUse's spellings. */
    method TagUse(order: seq<Site>) returns (inUse: map<Tag, Tag>)
      ensures inUse == InUse(Lists(account.sites, order))
    {
      hide InUse, Lists, AddedUse;
      inUse := map[];
      UseNone(account.sites);
      assert order[..0] == [];
      for i := 0 to |order|
        invariant inUse == InUse(Lists(account.sites, order[..i]))
      {
        UseNext(account.sites, order, i);
        inUse := AddInUse(inUse, if order[i] in account.sites then account.sites[order[i]] else []);
      }
      assert order[..|order|] == order;
    }

    /** tagRename, once the new name is clean. A merge asks first. */
    method Rename(order: seq<Site>, key: Tag, newName: Tag, confirmed: bool, skip: set<Site>, lost: bool)
      returns (r: Outcome)
      requires NoDup(order)
      modifies this
      ensures var merge := TagKey(newName) != key && Known(old(account), order, TagKey(newName));
              && (r.Unknown? <==> !Known(old(account), order, key))
              && (r.AskFirst? <==> Known(old(account), order, key) && merge && !confirmed)
              && account == if r.AskFirst? then old(account)
                 else RenameAll(old(account), order, key, newName, skip, lost)
    {
      var inUse := TagUse(order);
      var newKey := TagKey(newName);
      if key !in account.reg.tags && (key !in inUse || inUse[key] == "") { return Unknown; }
      var target := newName;
      if newKey != key && (newKey in account.reg.tags || (newKey in inUse && inUse[newKey] != "")) {
        target := TagName(account, order, newKey);
        if !confirmed { return AskFirst; }
      }
      var skipped := RetagSites(order, key, Edit.Rename(newKey, target), skip);
      if lost { return RegistryFailed; }
      account := account.(reg := RenameEntry(account.reg, key, newKey, target));
      r := Done(skipped);
    }

    /** tagDelete, confirmed. */
    method Delete(order: seq<Site>, key: Tag, skip: set<Site>, lost: bool) returns (r: Outcome)
      requires NoDup(order)
      modifies this
      ensures r.Unknown? <==> !Known(old(account), order, key)
      ensures account == DeleteAll(old(account), order, key, skip, lost)
    {
      var inUse := TagUse(order);
      if key !in account.reg.tags && (key !in inUse || inUse[key] == "") { return Unknown; }
      var skipped := RetagSites(order, key, Edit.Delete, skip);
      if lost { return RegistryFailed; }
      account := account.(reg := account.reg.(tags := account.reg.tags - {key}));
      r := Done(skipped);
    }
  }
}
