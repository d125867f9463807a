/** Account-wide tag changes: rename, merge and delete on every site and in the
    registry, and what "do the same again" does after part of one was lost. */
module TagsManage {
  import opened Prelude
  import opened Tags
  import opened TagFilter

  // ---- one list ----

  function Kept(cur: seq<Tag>, key: Tag): seq<Tag> {
    if cur == [] then []
    else
      var t := cur[|cur| - 1];
      Kept(cur[..|cur| - 1], key) + (if TagKey(t) == key then [] else [t])
  }

  function Renamed(cur: seq<Tag>, key: Tag, newKey: Tag, target: Tag): seq<Tag> {
    if key !in Keys(cur) then cur
    else Kept(cur, key) + (if newKey != key && newKey in Keys(cur) then [] else [target])
  }

  lemma {:induction false} KeysAppend(a: seq<Tag>, b: seq<Tag>)
    ensures Keys(a + b) == Keys(a) + Keys(b)
  {
    assert forall t :: t in a + b <==> t in a || t in b;
  }

  lemma {:induction false} KeptIs(cur: seq<Tag>, key: Tag)
    ensures Keys(Kept(cur, key)) == Keys(cur) - {key}
    ensures |Kept(cur, key)| <= |cur| && (key in Keys(cur) ==> |Kept(cur, key)| < |cur|)
    ensures forall t :: t in Kept(cur, key) <==> t in cur && TagKey(t) != key
  {
    if cur != [] {
      var front, t := cur[..|cur| - 1], cur[|cur| - 1];
      KeptIs(front, key);
      assert cur == front + [t];
      KeysAppend(front, [t]);
      KeysAppend(Kept(front, key), if TagKey(t) == key then [] else [t]);
      assert Keys([t]) == {TagKey(t)};
    }
  }

  /** Exactly the tag changes: its key gives way to the new one, every other tag
      stays, and no list grows. */
  lemma RenamedIs(cur: seq<Tag>, key: Tag, newKey: Tag, target: Tag)
    requires TagKey(target) == newKey
    ensures key in Keys(cur) ==> Keys(Renamed(cur, key, newKey, target)) == Keys(cur) - {key} + {newKey}
    ensures key !in Keys(cur) ==> Renamed(cur, key, newKey, target) == cur
    ensures |Renamed(cur, key, newKey, target)| <= |cur|
    ensures forall t | TagKey(t) != key && TagKey(t) != newKey :: t in Renamed(cur, key, newKey, target) <==> t in cur
  {
    KeptIs(cur, key);
    KeysAppend(Kept(cur, key), [target]);
    assert Keys([target]) == {newKey};
  }

  predicate SameSpellings(a: seq<Tag>, b: seq<Tag>) {
    multiset(a) == multiset(b)
  }

  method RenameIn(cur: seq<Tag>, key: Tag, newKey: Tag, target: Tag) returns (out: seq<Tag>, changed: bool)
    ensures out == Renamed(cur, key, newKey, target)
    ensures changed <==> !SameSpellings(out, cur)
  {
    out := [];
    var had, hasTarget := false, false;
    for i := 0 to |cur|
      invariant out == Kept(cur[..i], key)
      invariant had <==> key in Keys(cur[..i])
      invariant hasTarget <==> newKey != key && newKey in Keys(cur[..i])
    {
      assert cur[..i + 1] == cur[..i] + [cur[i]] && cur[..i + 1][..i] == cur[..i];
      KeysAppend(cur[..i], [cur[i]]);
      var k := TagKey(cur[i]);
      if k == key {
        had := true;
      } else {
        hasTarget := hasTarget || k == newKey;
        out := out + [cur[i]];
      }
    }
    assert cur[..|cur|] == cur;
    if !had { return cur, false; }
    if !hasTarget { out := out + [target]; }
    changed := !SameSpellings(out, cur);
  }

  method RemoveFrom(cur: seq<Tag>, key: Tag) returns (out: seq<Tag>, changed: bool)
    ensures out == Kept(cur, key)
    ensures changed <==> key in Keys(cur)
  {
    out := [];
    for i := 0 to |cur|
      invariant out == Kept(cur[..i], key)
    {
      assert cur[..i + 1][..i] == cur[..i];
      if TagKey(cur[i]) != key { out := out + [cur[i]]; }
    }
    assert cur[..|cur|] == cur;
    KeptIs(cur, key);
    KeptAll(cur, key);
    changed := |out| != |cur|;
  }

  lemma {:induction false} KeptAll(cur: seq<Tag>, key: Tag)
    ensures key !in Keys(cur) ==> Kept(cur, key) == cur
  {
    if cur != [] {
      KeptAll(cur[..|cur| - 1], key);
      assert cur == cur[..|cur| - 1] + [cur[|cur| - 1]];
    }
  }

  // ---- the registry ----

  /** renameEntry: onto an existing entry it merges; a group that is gone is
      dropped. */
  function RenameEntry(reg: Registry, key: Tag, newKey: Tag, newName: Tag): Registry {
    if key !in reg.tags then reg
    else
      var was := reg.tags[key];
      var group := if was.group in Ids(reg.groups) then was.group else "";
      if newKey == key then reg.(tags := reg.tags[key := Meta(newName, group, was.color)])
      else
        var rest := reg.tags - {key};
        if newKey in rest then
          var cur := rest[newKey];
          reg.(tags := rest[newKey := Meta(cur.name, if cur.group == "" then group else cur.group,
                                           if cur.color == "" then was.color else cur.color)])
        else reg.(tags := rest[newKey := Meta(newName, group, was.color)])
  }

  function Either(first: string, second: string): string {
    if first != "" then first else second
  }

  function GroupIn(reg: Registry, k: Tag): string {
    if k in reg.tags && reg.tags[k].group in Ids(reg.groups) then reg.tags[k].group else ""
  }

  /** After a rename the old key has no entry and the new one has the settings of
      both: its own name, group and colour first, the renamed tag's for what it
      lacks. No other tag's settings change, and no tag's group is a dead one. */
  lemma EntryAfterRename(reg: Registry, key: Tag, newKey: Tag, name: Tag)
    requires ValidRegistry(reg) && TagKey(name) == newKey && key in reg.tags
    ensures var to := RenameEntry(reg, key, newKey, name);
            var had := newKey != key && newKey in reg.tags;
            && to.tags.Keys == reg.tags.Keys - {key} + {newKey}
            && to.groups == reg.groups
            && to.tags[newKey].name == (if had then reg.tags[newKey].name else name)
            && GroupIn(to, newKey) == (if had then Either(GroupIn(reg, newKey), GroupIn(reg, key))
               else GroupIn(reg, key))
            && to.tags[newKey].color ==
               (if had then Either(reg.tags[newKey].color, reg.tags[key].color) else reg.tags[key].color)
            && forall k | k in reg.tags && k != key && k != newKey :: to.tags[k] == reg.tags[k]
  {
    hide TagKey;
  }

  /** A group that is gone is not carried over. */
  lemma DeadGroupGoes(reg: Registry, key: Tag, newKey: Tag, name: Tag)
    requires key in reg.tags && (newKey == key || newKey !in reg.tags)
    ensures var g := RenameEntry(reg, key, newKey, name).tags[newKey].group;
            g == (if reg.tags[key].group in Ids(reg.groups) then reg.tags[key].group else "")
  {
  }

  lemma RenameKeepsValid(reg: Registry, key: Tag, newKey: Tag, name: Tag)
    requires ValidRegistry(reg) && TagKey(name) == newKey && name != ""
    ensures ValidRegistry(RenameEntry(reg, key, newKey, name))
  {
    hide TagKey;
  }

  // ---- a rename keeps what the filter shows ----

  function Ren(k: Tag, key: Tag, newKey: Tag): Tag {
    if k == key then newKey else k
  }

  function RenamedSel(sel: Selection, key: Tag, newKey: Tag): Selection {
    sel.(tags := set k | k in sel.tags :: Ren(k, key, newKey))
  }

  lemma RenamedGroup(reg: Registry, key: Tag, newKey: Tag, name: Tag, k: Tag, id: string)
    requires "" !in Ids(reg.groups)
    requires newKey == key || (newKey !in reg.tags && k != newKey)
    ensures var to := RenameEntry(reg, key, newKey, name);
            && GroupOf(to, Ren(k, key, newKey)) == GroupOf(reg, k)
            && (InGroup(to, Ren(k, key, newKey), id) <==> InGroup(reg, k, id))
  {
  }

  /** For a rename onto a key nobody knows, or of the spelling alone: every site
      passes the renamed filter exactly if it passed the filter before. */
  lemma RenameKeepsTheFilter(sel: Selection, reg: Registry, row: seq<Tag>, key: Tag, newKey: Tag, target: Tag)
    requires "" !in Ids(reg.groups) && TagKey(target) == newKey
    requires newKey == key || (newKey !in reg.tags && newKey !in Keys(row) && newKey !in sel.tags)
    ensures Passes(RenamedSel(sel, key, newKey), RenameEntry(reg, key, newKey, target),
      Renamed(row, key, newKey, target))
            <==> Passes(sel, reg, row)
  {
    RenamedIs(row, key, newKey, target);
    var to := RenameEntry(reg, key, newKey, target);
    var have := Keys(row);
    var next := RenAll(have, key, newKey);
    assert Keys(Renamed(row, key, newKey, target)) == next by {
      forall k ensures k in Keys(Renamed(row, key, newKey, target)) <==> k in next {
        if k in Keys(row) && k != key { assert Ren(k, key, newKey) in next; }
        if key in Keys(row) { assert Ren(key, key, newKey) in next; }
      }
    }
    WantedRenamed(sel, reg, have, key, newKey, target);
  }

  /** The keys of have after the rename. */
  function RenAll(have: set<Tag>, key: Tag, newKey: Tag): set<Tag> {
    set k | k in have :: Ren(k, key, newKey)
  }

  lemma WantedRenamed(sel: Selection, reg: Registry, have: set<Tag>, key: Tag, newKey: Tag, target: Tag)
    requires "" !in Ids(reg.groups)
    requires newKey == key || (newKey !in reg.tags && newKey !in have && newKey !in sel.tags)
    ensures Wanted(RenamedSel(sel, key, newKey), RenameEntry(reg, key, newKey, target), RenAll(have, key, newKey))
            <==> Wanted(sel, reg, have)
  {
    var to := RenameEntry(reg, key, newKey, target);
    forall k | k in have + sel.tags ensures GroupOf(to, Ren(k, key, newKey)) == GroupOf(reg, k) {
      RenamedGroup(reg, key, newKey, target, k, "");
    }
    SameGroups(sel, reg, to, have, key, newKey);
  }

  lemma SameGroups(sel: Selection, reg: Registry, to: Registry, have: set<Tag>, key: Tag, newKey: Tag)
    requires to.groups == reg.groups && (newKey == key || (newKey !in have && newKey !in sel.tags))
    requires forall k | k in have + sel.tags :: GroupOf(to, Ren(k, key, newKey)) == GroupOf(reg, k)
    ensures Wanted(RenamedSel(sel, key, newKey), to, RenAll(have, key, newKey)) <==> Wanted(sel, reg, have)
  {
    var next, tags := RenAll(have, key, newKey), RenamedSel(sel, key, newKey).tags;
    assert forall k | k in have :: Ren(k, key, newKey) in next;
    assert forall k | k in sel.tags :: Ren(k, key, newKey) in tags;
    forall id ensures HasGroup(to, next, id) <==> HasGroup(reg, have, id) {
      if k :| k in have && InGroup(reg, k, id) { assert InGroup(to, Ren(k, key, newKey), id); }
    }
    forall id ensures HasChosen(to, next, tags, id) <==> HasChosen(reg, have, sel.tags, id) {
      if k :| k in have && k in sel.tags && InGroup(reg, k, id) { assert InGroup(to, Ren(k, key, newKey), id); }
    }
    forall k | k in sel.tags ensures k in have <==> Ren(k, key, newKey) in next {
    }
    forall k, id | k in sel.tags ensures InGroup(to, Ren(k, key, newKey), id) <==> InGroup(reg, k, id) {
    }
  }

  /** For a merge: the sites that carry the target alone afterwards are those
      that carried either tag before; the old tag is gone. */
  lemma MergeIsUnion(reg: Registry, row: seq<Tag>, key: Tag, newKey: Tag, target: Tag)
    requires newKey != key && TagKey(target) == newKey
    ensures var after := Renamed(row, key, newKey, target);
            && (Passes(Selection(false, {newKey}, {}), RenameEntry(reg, key, newKey, target), after) <==>
                  Passes(Selection(false, {newKey}, {}), reg, row) || Passes(Selection(false, {key}, {}), reg, row))
            && !Passes(Selection(false, {key}, {}), RenameEntry(reg, key, newKey, target), after)
  {
    RenamedIs(row, key, newKey, target);
    OneTag(RenameEntry(reg, key, newKey, target), Renamed(row, key, newKey, target), newKey);
    OneTag(RenameEntry(reg, key, newKey, target), Renamed(row, key, newKey, target), key);
    OneTag(reg, row, newKey);
    OneTag(reg, row, key);
  }

  /** A selection of one tag asks for that tag, whatever its group. */
  lemma OneTag(reg: Registry, row: seq<Tag>, k: Tag)
    ensures Passes(Selection(false, {k}, {}), reg, row) <==> k in Keys(row)
  {
    var sel := Selection(false, {k}, {});
    if Passes(sel, reg, row) && GroupOf(reg, k).Some? {
      assert InGroup(reg, k, GroupOf(reg, k).value.id);
    }
  }
}
