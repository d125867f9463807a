/** The dashboard's tag filter: what a selection means, the compiled form the
    pages use, the query that restores it, and the chips that change it. */
module TagFilter {
  import opened Prelude
  import opened Tags

  datatype Selection = Selection(untagged: bool, tags: set<Tag>, groups: set<string>)

  // ---- what a selection means ----

  predicate HasGroup(reg: Registry, have: set<Tag>, id: string) {
    exists k | k in have :: InGroup(reg, k, id)
  }

  predicate HasChosen(reg: Registry, have: set<Tag>, tags: set<Tag>, id: string) {
    exists k | k in have && k in tags :: InGroup(reg, k, id)
  }

  /** Every whole group is hit; every partly selected group is hit by a selected
      tag of it. */
  ghost predicate GroupsWanted(sel: Selection, reg: Registry, have: set<Tag>) {
    && (forall id | id in sel.groups && id in Ids(reg.groups) :: HasGroup(reg, have, id))
    && (forall k, id | k in sel.tags && id !in sel.groups && InGroup(reg, k, id) :: HasChosen(reg, have, sel.tags, id))
  }

  /** And every ungrouped selected tag is there. */
  ghost predicate Wanted(sel: Selection, reg: Registry, have: set<Tag>) {
    GroupsWanted(sel, reg, have) && forall k | k in sel.tags && GroupOf(reg, k).None? :: k in have
  }

  ghost predicate Passes(sel: Selection, reg: Registry, siteTags: seq<Tag>) {
    if sel.untagged then siteTags == [] else Wanted(sel, reg, Keys(siteTags))
  }

  // ---- the compiled form ----

  /** One AND-term: a whole group, or any of the keys; group is "" for an
      ungrouped tag. */
  datatype Facet = Facet(whole: bool, group: string, keys: seq<Tag>)

  ghost predicate Chosen(sel: Selection, reg: Registry, id: string, keys: seq<Tag>) {
    forall k :: k in keys <==> k in sel.tags && InGroup(reg, k, id)
  }

  ghost predicate GroupFacet(f: Facet, sel: Selection, reg: Registry, id: string) {
    && f.group == id
    && (f.whole <==> id in sel.groups && id in Ids(reg.groups))
    && (!f.whole ==> f.keys != [] && Chosen(sel, reg, id, f.keys))
  }

  ghost predicate LoneFacet(f: Facet, sel: Selection, reg: Registry) {
    !f.whole && |f.keys| == 1 && f.keys[0] in sel.tags && GroupOf(reg, f.keys[0]).None?
  }

  /** A group has a facet if it is selected whole, or one of its tags is. */
  predicate Facetted(sel: Selection, reg: Registry, id: string) {
    (id in sel.groups && id in Ids(reg.groups)) || exists k | k in sel.tags :: InGroup(reg, k, id)
  }

  /** The group facets of a selection. */
  ghost predicate Compiled(byGroup: map<string, Facet>, sel: Selection, reg: Registry) {
    && (forall id :: id in byGroup <==> Facetted(sel, reg, id))
    && (forall id | id in byGroup :: GroupFacet(byGroup[id], sel, reg, id))
  }

  ghost predicate Lone(ungrouped: seq<Facet>, sel: Selection, reg: Registry) {
    && (forall f | f in ungrouped :: LoneFacet(f, sel, reg))
    && (forall k | k in sel.tags && GroupOf(reg, k).None? :: Facet(false, "", [k]) in ungrouped)
  }

  method Facets(sel: Selection, reg: Registry) returns (byGroup: map<string, Facet>, ungrouped: seq<Facet>)
    ensures Compiled(byGroup, sel, reg) && Lone(ungrouped, sel, reg)
  {
    byGroup, ungrouped := map[], [];
    for i := 0 to |reg.groups|
      invariant forall id :: id in byGroup <==> id in sel.groups && id in Ids(reg.groups[..i])
      invariant forall id | id in byGroup :: byGroup[id] == Facet(true, id, [])
    {
      assert reg.groups[..i + 1] == reg.groups[..i] + [reg.groups[i]];
      var g := reg.groups[i];
      if g.id in sel.groups { byGroup := byGroup[g.id := Facet(true, g.id, [])]; }
    }
    assert reg.groups[..|reg.groups|] == reg.groups;
    var left := sel.tags;
    while left != {}
      invariant left <= sel.tags
      invariant Compiled(byGroup, sel.(tags := sel.tags - left), reg)
      invariant Lone(ungrouped, sel.(tags := sel.tags - left), reg)
    {
      var key :| key in left;
      ghost var part := sel.(tags := sel.tags - left);
      left := left - {key};
      assert sel.(tags := sel.tags - left) == part.(tags := part.tags + {key});
      var g := GroupOf(reg, key);
      if g.None? {
        LoneJoins(byGroup, ungrouped, part, reg, key);
        ungrouped := ungrouped + [Facet(false, "", [key])];
      } else {
        var f := if g.value.id in byGroup then byGroup[g.value.id] else Facet(false, g.value.id, []);
        if !f.whole { f := f.(keys := f.keys + [key]); }
        KeyJoins(byGroup, ungrouped, part, reg, key, f);
        byGroup := byGroup[g.value.id := f];
      }
    }
    assert sel.(tags := sel.tags - left) == sel;
  }

  lemma LoneJoins(byGroup: map<string, Facet>, ungrouped: seq<Facet>, sel: Selection, reg: Registry, key: Tag)
    requires Compiled(byGroup, sel, reg) && Lone(ungrouped, sel, reg) && GroupOf(reg, key).None?
    ensures var next := sel.(tags := sel.tags + {key});
            Compiled(byGroup, next, reg) && Lone(ungrouped + [Facet(false, "", [key])], next, reg)
  {
    var next := sel.(tags := sel.tags + {key});
    forall id ensures Facetted(next, reg, id) <==> Facetted(sel, reg, id) {
      if Facetted(next, reg, id) && !(id in sel.groups && id in Ids(reg.groups)) {
        var k :| k in next.tags && InGroup(reg, k, id);
        assert k in sel.tags;
      }
      if Facetted(sel, reg, id) && !(id in sel.groups && id in Ids(reg.groups)) {
        var k :| k in sel.tags && InGroup(reg, k, id);
        assert k in next.tags;
      }
    }
    assert (ungrouped + [Facet(false, "", [key])])[|ungrouped|] == Facet(false, "", [key]);
  }

  lemma KeyJoins(byGroup: map<string, Facet>, ungrouped: seq<Facet>, sel: Selection, reg: Registry, key: Tag, f: Facet)
    requires Compiled(byGroup, sel, reg) && Lone(ungrouped, sel, reg) && GroupOf(reg, key).Some?
    requires var id := GroupOf(reg, key).value.id;
             var was := if id in byGroup then byGroup[id] else Facet(false, id, []);
             f == if was.whole then was else was.(keys := was.keys + [key])
    ensures var next := sel.(tags := sel.tags + {key});
            Compiled(byGroup[GroupOf(reg, key).value.id := f], next, reg) && Lone(ungrouped, next, reg)
  {
    var next, own := sel.(tags := sel.tags + {key}), GroupOf(reg, key).value.id;
    var was := if own in byGroup then byGroup[own] else Facet(false, own, []);
    assert own in Ids(reg.groups) && InGroup(reg, key, own);
    assert forall k :: k in was.keys + [key] <==> k in was.keys || k == key;
    assert GroupFacet(f, next, reg, own);
    forall id | id != own ensures Facetted(next, reg, id) <==> Facetted(sel, reg, id) {
      if Facetted(sel, reg, id) && !(id in sel.groups && id in Ids(reg.groups)) {
        var k :| k in sel.tags && InGroup(reg, k, id);
        assert k in next.tags;
      }
    }
    assert Facetted(next, reg, own);
  }

  method Matches(sel: Selection, reg: Registry, siteTags: seq<Tag>) returns (ok: bool)
    ensures ok <==> Passes(sel, reg, siteTags)
  {
    if sel.untagged { return siteTags == []; }
    var have, haveGroup := {}, {};
    for i := 0 to |siteTags|
      invariant have == Keys(siteTags[..i])
      invariant forall id :: id in haveGroup <==> HasGroup(reg, have, id)
    {
      assert siteTags[..i + 1] == siteTags[..i] + [siteTags[i]];
      var k := TagKey(siteTags[i]);
      have := have + {k};
      if GroupOf(reg, k).Some? { haveGroup := haveGroup + {GroupOf(reg, k).value.id}; }
    }
    assert siteTags[..|siteTags|] == siteTags;
    var byGroup, ungrouped := Facets(sel, reg);
    GroupsMean(sel, reg, byGroup, haveGroup, have);
    LonesMean(sel, reg, ungrouped, haveGroup, have);
    var left := byGroup.Keys;
    while left != {}
      invariant left <= byGroup.Keys
      invariant forall id | id in byGroup.Keys - left :: Hit(byGroup[id], haveGroup, have)
    {
      var id :| id in left;
      if !Hit(byGroup[id], haveGroup, have) { return false; }
      left := left - {id};
    }
    for i := 0 to |ungrouped|
      invariant forall j | 0 <= j < i :: Hit(ungrouped[j], haveGroup, have)
    {
      if !Hit(ungrouped[i], haveGroup, have) { return false; }
    }
    ok := true;
  }

  predicate Hit(f: Facet, haveGroup: set<string>, have: set<Tag>) {
    if f.whole then f.group in haveGroup else exists k | k in f.keys :: k in have
  }

  lemma GroupsMean(sel: Selection, reg: Registry, byGroup: map<string, Facet>, haveGroup: set<string>, have: set<Tag>)
    requires Compiled(byGroup, sel, reg)
    requires forall id :: id in haveGroup <==> HasGroup(reg, have, id)
    ensures GroupsWanted(sel, reg, have) <==> forall id | id in byGroup :: Hit(byGroup[id], haveGroup, have)
  {
    if GroupsWanted(sel, reg, have) {
      forall id | id in byGroup ensures Hit(byGroup[id], haveGroup, have) {
        var f := byGroup[id];
        assert GroupFacet(f, sel, reg, id);
        if !f.whole {
          assert f.keys[0] in f.keys;
          var j :| j in have && j in sel.tags && InGroup(reg, j, id);
          assert j in f.keys;
        }
      }
    }
    if forall id | id in byGroup :: Hit(byGroup[id], haveGroup, have) {
      forall id | id in sel.groups && id in Ids(reg.groups) ensures HasGroup(reg, have, id) {
        assert Facetted(sel, reg, id);
        assert GroupFacet(byGroup[id], sel, reg, id);
      }
      forall k, id | k in sel.tags && id !in sel.groups && InGroup(reg, k, id)
        ensures HasChosen(reg, have, sel.tags, id)
      {
        assert Facetted(sel, reg, id);
        assert GroupFacet(byGroup[id], sel, reg, id);
        var j :| j in byGroup[id].keys && j in have;
      }
    }
  }

  lemma LonesMean(sel: Selection, reg: Registry, ungrouped: seq<Facet>, haveGroup: set<string>, have: set<Tag>)
    requires Lone(ungrouped, sel, reg)
    ensures (forall k | k in sel.tags && GroupOf(reg, k).None? :: k in have) <==>
            forall j | 0 <= j < |ungrouped| :: Hit(ungrouped[j], haveGroup, have)
  {
    if forall j | 0 <= j < |ungrouped| :: Hit(ungrouped[j], haveGroup, have) {
      forall k | k in sel.tags && GroupOf(reg, k).None? ensures k in have {
        var j :| 0 <= j < |ungrouped| && ungrouped[j] == Facet(false, "", [k]);
        assert Hit(ungrouped[j], haveGroup, have);
      }
    }
    forall j | 0 <= j < |ungrouped|
      ensures LoneFacet(ungrouped[j], sel, reg) && (ungrouped[j].keys[0] in have ==> Hit(ungrouped[j], haveGroup, have))
    {
      assert ungrouped[j] in ungrouped;
    }
  }

  /** applyTags: the rows shown are those that pass, in their order. */
  method ApplyTags(sel: Selection, reg: Registry, rows: seq<seq<Tag>>) returns (shown: seq<nat>)
    ensures forall i, j | 0 <= i < j < |shown| :: shown[i] < shown[j]
    ensures forall n: nat :: n in shown <==> n < |rows| && Passes(sel, reg, rows[n])
  {
    shown := [];
    for n := 0 to |rows|
      invariant forall i, j | 0 <= i < j < |shown| :: shown[i] < shown[j]
      invariant forall i | 0 <= i < |shown| :: shown[i] < n
      invariant forall m: nat :: m in shown <==> m < n && Passes(sel, reg, rows[m])
    {
      var ok := Matches(sel, reg, rows[n]);
      if ok {
        shown := shown + [n];
      }
    }
  }

  // ---- the query that restores a selection ----

  /** The parameters of a URL query, in order of appearance. */
  datatype Query = Query(untagged: seq<string>, g: seq<string>, t: seq<string>)

  const UNTAGGED := Selection(true, {}, {})

  predicate KnownKey(reg: Registry, inUse: set<Tag>, k: Tag) {
    k in inUse || k in reg.tags
  }

  /** What the query of a selection says; the source also sorts the values. */
  predicate Says(q: Query, sel: Selection) {
    if sel.untagged then q == Query(["1"], [], [])
    else q.untagged == [] && Elems(q.g) == sel.groups && Elems(q.t) == sel.tags && NoDup(q.g) && NoDup(q.t)
  }

  method ToQuery(sel: Selection) returns (q: Query)
    ensures Says(q, sel)
  {
    if sel.untagged { return Query(["1"], [], []); }
    var g := Listing(sel.groups);
    var t := Listing(sel.tags);
    q := Query([], g, t);
  }

  method Parse(q: Query, reg: Registry, inUse: set<Tag>) returns (sel: Selection)
    ensures q.untagged != [] && q.untagged[0] == "1" ==> sel == UNTAGGED
    ensures !(q.untagged != [] && q.untagged[0] == "1") ==>
              && !sel.untagged
              && (forall k :: k in sel.tags <==> k in Keys(q.t) && (k in inUse || k in reg.tags))
              && (forall id :: id in sel.groups <==> id in q.g && id in Ids(reg.groups))
  {
    if q.untagged != [] && q.untagged[0] == "1" { return UNTAGGED; }
    sel := Selection(false, {}, {});
    for i := 0 to |q.t|
      invariant !sel.untagged && sel.groups == {}
      invariant forall k :: k in sel.tags <==> k in Keys(q.t[..i]) && KnownKey(reg, inUse, k)
    {
      assert q.t[..i + 1] == q.t[..i] + [q.t[i]];
      var key := TagKey(q.t[i]);
      if KnownKey(reg, inUse, key) { sel := sel.(tags := sel.tags + {key}); }
    }
    assert q.t[..|q.t|] == q.t;
    for i := 0 to |q.g|
      invariant !sel.untagged && forall k :: k in sel.tags <==> k in Keys(q.t) && KnownKey(reg, inUse, k)
      invariant forall id :: id in sel.groups <==> id in q.g[..i] && id in Ids(reg.groups)
    {
      if Find(reg.groups, q.g[i]).Some? { sel := sel.(groups := sel.groups + {q.g[i]}); }
    }
  }

  /** The selections the pages can hold: untagged alone, or known tags, by key,
      and existing groups. */
  predicate Proper(sel: Selection, reg: Registry, inUse: set<Tag>) {
    && (sel.untagged ==> sel == UNTAGGED)
    && (forall k | k in sel.tags :: KnownKey(reg, inUse, k) && TagKey(k) == k)
    && sel.groups <= Ids(reg.groups)
  }

  /** Reading a selection's query gives the selection back: exactly for the
      proper ones. */
  method RoundTrip(sel: Selection, reg: Registry, inUse: set<Tag>) returns (back: Selection)
    ensures back == sel <==> Proper(sel, reg, inUse)
    ensures Proper(back, reg, inUse)
  {
    var q := ToQuery(sel);
    back := Parse(q, reg, inUse);
    forall k | k in back.tags ensures TagKey(k) == k {
      var t :| t in q.t && TagKey(t) == k;
      TagKeyTwice(t);
    }
  }

  // ---- the chips ----

  /** Adds or removes one tag; choosing a tag clears Untagged. */
  function ToggleTag(sel: Selection, tag: Tag): Selection {
    var key := TagKey(tag);
    Selection(false, if key in sel.tags then sel.tags - {key} else sel.tags + {key}, sel.groups)
  }

  function ToggleGroup(sel: Selection, id: string): Selection {
    Selection(false, sel.tags, if id in sel.groups then sel.groups - {id} else sel.groups + {id})
  }

  function WithUntagged(sel: Selection): Selection {
    UNTAGGED
  }

  /** Whatever is clicked, the selection stays one whose query restores it. */
  lemma ClicksStayProper(sel: Selection, reg: Registry, inUse: set<Tag>, k: Tag, id: string)
    requires Proper(sel, reg, inUse)
    ensures TagKey(k) == k && KnownKey(reg, inUse, k) ==> Proper(ToggleTag(sel, k), reg, inUse)
    ensures id in Ids(reg.groups) ==> Proper(ToggleGroup(sel, id), reg, inUse)
    ensures Proper(WithUntagged(sel), reg, inUse)
  {
  }

  method ChipToggle(sel: Selection, group: string, whole: bool, key: Tag, keys: seq<Tag>) returns (next: Selection)
    requires NoDup(keys) && forall k | k in keys :: TagKey(k) == k
    ensures !whole ==> next == ToggleTag(sel, key)
    ensures whole ==> next == ToggleGroup(sel, group).(tags := sel.tags - Elems(keys) + (Elems(keys) - {key}))
  {
    if !whole { return ToggleTag(sel, key); }
    next := ToggleGroup(sel, group);
    for i := 0 to |keys|
      invariant next == ToggleGroup(sel, group).(tags := sel.tags - Elems(keys[..i]) + (Elems(keys[..i]) - {key}))
    {
      assert keys[..i + 1] == keys[..i] + [keys[i]];
      ElemsAppend(keys[..i], [keys[i]]);
      assert keys[i] !in keys[..i];
      if (keys[i] != key) != (keys[i] in next.tags) { next := ToggleTag(next, keys[i]); }
    }
    assert keys[..|keys|] == keys;
  }

  // ---- whole groups ----

  /** The selection without its say on one group. */
  function Without(sel: Selection, reg: Registry, id: string): Selection {
    Selection(sel.untagged, (set k | k in sel.tags && !InGroup(reg, k, id)), sel.groups - {id})
  }

  ghost predicate GroupHit(sel: Selection, reg: Registry, id: string, have: set<Tag>) {
    if id in sel.groups then HasGroup(reg, have, id)
    else (exists k | k in sel.tags :: InGroup(reg, k, id)) ==> HasChosen(reg, have, sel.tags, id)
  }

  /** A selection is a conjunction over the groups. */
  lemma OneGroup(sel: Selection, reg: Registry, id: string, have: set<Tag>)
    requires id in Ids(reg.groups)
    ensures Wanted(sel, reg, have) <==> Wanted(Without(sel, reg, id), reg, have) && GroupHit(sel, reg, id, have)
  {
    var rest := Without(sel, reg, id);
    if Wanted(sel, reg, have) {
      forall k, i | k in rest.tags && i !in rest.groups && InGroup(reg, k, i)
        ensures HasChosen(reg, have, rest.tags, i)
      {
        var j :| j in have && j in sel.tags && InGroup(reg, j, i);
        assert j in rest.tags;
      }
    }
    if Wanted(rest, reg, have) && GroupHit(sel, reg, id, have) {
      forall k, i | k in sel.tags && i !in sel.groups && InGroup(reg, k, i)
        ensures HasChosen(reg, have, sel.tags, i)
      {
        if i != id {
          assert k in rest.tags;
          var j :| j in have && j in rest.tags && InGroup(reg, j, i);
        }
      }
    }
  }

  /** A click on a tag or a group changes just that, and clears Untagged; a second
      click takes the first back. Choosing a group asks for any tag of it, whatever
      of it was chosen before. */
  lemma WhatClicksDo(sel: Selection, reg: Registry, k: Tag, id: string, row: seq<Tag>)
    requires TagKey(k) == k
    ensures var next := ToggleTag(sel, k);
            && !next.untagged && next.groups == sel.groups
            && forall j :: j in next.tags <==> (j in sel.tags) != (j == k)
    ensures var next := ToggleGroup(sel, id);
            && !next.untagged && next.tags == sel.tags
            && forall j :: j in next.groups <==> (j in sel.groups) != (j == id)
    ensures !sel.untagged ==> ToggleTag(ToggleTag(sel, k), k) == sel && ToggleGroup(ToggleGroup(sel, id), id) == sel
    ensures !sel.untagged && id !in sel.groups && id in Ids(reg.groups) ==>
              (Passes(ToggleGroup(sel, id), reg, row) <==>
                 Passes(Without(sel, reg, id), reg, row) && exists j | j in Keys(row) :: InGroup(reg, j, id))
  {
    if !sel.untagged && id !in sel.groups && id in Ids(reg.groups) {
      OneGroup(ToggleGroup(sel, id), reg, id, Keys(row));
      assert Without(ToggleGroup(sel, id), reg, id) == Without(sel, reg, id);
    }
  }

  /** The tags a block lists: those of the group among all that are listed. */
  function Listed(reg: Registry, listed: set<Tag>, id: string): set<Tag> {
    set k | k in listed && InGroup(reg, k, id)
  }

  /** Where every tag is listed, a whole group and all its listed tags let the same
      rows pass, exactly if it lists a tag or the rest of the selection keeps the
      row out: with none listed, the whole group lets nothing pass, and spelled out
      it is as if it were not selected. */
  lemma WholeIsAllItsTags(sel: Selection, reg: Registry, row: seq<Tag>, listed: set<Tag>, id: string)
    requires id in Ids(reg.groups) && id in sel.groups && !sel.untagged
    requires Keys(row) <= listed && sel.tags <= listed
    ensures var all := Listed(reg, listed, id);
            var spelled := Selection(false, sel.tags + all, sel.groups - {id});
            && ((Passes(sel, reg, row) <==> Passes(spelled, reg, row))
                <==> all != {} || !Passes(Without(sel, reg, id), reg, row))
            && (all == {} ==> !Passes(sel, reg, row)
                              && (Passes(spelled, reg, row) <==> Passes(Without(sel, reg, id), reg, row)))
  {
    var all, have := Listed(reg, listed, id), Keys(row);
    var spelled := Selection(false, sel.tags + all, sel.groups - {id});
    OneGroup(sel, reg, id, have);
    OneGroup(spelled, reg, id, have);
    assert Without(spelled, reg, id) == Without(sel, reg, id);
    assert forall k | k in have && InGroup(reg, k, id) :: k in all;
    if k :| k in all { assert k in spelled.tags; }
  }

  /** A group that lists no tag: selected whole nothing passes, spelled out
      everything does. */
  lemma EmptyGroup()
    ensures var reg, row := Registry([Group("g", "Empty")], map[]), ["a"];
            && !Passes(Selection(false, {}, {"g"}), reg, row)
            && Passes(Selection(false, {} + Listed(reg, Keys(row), "g"), {"g"} - {"g"}), reg, row)
  {
    var reg := Registry([Group("g", "Empty")], map[]);
    assert reg.groups[0].id in Ids(reg.groups);
    assert forall k, id :: !InGroup(reg, k, id);
  }

  /** Clicking a chip of a whole group keeps exactly the rows that also carry
      another listed tag of it, exactly if it lists another or the rest of the
      selection keeps the row out. */
  lemma ChipKeepsTheOthers(sel: Selection, reg: Registry, row: seq<Tag>, listed: set<Tag>, id: string, key: Tag,
                           next: Selection)
    requires id in Ids(reg.groups) && id in sel.groups && !sel.untagged
    requires Keys(row) <= listed && sel.tags <= listed && key in Listed(reg, listed, id)
    requires var all := Listed(reg, listed, id);
             next == ToggleGroup(sel, id).(tags := sel.tags - all + (all - {key}))
    ensures var others := Listed(reg, listed, id) - {key};
            if others == {} then Passes(next, reg, row) <==> Passes(Without(sel, reg, id), reg, row)
            else Passes(next, reg, row) <==> Passes(sel, reg, row) && Keys(row) * others != {}
    ensures var others := Listed(reg, listed, id) - {key};
            (Passes(next, reg, row) <==> Passes(sel, reg, row) && Keys(row) * others != {})
            <==> others != {} || !Passes(Without(sel, reg, id), reg, row)
  {
    var all, have := Listed(reg, listed, id), Keys(row);
    OneGroup(sel, reg, id, have);
    OneGroup(next, reg, id, have);
    assert Without(next, reg, id) == Without(sel, reg, id);
    if have * (all - {key}) != {} {
      var k :| k in have * (all - {key});
      assert k in next.tags && InGroup(reg, k, id);
    }
    forall j | j in have && j in next.tags && InGroup(reg, j, id) ensures j in have * (all - {key}) {
    }
    if k :| k in all - {key} { assert k in next.tags; }
  }

  /** buildTagFilter's blocks: every tag in use or selected is listed once, under
      its own group ("" for none). */
  method ListBlocks(sel: Selection, reg: Registry, inUse: set<Tag>) returns (byGroup: map<string, seq<Tag>>)
    requires ValidRegistry(reg)
    ensures forall id | id in byGroup :: NoDup(byGroup[id])
    ensures forall id | id in Ids(reg.groups) ::
              (if id in byGroup then Elems(byGroup[id]) else {}) == Listed(reg, inUse + sel.tags, id)
    ensures (if "" in byGroup then Elems(byGroup[""]) else {}) == set k | k in inUse + sel.tags && GroupOf(reg, k).None?
  {
    byGroup := map[];
    var left := inUse + sel.tags;
    ghost var seen: set<Tag> := {};
    while left != {}
      invariant seen !! left && seen + left == inUse + sel.tags
      invariant forall id | id in byGroup :: NoDup(byGroup[id])
      invariant forall id | id in byGroup :: Elems(byGroup[id]) == set k | k in seen && BlockOf(reg, k) == id
      invariant forall k | k in seen :: BlockOf(reg, k) in byGroup
    {
      var k :| k in left;
      left := left - {k};
      var id := BlockOf(reg, k);
      var keys := if id in byGroup then byGroup[id] else [];
      ElemsAppend(keys, [k]);
      assert k !in Elems(keys);
      byGroup := byGroup[id := keys + [k]];
      seen := seen + {k};
    }
    assert seen == inUse + sel.tags;
    assert forall k, id | id in Ids(reg.groups) :: InGroup(reg, k, id) <==> BlockOf(reg, k) == id;
    assert forall k :: GroupOf(reg, k).None? <==> BlockOf(reg, k) == "";
    forall id | id in Ids(reg.groups)
      ensures (if id in byGroup then Elems(byGroup[id]) else {}) == Listed(reg, inUse + sel.tags, id)
    {
    }
  }

  function BlockOf(reg: Registry, k: Tag): string {
    if GroupOf(reg, k).Some? then GroupOf(reg, k).value.id else ""
  }
}
