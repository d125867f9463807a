/** Tags, their identity, and the account's registry of groups and tag
    settings. */
module Tags {
  import opened Prelude

  type Tag = string

  function Lower(c: char): char {
    if 'A' <= c <= 'Z' then c + ' ' else c
  }

  /** A tag's identity: tags that differ only in case are the same tag. */
  function TagKey(s: Tag): (k: Tag)
    ensures |k| == |s|
    ensures forall i | 0 <= i < |s| :: k[i] == Lower(s[i])
  {
    if s == "" then "" else [Lower(s[0])] + TagKey(s[1..])
  }

  const UPPER := "ABCDEFGHIJKLMNOPQRSTUVWXYZ"
  const LOWER := "abcdefghijklmnopqrstuvwxyz"

  /** The letters A to Z become a to z, and nothing else changes. */
  lemma LowerIs(c: char)
    ensures |UPPER| == |LOWER| == 26
    ensures forall i | 0 <= i < 26 :: UPPER[i] as int == 'A' as int + i && Lower(UPPER[i]) == LOWER[i]
    ensures c !in UPPER ==> Lower(c) == c
  {
    if 'A' <= c <= 'Z' { assert UPPER[c as int - 'A' as int] == c; }
  }

  lemma TagKeyTwice(s: Tag)
    ensures TagKey(TagKey(s)) == TagKey(s)
  {
  }

  function Keys(tags: seq<Tag>): set<Tag> {
    set t | t in tags :: TagKey(t)
  }

  datatype Group = Group(id: string, name: string)

  datatype Meta = Meta(name: Tag, group: string, color: string)

  datatype Registry = Registry(groups: seq<Group>, tags: map<Tag, Meta>)

  function Ids(groups: seq<Group>): set<string> {
    set g | g in groups :: g.id
  }

  /** What the store's validate demands of a registry. */
  ghost predicate ValidRegistry(reg: Registry) {
    && "" !in Ids(reg.groups)
    && (forall i, j | 0 <= i < j < |reg.groups| :: reg.groups[i].id != reg.groups[j].id)
    && (forall k | k in reg.tags ::
          && TagKey(reg.tags[k].name) == k && reg.tags[k].name != ""
          && (reg.tags[k].group == "" || reg.tags[k].group in Ids(reg.groups)))
  }

  function Find(groups: seq<Group>, id: string): (r: Option<Group>)
    ensures r.Some? <==> id in Ids(groups)
    ensures r.Some? ==> r.value.id == id && r.value in groups
  {
    if groups == [] then None
    else if groups[0].id == id then Some(groups[0])
    else
      var r := Find(groups[1..], id);
      assert groups == [groups[0]] + groups[1..];
      r
  }

  /** The tag's group; None when ungrouped, unknown, or the group is gone. */
  function GroupOf(reg: Registry, key: Tag): Option<Group> {
    if key !in reg.tags || reg.tags[key].group == "" then None else Find(reg.groups, reg.tags[key].group)
  }

  predicate InGroup(reg: Registry, key: Tag, id: string) {
    GroupOf(reg, key).Some? && GroupOf(reg, key).value.id == id
  }

  /** A tag is in the group its settings name, if that exists. */
  lemma InGroupIs(reg: Registry, key: Tag, id: string)
    ensures InGroup(reg, key, id) <==>
              key in reg.tags && reg.tags[key].group == id && id != "" && id in Ids(reg.groups)
  {
  }

  /** addInUse: each key's first spelling is kept. */
  function AddedUse(inUse: map<Tag, Tag>, tags: seq<Tag>): map<Tag, Tag> {
    if tags == [] then inUse
    else
      var r := AddedUse(inUse, tags[..|tags| - 1]);
      var t := tags[|tags| - 1];
      if TagKey(t) in r && r[TagKey(t)] != "" then r else r[TagKey(t) := t]
  }

  method AddInUse(inUse: map<Tag, Tag>, tags: seq<Tag>) returns (r: map<Tag, Tag>)
    ensures r == AddedUse(inUse, tags)
  {
    r := inUse;
    for i := 0 to |tags|
      invariant r == AddedUse(inUse, tags[..i])
    {
      assert tags[..i + 1][..i] == tags[..i];
      var k := TagKey(tags[i]);
      if k !in r || r[k] == "" { r := r[k := tags[i]]; }
    }
    assert tags[..|tags|] == tags;
  }

  function InUse(lists: seq<seq<Tag>>): map<Tag, Tag> {
    if lists == [] then map[] else AddedUse(InUse(lists[..|lists| - 1]), lists[|lists| - 1])
  }

  lemma {:induction false} AddedUseKeys(inUse: map<Tag, Tag>, tags: seq<Tag>)
    ensures AddedUse(inUse, tags).Keys == inUse.Keys + Keys(tags)
  {
    if tags != [] {
      var front, t := tags[..|tags| - 1], tags[|tags| - 1];
      AddedUseKeys(inUse, front);
      assert tags == front + [t];
      assert Keys(tags) == Keys(front) + {TagKey(t)};
    }
  }

  /** The keys in use are those some list carries. */
  lemma {:induction false} InUseKeys(lists: seq<seq<Tag>>)
    ensures forall k :: k in InUse(lists) <==> exists l | l in lists :: k in Keys(l)
  {
    if lists != [] {
      var front, last := lists[..|lists| - 1], lists[|lists| - 1];
      InUseKeys(front);
      AddedUseKeys(InUse(front), last);
      assert lists == front + [last];
    }
  }
}
