/** Identities and small helpers on lists and options that every module uses. */
module Prelude {

  datatype Option<+T> = None | Some(value: T)

  // Account ids, site view ids, offer ids, e-mail addresses and instants are
  // opaque to the logic modelled here, so numbers stand for them.
  type Account = nat
  type Site = nat
  type OfferId = nat
  type Email = nat
  type Time = int

  /** The empty account id: the owner of an anonymous site. */
  const NOBODY: Account := 0

  predicate NoDup<T(==)>(s: seq<T>) {
    forall i, j | 0 <= i < j < |s| :: s[i] != s[j]
  }

  function Elems<T(==)>(s: seq<T>): set<T> {
    set x | x in s
  }

  lemma ElemsAppend<T>(a: seq<T>, b: seq<T>)
    ensures Elems(a + b) == Elems(a) + Elems(b)
  {
  }

  lemma NoElems<T>(s: seq<T>)
    ensures Elems(s) == {} ==> s == []
  {
    if s != [] { assert s[0] in Elems(s); }
  }

  lemma NoDupAppend<T>(s: seq<T>, x: T)
    requires NoDup(s) && x !in s
    ensures NoDup(s + [x])
  {
  }

  lemma NoDupSize<T>(s: seq<T>)
    requires NoDup(s)
    ensures |Elems(s)| == |s|
  {
    if s != [] {
      var rest := s[..|s| - 1];
      NoDupSize(rest);
      assert s == rest + [s[|s| - 1]];
      ElemsAppend(rest, [s[|s| - 1]]);
      assert Elems(s) == Elems(rest) + {s[|s| - 1]};
    }
  }

  /** The elements of a set as a list; no property here depends on the order. */
  method Listing<T(==)>(s: set<T>) returns (out: seq<T>)
    ensures NoDup(out) && Elems(out) == s
  {
    out := [];
    var left := s;
    while left != {}
      invariant left !! Elems(out) && left + Elems(out) == s && NoDup(out)
    {
      var x :| x in left;
      ElemsAppend(out, [x]);
      out, left := out + [x], left - {x};
    }
  }

  /** The list with every occurrence of a dropped. */
  function Without<T(==)>(list: seq<T>, a: T): seq<T> {
    if list == [] then []
    else Without(list[..|list| - 1], a) + (if list[|list| - 1] == a then [] else [list[|list| - 1]])
  }

  lemma {:induction false} WithoutIs<T>(list: seq<T>, a: T)
    ensures a !in Without(list, a)
    ensures forall b | b != a :: b in Without(list, a) <==> b in list
    ensures a !in list ==> Without(list, a) == list
  {
    if list != [] {
      var front, last := list[..|list| - 1], list[|list| - 1];
      WithoutIs(front, a);
      assert list == front + [last];
    }
  }
}
