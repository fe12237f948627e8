/** The local-list bookkeeping the entity pages share. A server record is its DTO plus an
    optional integer id (the `OrderWithId`/`MenuWithId` pattern of the pages); the pages
    look records up by id, replace every entry carrying an id, and append created ones. */
module Reconcile {
  import opened Common

  /** A server-owned record: `id` is absent until the server has assigned one. */
  datatype WithId<T> = WithId(id: Option<int>, dto: T)

  /** `if (record.id)`: the id is present and not 0 (0 is falsy in JavaScript). */
  predicate HasTruthyId<T>(e: WithId<T>) {
    e.id.Some? && e.id.value != 0
  }

  /** `list.find(e => e.id === id)`, as the position of the first entry carrying `id`. */
  function FindIndex<T>(l: seq<WithId<T>>, id: int): (r: Option<nat>)
    ensures r.None? <==> forall i :: 0 <= i < |l| ==> l[i].id != Some(id)
    ensures r.Some? ==> r.value < |l| && l[r.value].id == Some(id)
    ensures r.Some? ==> forall j :: 0 <= j < r.value ==> l[j].id != Some(id)
  {
    if l == [] then None
    else if l[0].id == Some(id) then Some(0)
    else
      var rest := FindIndex(l[1..], id);
      if rest.Some? then Some(rest.value + 1) else None
  }

  /** `list.map(e => e.id === id ? x : e)`: every entry whose id equals `id` (JavaScript
      `===`, so two absent ids are equal) becomes `x`; the others stay where they were. */
  function ReplaceById<T>(l: seq<WithId<T>>, id: Option<int>, x: WithId<T>): (r: seq<WithId<T>>)
    ensures |r| == |l|
    ensures forall i :: 0 <= i < |l| && l[i].id == id ==> r[i] == x
    ensures forall i :: 0 <= i < |l| && l[i].id != id ==> r[i] == l[i]
  {
    if l == [] then []
    else [if l[0].id == id then x else l[0]] + ReplaceById(l[1..], id, x)
  }

  /** How many entries carry `id`. */
  function CountId<T>(l: seq<WithId<T>>, id: Option<int>): nat
  {
    if l == [] then 0
    else (if l[0].id == id then 1 else 0) + CountId(l[1..], id)
  }

  /** No two saved entries share an id (unsaved entries, with no id, may repeat). */
  predicate UniqueIds<T>(l: seq<WithId<T>>) {
    forall i, j :: 0 <= i < j < |l| && l[i].id.Some? ==> l[i].id != l[j].id
  }

  lemma {:induction false} CountZeroIffAbsent<T>(l: seq<WithId<T>>, id: Option<int>)
    ensures CountId(l, id) == 0 <==> forall i :: 0 <= i < |l| ==> l[i].id != id
  {
    if l != [] {
      CountZeroIffAbsent(l[1..], id);
      assert forall i :: 1 <= i < |l| ==> l[i] == l[1..][i - 1];
    }
  }

  /** In a list with unique ids, an id that occurs occurs exactly once. */
  lemma {:induction false} UniqueCountAtMostOne<T>(l: seq<WithId<T>>, id: int)
    requires UniqueIds(l)
    ensures CountId(l, Some(id)) <= 1
  {
    if l != [] {
      assert UniqueIds(l[1..]) by {
        forall i, j | 0 <= i < j < |l[1..]| && l[1..][i].id.Some?
          ensures l[1..][i].id != l[1..][j].id
        {
          assert l[1..][i] == l[i + 1] && l[1..][j] == l[j + 1];
        }
      }
      UniqueCountAtMostOne(l[1..], id);
      if l[0].id == Some(id) {
        CountZeroIffAbsent(l[1..], Some(id));
        forall i | 0 <= i < |l[1..]| ensures l[1..][i].id != Some(id) {
          assert l[1..][i] == l[i + 1];
        }
      }
    }
  }

  /** Replacing by id keeps the number of entries with that id, and when the new record
      carries the same id the list keeps one entry per saved id. */
  lemma {:induction false} ReplaceKeepsCount<T>(l: seq<WithId<T>>, id: Option<int>, x: WithId<T>)
    requires x.id == id
    ensures CountId(ReplaceById(l, id, x), id) == CountId(l, id)
  {
    if l != [] {
      ReplaceKeepsCount(l[1..], id, x);
      assert ReplaceById(l, id, x)[1..] == ReplaceById(l[1..], id, x);
    }
  }

  lemma ReplacePreservesUnique<T>(l: seq<WithId<T>>, id: int, x: WithId<T>)
    requires UniqueIds(l)
    requires x.id == Some(id)
    ensures UniqueIds(ReplaceById(l, Some(id), x))
  {
  }

  /** Saving an edit to a list with one entry per id keeps one entry per id, and the saved
      id still names exactly as many entries as before: at most one. */
  lemma SaveKeepsOneEntryPerId<T>(l: seq<WithId<T>>, id: int, x: WithId<T>)
    requires UniqueIds(l)
    requires x.id == Some(id)
    ensures UniqueIds(ReplaceById(l, Some(id), x))
    ensures CountId(ReplaceById(l, Some(id), x), Some(id)) == CountId(l, Some(id)) <= 1
  {
    ReplacePreservesUnique(l, id, x);
    ReplaceKeepsCount(l, Some(id), x);
    UniqueCountAtMostOne(l, id);
  }

  /** Replacing with a record that carries no id leaves no entry with the old id: the id the
      entry had is lost. */
  lemma {:induction false} ReplaceWithoutIdDropsId<T>(l: seq<WithId<T>>, id: int, d: T)
    ensures CountId(ReplaceById(l, Some(id), WithId(None, d)), Some(id)) == 0
  {
    var r := ReplaceById(l, Some(id), WithId(None, d));
    CountZeroIffAbsent(r, Some(id));
  }

  /** Appending a record whose id is new (or absent) keeps ids unique and adds one entry. */
  lemma AppendPreservesUnique<T>(l: seq<WithId<T>>, x: WithId<T>)
    requires UniqueIds(l)
    requires x.id.Some? ==> CountId(l, x.id) == 0
    ensures UniqueIds(l + [x])
    ensures |l + [x]| == |l| + 1
  {
    if x.id.Some? {
      CountZeroIffAbsent(l, x.id);
    }
  }
}
