/**
 * The feedings array that every page shares (`useState('feedings')`),
 * with the list edits of `useFeedings`: prepend a new feeding, replace an
 * edited one and re-sort newest first, drop one, or replace them all.
 */
module FeedingList {
  import opened Wrappers
  import opened Seqs
  import opened Sorting
  import opened Schema

  /** A feeding as the pages show it; `id` is the server key or, for a record kept offline, its client id. */
  datatype Feeding = Feeding(id: nat, clientId: Option<Uuid>, feedingTime: Time, foodType: string, notes: string, createdAt: Time, updatedAt: Time)

  /** The comparator `dateB - dateA`: later feedings first; the sort is stable. */
  function NewestFirst(a: Feeding, b: Feeding): bool {
    a.feedingTime >= b.feedingTime
  }

  function HasId(id: nat): Feeding -> bool {
    (x: Feeding) => x.id == id
  }

  function LacksId(id: nat): Feeding -> bool {
    (x: Feeding) => x.id != id
  }

  /** The list after an edit of `f`: unchanged when no element has its id, otherwise the first such element replaced and the list re-sorted. */
  function Replaced(list: seq<Feeding>, f: Feeding): seq<Feeding> {
    var i := FirstIndex(list, HasId(f.id));
    if i < 0 then list else SortBy(list[i := f], NewestFirst)
  }

  /** The list after removing `id`: `filter(f => f.id !== id)`. */
  function Without(list: seq<Feeding>, id: nat): seq<Feeding> {
    Filter(list, LacksId(id))
  }

  lemma NewestFirstTotal()
    ensures TotalPreorder(NewestFirst)
  {
  }

  /** An edit of a feeding that is not in the list changes nothing. */
  lemma ReplacedAbsent(list: seq<Feeding>, f: Feeding)
    requires forall x :: x in list ==> x.id != f.id
    ensures Replaced(list, f) == list
  {
    forall k | 0 <= k < |list|
      ensures !HasId(f.id)(list[k])
    {
      assert list[k] in list;
    }
  }

  /**
   * An edit of a feeding that is in the list swaps exactly the first
   * element with that id for `f`, keeps every other element, and leaves
   * the list newest first.
   */
  lemma ReplacedPresent(list: seq<Feeding>, f: Feeding)
    requires exists x :: x in list && x.id == f.id
    ensures var i := FirstIndex(list, HasId(f.id));
      var r := Replaced(list, f);
      && 0 <= i < |list| && list[i].id == f.id
      && (forall k :: 0 <= k < i ==> list[k].id != f.id)
      && multiset(r) == multiset(list) - multiset{list[i]} + multiset{f}
      && |r| == |list|
      && f in r
      && (forall a, b :: 0 <= a < b < |r| ==> r[a].feedingTime >= r[b].feedingTime)
  {
    var x :| x in list && x.id == f.id;
    var k :| 0 <= k < |list| && list[k] == x;
    assert HasId(f.id)(list[k]);
    var i := FirstIndex(list, HasId(f.id));
    var updated := list[i := f];
    UpdateMultiset(list, i, f);
    assert f in multiset(updated) by {
      assert updated[i] == f;
    }
    NewestFirstTotal();
    SortSorted(updated, NewestFirst);
    SortMultiset(updated, NewestFirst);
  }

  /** Assigning at an index swaps one occurrence. */
  lemma UpdateMultiset<T>(s: seq<T>, i: nat, v: T)
    requires i < |s|
    ensures multiset(s[i := v]) == multiset(s) - multiset{s[i]} + multiset{v}
  {
    assert s == s[..i] + [s[i]] + s[i + 1..];
    assert s[i := v] == s[..i] + [v] + s[i + 1..];
  }

  /** After a removal no element has that id, every other element stays, and the survivors keep their order: removal distributes over concatenation. */
  lemma WithoutFacts(list: seq<Feeding>, id: nat, front: seq<Feeding>, back: seq<Feeding>)
    ensures forall x :: x in Without(list, id) <==> x in list && x.id != id
    ensures forall x :: multiset(Without(list, id))[x] == if x.id != id then multiset(list)[x] else 0
    ensures list == front + back ==> Without(list, id) == Without(front, id) + Without(back, id)
  {
    FilterMultiset(list, LacksId(id));
    FilterAppend(front, back, LacksId(id));
  }

  class FeedingList {
    var feedings: seq<Feeding>

    constructor ()
      ensures feedings == []
    {
      feedings := [];
    }

    /** `addFeeding`: `unshift`, newest first. */
    method Add(f: Feeding)
      modifies this
      ensures feedings == [f] + old(feedings)
    {
      feedings := [f] + feedings;
    }

    /** `updateFeeding`: `findIndex` by id, assignment at that index, then a stable sort newest first. */
    method Update(f: Feeding)
      modifies this
      ensures feedings == Replaced(old(feedings), f)
    {
      var index := FindIndex(feedings, HasId(f.id));
      if index > -1 {
        feedings := feedings[index := f];
        feedings := SortBy(feedings, NewestFirst);
      }
    }

    /** `removeFeeding`. */
    method Remove(id: nat)
      modifies this
      ensures feedings == Without(old(feedings), id)
    {
      feedings := Without(feedings, id);
    }

    /** `setFeedings`: the array replaced wholesale. */
    method Set(newFeedings: seq<Feeding>)
      modifies this
      ensures feedings == newFeedings
    {
      feedings := newFeedings;
    }
  }
}
