/**
 * Lists of records keyed by a string id, as kept in local storage:
 * the upsert-by-id (`withId`) and the delete-by-id filter.
 * The id of a record is read through `idOf`, the model's rendering of the
 * `T extends { id: string }` constraint.
 */
module KeyedList {

  /** No entry of `list` has the id `id`. */
  ghost predicate Absent<T>(list: seq<T>, id: string, idOf: T -> string) {
    forall j :: 0 <= j < |list| ==> idOf(list[j]) != id
  }

  /** `k` is the first position of `list` whose entry has the id `id`. */
  ghost predicate IsFirstMatch<T>(list: seq<T>, id: string, idOf: T -> string, k: int) {
    && 0 <= k < |list|
    && idOf(list[k]) == id
    && forall j :: 0 <= j < k ==> idOf(list[j]) != id
  }

  /** Every id occurs at most once in `list`. */
  ghost predicate UniqueIds<T>(list: seq<T>, idOf: T -> string) {
    forall i, j :: 0 <= i < j < |list| ==> idOf(list[i]) != idOf(list[j])
  }

  /** The set of ids occurring in `list`. */
  ghost function Ids<T>(list: seq<T>, idOf: T -> string): set<string> {
    set j | 0 <= j < |list| :: idOf(list[j])
  }

  /** `list.findIndex(entry => entry.id === id)`: the first matching index, or -1. */
  function FindIndex<T>(list: seq<T>, id: string, idOf: T -> string): (r: int)
    ensures -1 <= r < |list|
    ensures r == -1 <==> Absent(list, id, idOf)
    ensures r != -1 ==> IsFirstMatch(list, id, idOf, r)
  {
    if |list| == 0 then -1
    else if idOf(list[0]) == id then 0
    else
      var k := FindIndex(list[1..], id, idOf);
      assert forall j :: 1 <= j < |list| ==> list[j] == list[1..][j - 1];
      if k == -1 then -1 else k + 1
  }

  /**
   * `withId(list, item)`: a copy of `list` in which the first entry with
   * `item`'s id is replaced by `item`; when no entry has that id, `item` is
   * appended. The input is a value and is never changed.
   */
  function WithId<T>(list: seq<T>, item: T, idOf: T -> string): (r: seq<T>)
    ensures Absent(list, idOf(item), idOf) ==> r == list + [item]
    ensures forall k {:trigger IsFirstMatch(list, idOf(item), idOf, k)} ::
      IsFirstMatch(list, idOf(item), idOf, k) ==>
        && |r| == |list|
        && r[k] == item
        && forall j :: 0 <= j < |list| && j != k ==> r[j] == list[j]
  {
    var k := FindIndex(list, idOf(item), idOf);
    if k == -1 then list + [item] else list[k := item]
  }

  /** `list.filter(entry => entry.id !== id)`. */
  function Without<T>(list: seq<T>, id: string, idOf: T -> string): (r: seq<T>)
    ensures Absent(r, id, idOf)
    ensures |r| <= |list|
    ensures forall j :: 0 <= j < |r| ==> r[j] in list
    ensures forall j :: 0 <= j < |list| && idOf(list[j]) != id ==> list[j] in r
  {
    if |list| == 0 then []
    else if idOf(list[0]) == id then Without(list[1..], id, idOf)
    else [list[0]] + Without(list[1..], id, idOf)
  }

  /** A list that is not `Absent` has a first match. */
  lemma FirstMatchExists<T>(list: seq<T>, id: string, idOf: T -> string) returns (k: int)
    requires !Absent(list, id, idOf)
    ensures IsFirstMatch(list, id, idOf, k)
  {
    k := FindIndex(list, id, idOf);
  }

  /** Upserting an item with a new id grows the list by exactly one. */
  lemma WithIdLengthNew<T>(list: seq<T>, item: T, idOf: T -> string)
    requires Absent(list, idOf(item), idOf)
    ensures |WithId(list, item, idOf)| == |list| + 1
    ensures WithId(list, item, idOf)[|list|] == item
  {
  }

  /** Upserting an item whose id is present keeps the length. */
  lemma WithIdLengthExisting<T>(list: seq<T>, item: T, idOf: T -> string)
    requires !Absent(list, idOf(item), idOf)
    ensures |WithId(list, item, idOf)| == |list|
  {
  }

  /** After an upsert the list holds the item. */
  lemma WithIdContains<T>(list: seq<T>, item: T, idOf: T -> string)
    ensures item in WithId(list, item, idOf)
  {
  }

  /** Upserting the same item twice gives the same list as upserting it once. */
  lemma WithIdIdempotent<T>(list: seq<T>, item: T, idOf: T -> string)
    ensures WithId(WithId(list, item, idOf), item, idOf) == WithId(list, item, idOf)
  {
    var id := idOf(item);
    var once := WithId(list, item, idOf);
    if Absent(list, id, idOf) {
      assert IsFirstMatch(once, id, idOf, |list|);
      var twice := WithId(once, item, idOf);
      assert |twice| == |once|;
      assert forall j :: 0 <= j < |once| ==> twice[j] == once[j];
    } else {
      var k := FirstMatchExists(list, id, idOf);
      assert IsFirstMatch(once, id, idOf, k);
      var twice := WithId(once, item, idOf);
      assert |twice| == |once|;
      assert forall j :: 0 <= j < |once| ==> twice[j] == once[j];
    }
  }

  /** The ids after an upsert are the ids before plus the item's id. */
  lemma WithIdIds<T>(list: seq<T>, item: T, idOf: T -> string)
    ensures Ids(WithId(list, item, idOf), idOf) == Ids(list, idOf) + {idOf(item)}
  {
    var id := idOf(item);
    var r := WithId(list, item, idOf);
    if Absent(list, id, idOf) {
      assert r[|list|] == item;
      assert forall j :: 0 <= j < |list| ==> r[j] == list[j];
    } else {
      var k := FirstMatchExists(list, id, idOf);
      assert idOf(r[k]) == idOf(list[k]);
      assert forall j :: 0 <= j < |list| ==> idOf(r[j]) == idOf(list[j]);
    }
  }

  /** An upsert keeps the ids of a list unique. */
  lemma WithIdKeepsUnique<T>(list: seq<T>, item: T, idOf: T -> string)
    requires UniqueIds(list, idOf)
    ensures UniqueIds(WithId(list, item, idOf), idOf)
  {
  }

  /** The filter distributes over concatenation, so it keeps the survivors in order. */
  lemma {:induction false} WithoutConcat<T>(a: seq<T>, b: seq<T>, id: string, idOf: T -> string)
    ensures Without(a + b, id, idOf) == Without(a, id, idOf) + Without(b, id, idOf)
  {
    if |a| == 0 {
      assert a + b == b;
    } else {
      assert (a + b)[0] == a[0];
      assert (a + b)[1..] == a[1..] + b;
      WithoutConcat(a[1..], b, id, idOf);
    }
  }

  /** Deleting removes exactly the entries with the id: the list is unchanged iff none has it. */
  lemma {:induction false} WithoutUnchanged<T>(list: seq<T>, id: string, idOf: T -> string)
    ensures Without(list, id, idOf) == list <==> Absent(list, id, idOf)
  {
    if |list| > 0 {
      WithoutUnchanged(list[1..], id, idOf);
      if Absent(list, id, idOf) {
        assert Absent(list[1..], id, idOf) by {
          forall j | 0 <= j < |list| - 1 ensures idOf(list[1..][j]) != id {
            assert list[1..][j] == list[j + 1];
          }
        }
        assert list == [list[0]] + list[1..];
      }
    }
  }

  /** Replacing an entry that has the id by another with the id does not change the filter. */
  lemma {:induction false} WithoutUpdateMatching<T>(list: seq<T>, k: int, x: T, idOf: T -> string)
    requires 0 <= k < |list| && idOf(list[k]) == idOf(x)
    ensures Without(list[k := x], idOf(x), idOf) == Without(list, idOf(x), idOf)
  {
    if k > 0 {
      WithoutUpdateMatching(list[1..], k - 1, x, idOf);
      assert list[k := x][1..] == list[1..][k - 1 := x];
      assert list[k := x][0] == list[0];
    } else {
      assert list[k := x][1..] == list[1..];
    }
  }

  /** Deleting an id after upserting an item with it is the same as deleting it outright. */
  lemma WithoutAfterWithId<T>(list: seq<T>, item: T, idOf: T -> string)
    ensures Without(WithId(list, item, idOf), idOf(item), idOf) == Without(list, idOf(item), idOf)
  {
    var id := idOf(item);
    if Absent(list, id, idOf) {
      WithoutConcat(list, [item], id, idOf);
      assert [item][1..] == [];
    } else {
      var k := FirstMatchExists(list, id, idOf);
      assert WithId(list, item, idOf) == list[k := item];
      WithoutUpdateMatching(list, k, item, idOf);
    }
  }

  /** Deleting keeps the ids of a list unique. */
  lemma {:induction false} WithoutKeepsUnique<T>(list: seq<T>, id: string, idOf: T -> string)
    requires UniqueIds(list, idOf)
    ensures UniqueIds(Without(list, id, idOf), idOf)
  {
    if |list| > 0 {
      var tail := list[1..];
      assert UniqueIds(tail, idOf) by {
        forall i, j | 0 <= i < j < |tail| ensures idOf(tail[i]) != idOf(tail[j]) {
          assert tail[i] == list[i + 1] && tail[j] == list[j + 1];
        }
      }
      WithoutKeepsUnique(tail, id, idOf);
      if idOf(list[0]) != id {
        var rest := Without(tail, id, idOf);
        var r := [list[0]] + rest;
        forall i, j | 0 <= i < j < |r| ensures idOf(r[i]) != idOf(r[j]) {
          if i == 0 {
            assert r[j] == rest[j - 1];
            assert rest[j - 1] in tail;
            var m :| 0 <= m < |tail| && tail[m] == rest[j - 1];
            assert tail[m] == list[m + 1];
          } else {
            assert r[i] == rest[i - 1] && r[j] == rest[j - 1];
          }
        }
      }
    }
  }
}
