/** The pure list computations every entity store performs on a success
    response: the spread-append of a create, the id-matching `map` of an
    update, the id-rejecting `filter` of a delete and the `find` of a
    local lookup.  Every entity is seen through its id projection `idOf`. */
module EntityList {
  import opened Common

  /** Some entry of `items` carries identifier `id`. */
  ghost predicate HasId<T>(items: seq<T>, idOf: T -> int, id: int)
  {
    exists i :: 0 <= i < |items| && idOf(items[i]) == id
  }

  /** No two entries share an identifier. */
  ghost predicate UniqueIds<T>(items: seq<T>, idOf: T -> int)
  {
    forall i, j :: 0 <= i < j < |items| ==> idOf(items[i]) != idOf(items[j])
  }

  /** `a` is `b` with some entries dropped and the rest kept in order. */
  ghost predicate IsSubsequence<T>(a: seq<T>, b: seq<T>)
    decreases |b|
  {
    if a == [] then true
    else if b == [] then false
    else if a[0] == b[0] then IsSubsequence(a[1..], b[1..])
    else IsSubsequence(a, b[1..])
  }

  /** `items.map(e => idOf(e) === idOf(x) ? x : e)`: every entry with the
      payload's identifier is replaced by the payload. */
  function ReplaceById<T>(items: seq<T>, idOf: T -> int, x: T): (r: seq<T>)
    ensures |r| == |items|
    ensures forall i :: 0 <= i < |items| && idOf(items[i]) != idOf(x) ==> r[i] == items[i]
    ensures forall i :: 0 <= i < |items| && idOf(items[i]) == idOf(x) ==> r[i] == x
  {
    if items == [] then []
    else [if idOf(items[0]) == idOf(x) then x else items[0]] + ReplaceById(items[1..], idOf, x)
  }

  /** The number of entries carrying identifier `id`. */
  function CountId<T>(items: seq<T>, idOf: T -> int, id: int): nat
  {
    if items == [] then 0
    else (if idOf(items[0]) == id then 1 else 0) + CountId(items[1..], idOf, id)
  }

  /** `items.filter(e => idOf(e) !== id)`: exactly the entries carrying
      the identifier are dropped, so every other entry survives as often
      as it occurs (with `RemoveIsSubsequence`, this fixes the result). */
  function RemoveById<T>(items: seq<T>, idOf: T -> int, id: int): (r: seq<T>)
    ensures |r| == |items| - CountId(items, idOf, id)
    ensures forall k :: 0 <= k < |r| ==> idOf(r[k]) != id
  {
    if items == [] then []
    else if idOf(items[0]) == id then RemoveById(items[1..], idOf, id)
    else [items[0]] + RemoveById(items[1..], idOf, id)
  }

  /** The position of the first entry with identifier `id`, or `|items|`
      when there is none (the scan that `find` performs). */
  function FirstIndex<T>(items: seq<T>, idOf: T -> int, id: int): (k: nat)
    ensures k <= |items|
    ensures k < |items| ==> idOf(items[k]) == id
    ensures forall j :: 0 <= j < k ==> idOf(items[j]) != id
  {
    if items == [] then 0
    else if idOf(items[0]) == id then 0
    else 1 + FirstIndex(items[1..], idOf, id)
  }

  /** The delete keeps exactly the entries with another identifier:
      every survivor comes from the list, and every entry with another
      identifier survives. */
  lemma {:induction false} RemoveKeepsOthers<T>(items: seq<T>, idOf: T -> int, id: int)
    ensures forall k :: 0 <= k < |RemoveById(items, idOf, id)| ==> RemoveById(items, idOf, id)[k] in items
    ensures forall k :: 0 <= k < |items| && idOf(items[k]) != id ==> items[k] in RemoveById(items, idOf, id)
  {
    if items != [] {
      RemoveKeepsOthers(items[1..], idOf, id);
      var r, rest := RemoveById(items, idOf, id), RemoveById(items[1..], idOf, id);
      forall k | 0 <= k < |r| ensures r[k] in items {
        if idOf(items[0]) != id && k == 0 {
        } else {
          var j := if idOf(items[0]) != id then k - 1 else k;
          assert r[k] == rest[j];
          assert rest[j] in items[1..];
        }
      }
      forall k | 0 <= k < |items| && idOf(items[k]) != id ensures items[k] in r {
        if k > 0 {
          assert items[k] == items[1..][k - 1];
        }
      }
    }
  }

  /** The delete keeps the survivors in their original order. */
  lemma {:induction false} RemoveIsSubsequence<T>(items: seq<T>, idOf: T -> int, id: int)
    ensures IsSubsequence(RemoveById(items, idOf, id), items)
  {
    if items != [] {
      RemoveIsSubsequence(items[1..], idOf, id);
      var rest := RemoveById(items[1..], idOf, id);
      if idOf(items[0]) == id && rest != [] {
        assert idOf(rest[0]) != id;
      }
    }
  }

  /** `items.find(e => idOf(e) === id)`: the first entry with that
      identifier, or `None` (the source's `undefined`). */
  function FindById<T>(items: seq<T>, idOf: T -> int, id: int): (r: Option<T>)
    ensures r.None? <==> !HasId(items, idOf, id)
    ensures r.Some? ==> exists k :: 0 <= k < |items| && items[k] == r.value && idOf(items[k]) == id
                                     && !HasId(items[..k], idOf, id)
  {
    var k := FirstIndex(items, idOf, id);
    if k < |items| then Some(items[k]) else None
  }

  /** An update whose identifier is absent leaves the list as it was. */
  lemma {:induction false} ReplaceAbsent<T>(items: seq<T>, idOf: T -> int, x: T)
    requires !HasId(items, idOf, idOf(x))
    ensures ReplaceById(items, idOf, x) == items
  {
    if items != [] {
      assert !HasId(items[1..], idOf, idOf(x)) by {
        forall i | 0 <= i < |items[1..]| ensures idOf(items[1..][i]) != idOf(x) {
          assert items[1..][i] == items[i + 1];
        }
      }
      ReplaceAbsent(items[1..], idOf, x);
    }
  }

  /** Applying the same update twice is the same as applying it once. */
  lemma {:induction false} ReplaceIdempotent<T>(items: seq<T>, idOf: T -> int, x: T)
    ensures ReplaceById(ReplaceById(items, idOf, x), idOf, x) == ReplaceById(items, idOf, x)
  {
    if items != [] {
      ReplaceIdempotent(items[1..], idOf, x);
    }
  }

  /** An update keeps every entry's identifier at its position, so a
      list with unique identifiers stays so. */
  lemma ReplacePreservesUnique<T>(items: seq<T>, idOf: T -> int, x: T)
    requires UniqueIds(items, idOf)
    ensures UniqueIds(ReplaceById(items, idOf, x), idOf)
  {
    var r := ReplaceById(items, idOf, x);
    forall i, j | 0 <= i < j < |r| ensures idOf(r[i]) != idOf(r[j]) {
      assert idOf(r[i]) == idOf(items[i]) && idOf(r[j]) == idOf(items[j]);
    }
  }

  /** After an update of a present identifier, a lookup of that
      identifier finds the payload. */
  lemma FindAfterReplace<T>(items: seq<T>, idOf: T -> int, x: T)
    requires HasId(items, idOf, idOf(x))
    ensures FindById(ReplaceById(items, idOf, x), idOf, idOf(x)) == Some(x)
  {
    var r := ReplaceById(items, idOf, x);
    var i :| 0 <= i < |items| && idOf(items[i]) == idOf(x);
    assert idOf(r[i]) == idOf(x);
    var f := FindById(r, idOf, idOf(x));
    var k :| 0 <= k < |r| && r[k] == f.value && idOf(r[k]) == idOf(x) && !HasId(r[..k], idOf, idOf(x));
  }

  /** A delete of an absent identifier leaves the list as it was. */
  lemma {:induction false} RemoveAbsent<T>(items: seq<T>, idOf: T -> int, id: int)
    requires !HasId(items, idOf, id)
    ensures RemoveById(items, idOf, id) == items
  {
    if items != [] {
      assert !HasId(items[1..], idOf, id) by {
        forall i | 0 <= i < |items[1..]| ensures idOf(items[1..][i]) != id {
          assert items[1..][i] == items[i + 1];
        }
      }
      RemoveAbsent(items[1..], idOf, id);
    }
  }

  /** Deleting the same identifier twice is the same as deleting it once. */
  lemma RemoveIdempotent<T>(items: seq<T>, idOf: T -> int, id: int)
    ensures RemoveById(RemoveById(items, idOf, id), idOf, id) == RemoveById(items, idOf, id)
  {
    RemoveAbsent(RemoveById(items, idOf, id), idOf, id);
  }

  /** The filter distributes over concatenation. */
  lemma {:induction false} RemoveConcat<T>(a: seq<T>, b: seq<T>, idOf: T -> int, id: int)
    ensures RemoveById(a + b, idOf, id) == RemoveById(a, idOf, id) + RemoveById(b, idOf, id)
  {
    if a == [] {
      assert a + b == b;
    } else {
      var ab := a + b;
      assert ab != [] && ab[0] == a[0] && ab[1..] == a[1..] + b;
      RemoveConcat(a[1..], b, idOf, id);
      var ra, rb := RemoveById(a[1..], idOf, id), RemoveById(b, idOf, id);
      if idOf(a[0]) != id {
        assert RemoveById(ab, idOf, id) == [a[0]] + (ra + rb);
        assert RemoveById(a, idOf, id) == [a[0]] + ra;
        assert [a[0]] + (ra + rb) == ([a[0]] + ra) + rb;
      }
    }
  }

  /** Deleting the identifier of a freshly appended entry that was not
      in the list before restores the list: delete undoes create. */
  lemma DeleteUndoesCreate<T>(items: seq<T>, idOf: T -> int, x: T)
    requires !HasId(items, idOf, idOf(x))
    ensures RemoveById(items + [x], idOf, idOf(x)) == items
  {
    RemoveConcat(items, [x], idOf, idOf(x));
    RemoveAbsent(items, idOf, idOf(x));
  }

  /** A delete keeps a list with unique identifiers unique. */
  lemma {:induction false} RemovePreservesUnique<T>(items: seq<T>, idOf: T -> int, id: int)
    requires UniqueIds(items, idOf)
    ensures UniqueIds(RemoveById(items, idOf, id), idOf)
  {
    if items != [] {
      assert UniqueIds(items[1..], idOf) by {
        forall i, j | 0 <= i < j < |items[1..]| ensures idOf(items[1..][i]) != idOf(items[1..][j]) {
          assert items[1..][i] == items[i + 1] && items[1..][j] == items[j + 1];
        }
      }
      RemovePreservesUnique(items[1..], idOf, id);
      var rest := RemoveById(items[1..], idOf, id);
      RemoveKeepsOthers(items[1..], idOf, id);
      if idOf(items[0]) != id {
        forall k | 0 <= k < |rest| ensures idOf(rest[k]) != idOf(items[0]) {
          assert rest[k] in items[1..];
          var m :| 0 <= m < |items[1..]| && items[1..][m] == rest[k];
          assert items[m + 1] == rest[k];
        }
        var r := [items[0]] + rest;
        forall i, j | 0 <= i < j < |r| ensures idOf(r[i]) != idOf(r[j]) {
          if i > 0 {
            assert r[i] == rest[i - 1] && r[j] == rest[j - 1];
          } else {
            assert r[j] == rest[j - 1];
          }
        }
      }
    }
  }
}
