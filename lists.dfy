/**
 * `list.filter(x => x.id !== id)`, the updater both the history and the template list use to
 * delete by identifier, and the distinct-identifier invariant the data model asks for.
 * The element type is left open; `idOf` reads an element's `id` field.
 */
module Lists {

  /** The elements of `s` whose identifier differs from `id`, in their original order. */
  function WithoutId<T(!new)>(s: seq<T>, idOf: T -> string, id: string): (r: seq<T>)
    ensures |r| <= |s|
    ensures forall x :: x in r <==> x in s && idOf(x) != id
  {
    if s == [] then []
    else if idOf(s[0]) != id then [s[0]] + WithoutId(s[1..], idOf, id)
    else WithoutId(s[1..], idOf, id)
  }

  /** No two elements share an identifier. */
  ghost predicate DistinctIds<T>(s: seq<T>, idOf: T -> string) {
    forall i, j :: 0 <= i < j < |s| ==> idOf(s[i]) != idOf(s[j])
  }

  /** `id` is the identifier of some element of `s`. */
  ghost predicate HasId<T(!new)>(s: seq<T>, idOf: T -> string, id: string) {
    exists x :: x in s && idOf(x) == id
  }

  /** Filtering distributes over concatenation: the kept elements of a front part stay in
      front of the kept elements of a back part, so the relative order is preserved. */
  lemma {:induction false} WithoutIdAppend<T(!new)>(a: seq<T>, b: seq<T>, idOf: T -> string, id: string)
    ensures WithoutId(a + b, idOf, id) == WithoutId(a, idOf, id) + WithoutId(b, idOf, id)
  {
    if a != [] {
      assert (a + b)[1..] == a[1..] + b;
      WithoutIdAppend(a[1..], b, idOf, id);
    } else {
      assert a + b == b;
    }
  }

  /** Deleting an identifier no element carries changes nothing. */
  lemma {:induction false} WithoutAbsentId<T(!new)>(s: seq<T>, idOf: T -> string, id: string)
    requires !HasId(s, idOf, id)
    ensures WithoutId(s, idOf, id) == s
  {
    if s != [] {
      assert s[0] in s;
      assert !HasId(s[1..], idOf, id) by {
        forall x | x in s[1..] ensures idOf(x) != id {
          assert x in s;
        }
      }
      WithoutAbsentId(s[1..], idOf, id);
      assert [s[0]] + s[1..] == s;
    }
  }

  /** Deleting is idempotent. */
  lemma WithoutIdIdempotent<T(!new)>(s: seq<T>, idOf: T -> string, id: string)
    ensures WithoutId(WithoutId(s, idOf, id), idOf, id) == WithoutId(s, idOf, id)
  {
  }

  /** Deleting keeps identifiers distinct. */
  lemma {:induction false} WithoutIdKeepsDistinct<T(!new)>(s: seq<T>, idOf: T -> string, id: string)
    requires DistinctIds(s, idOf)
    ensures DistinctIds(WithoutId(s, idOf, id), idOf)
  {
    if s != [] {
      var rest := WithoutId(s[1..], idOf, id);
      assert DistinctIds(s[1..], idOf) by {
        forall i, j | 0 <= i < j < |s| - 1 ensures idOf(s[1..][i]) != idOf(s[1..][j]) {
          assert s[1..][i] == s[i + 1] && s[1..][j] == s[j + 1];
        }
      }
      WithoutIdKeepsDistinct(s[1..], idOf, id);
      if idOf(s[0]) != id {
        forall k | 0 <= k < |rest| ensures idOf(rest[k]) != idOf(s[0]) {
          assert rest[k] in s[1..];
          var m :| 0 <= m < |s[1..]| && s[1..][m] == rest[k];
          assert s[m + 1] == rest[k];
        }
        var r := [s[0]] + rest;
        forall i, j | 0 <= i < j < |r| ensures idOf(r[i]) != idOf(r[j]) {
          if i == 0 {
            assert r[j] == rest[j - 1];
          } else {
            assert r[i] == rest[i - 1] && r[j] == rest[j - 1];
          }
        }
      }
    }
  }

  /** With distinct identifiers, deleting removes at most one element: exactly one when the
      identifier is present, none otherwise. */
  lemma {:induction false} WithoutIdRemovesAtMostOne<T(!new)>(s: seq<T>, idOf: T -> string, id: string)
    requires DistinctIds(s, idOf)
    ensures |WithoutId(s, idOf, id)| == if HasId(s, idOf, id) then |s| - 1 else |s|
  {
    if s == [] {
      assert !HasId(s, idOf, id);
    } else {
      assert DistinctIds(s[1..], idOf) by {
        forall i, j | 0 <= i < j < |s| - 1 ensures idOf(s[1..][i]) != idOf(s[1..][j]) {
          assert s[1..][i] == s[i + 1] && s[1..][j] == s[j + 1];
        }
      }
      WithoutIdRemovesAtMostOne(s[1..], idOf, id);
      assert s[0] in s;
      if idOf(s[0]) == id {
        assert !HasId(s[1..], idOf, id) by {
          forall x | x in s[1..] ensures idOf(x) != id {
            var m :| 0 <= m < |s[1..]| && s[1..][m] == x;
            assert s[m + 1] == x;
          }
        }
      } else {
        assert HasId(s, idOf, id) <==> HasId(s[1..], idOf, id) by {
          forall x | x in s ensures x == s[0] || x in s[1..] {
            assert s == [s[0]] + s[1..];
          }
          forall x | x in s[1..] ensures x in s { }
        }
      }
    }
  }

  /** Putting an element with a new identifier in front keeps identifiers distinct. */
  lemma PrependKeepsDistinct<T(!new)>(s: seq<T>, idOf: T -> string, x: T)
    requires DistinctIds(s, idOf) && !HasId(s, idOf, idOf(x))
    ensures DistinctIds([x] + s, idOf)
  {
  }

  /** Putting an element with a new identifier at the end keeps identifiers distinct. */
  lemma AppendKeepsDistinct<T(!new)>(s: seq<T>, idOf: T -> string, x: T)
    requires DistinctIds(s, idOf) && !HasId(s, idOf, idOf(x))
    ensures DistinctIds(s + [x], idOf)
  {
  }
}
