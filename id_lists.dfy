/**
 * The three list operations the stores share, over records that carry a
 * string identifier: `list.filter((x) => x.id !== id)` (delete, dismiss and
 * the toast timer), `list.find((x) => x.id === id)` (template lookup) and the
 * uniqueness of identifiers. `key` projects a record to its identifier.
 */
module IdLists {
  import opened Wrappers

  /** The records whose identifier differs from `id`, in their original order. */
  function RemoveId<T>(xs: seq<T>, key: T -> string, id: string): (r: seq<T>)
    ensures forall i :: 0 <= i < |r| ==> r[i] in xs && key(r[i]) != id
    ensures forall i :: 0 <= i < |xs| && key(xs[i]) != id ==> xs[i] in r
    ensures |r| <= |xs|
  {
    if xs == [] then []
    else if key(xs[0]) == id then RemoveId(xs[1..], key, id)
    else [xs[0]] + RemoveId(xs[1..], key, id)
  }

  /** Filtering works piece by piece: the kept records keep their relative order. */
  lemma {:induction false} RemoveIdAppend<T>(a: seq<T>, b: seq<T>, key: T -> string, id: string)
    ensures RemoveId(a + b, key, id) == RemoveId(a, key, id) + RemoveId(b, key, id)
  {
    if a == [] {
      assert a + b == b;
    } else {
      assert (a + b)[0] == a[0];
      assert (a + b)[1..] == a[1..] + b;
      RemoveIdAppend(a[1..], b, key, id);
    }
  }

  /** Removing an identifier nobody has changes nothing. */
  lemma {:induction false} RemoveIdAbsent<T>(xs: seq<T>, key: T -> string, id: string)
    requires forall i :: 0 <= i < |xs| ==> key(xs[i]) != id
    ensures RemoveId(xs, key, id) == xs
  {
    if xs != [] {
      RemoveIdAbsent(xs[1..], key, id);
    }
  }

  /** Removing twice is removing once. */
  lemma RemoveIdIdempotent<T>(xs: seq<T>, key: T -> string, id: string)
    ensures RemoveId(RemoveId(xs, key, id), key, id) == RemoveId(xs, key, id)
  {
    var r := RemoveId(xs, key, id);
    RemoveIdAbsent(r, key, id);
  }

  /** No two records share an identifier. */
  ghost predicate UniqueIds<T>(xs: seq<T>, key: T -> string)
  {
    forall i, j :: 0 <= i < |xs| && 0 <= j < |xs| && key(xs[i]) == key(xs[j]) ==> i == j
  }

  /** Dropping the first record keeps identifiers unique. */
  lemma UniqueTail<T>(xs: seq<T>, key: T -> string)
    requires |xs| > 0 && UniqueIds(xs, key)
    ensures UniqueIds(xs[1..], key)
  {
    var tail := xs[1..];
    forall i, j | 0 <= i < |tail| && 0 <= j < |tail| && key(tail[i]) == key(tail[j]) ensures i == j {
      assert tail[i] == xs[i + 1] && tail[j] == xs[j + 1];
    }
  }

  /** When the first record's identifier is unique, removing it drops just that record. */
  lemma RemoveIdUniqueHead<T>(xs: seq<T>, key: T -> string)
    requires |xs| > 0 && UniqueIds(xs, key)
    ensures RemoveId(xs, key, key(xs[0])) == xs[1..]
  {
    var tail := xs[1..];
    forall i | 0 <= i < |tail| ensures key(tail[i]) != key(xs[0]) {
      assert tail[i] == xs[i + 1];
    }
    RemoveIdAbsent(tail, key, key(xs[0]));
  }

  /** Cutting record `k` out of a list is cutting record `k - 1` out of its tail. */
  lemma CutTail<T>(xs: seq<T>, k: nat)
    requires 0 < k < |xs|
    ensures [xs[0]] + (xs[1..][..k - 1] + xs[1..][k..]) == xs[..k] + xs[k + 1..]
  {
    assert xs[1..][..k - 1] == xs[1..k] && xs[1..][k..] == xs[k + 1..];
    assert [xs[0]] + xs[1..k] == xs[..k];
  }

  /** When identifiers are unique, removing one record's identifier removes exactly that record. */
  lemma {:induction false} RemoveIdUnique<T>(xs: seq<T>, key: T -> string, k: nat)
    requires k < |xs| && UniqueIds(xs, key)
    ensures RemoveId(xs, key, key(xs[k])) == xs[..k] + xs[k + 1..]
  {
    if k == 0 {
      RemoveIdUniqueHead(xs, key);
    } else {
      var id := key(xs[k]);
      var tail := xs[1..];
      assert key(xs[0]) != id;
      assert tail[k - 1] == xs[k];
      UniqueTail(xs, key);
      RemoveIdUnique(tail, key, k - 1);
      assert RemoveId(xs, key, id) == [xs[0]] + (tail[..k - 1] + tail[k..]);
      CutTail(xs, k);
    }
  }

  /** Appending a record with a fresh identifier keeps identifiers unique. */
  lemma AppendFreshUnique<T>(xs: seq<T>, key: T -> string, x: T)
    requires UniqueIds(xs, key)
    requires forall i :: 0 <= i < |xs| ==> key(xs[i]) != key(x)
    ensures UniqueIds(xs + [x], key)
  {
  }

  /** The first record with identifier `id`, as `Array.prototype.find` returns it. */
  function FindId<T>(xs: seq<T>, key: T -> string, id: string): (r: Option<T>)
    ensures r.Some? ==> r.value in xs && key(r.value) == id
    ensures r.None? ==> forall i :: 0 <= i < |xs| ==> key(xs[i]) != id
  {
    if xs == [] then None
    else if key(xs[0]) == id then Some(xs[0])
    else FindId(xs[1..], key, id)
  }

  /** The lookup finds the first record with the identifier: the one no earlier record shares it with. */
  lemma {:induction false} FindIdFirst<T>(xs: seq<T>, key: T -> string, i: nat)
    requires i < |xs| && forall j :: 0 <= j < i ==> key(xs[j]) != key(xs[i])
    ensures FindId(xs, key, key(xs[i])) == Some(xs[i])
  {
    if i > 0 {
      var tail := xs[1..];
      assert key(xs[0]) != key(xs[i]) && tail[i - 1] == xs[i];
      forall j | 0 <= j < i - 1 ensures key(tail[j]) != key(tail[i - 1]) {
        assert tail[j] == xs[j + 1];
      }
      FindIdFirst(tail, key, i - 1);
    }
  }

  /** A record put at the front is what a lookup of its identifier finds, whatever follows it. */
  lemma FindIdPrepend<T>(x: T, xs: seq<T>, key: T -> string)
    ensures FindId([x] + xs, key, key(x)) == Some(x)
  {
  }

  /** After removing an identifier, looking it up finds nothing. */
  lemma FindIdRemoved<T>(xs: seq<T>, key: T -> string, id: string)
    ensures FindId(RemoveId(xs, key, id), key, id) == None
  {
  }
}
