/** A JavaScript Set as the source uses it: a collection without duplicates that
    keeps its elements in insertion order (which `Array.from` then exposes). */
module OrderedSets {

  predicate NoDup<T(==,!new)>(s: seq<T>) {
    forall i, j :: 0 <= i < j < |s| ==> s[i] != s[j]
  }

  /** `set.add(x)`: a new element goes to the end, a present one stays where it is. */
  function Insert<T(==,!new)>(s: seq<T>, x: T): (r: seq<T>)
    ensures forall y :: y in r <==> y in s || y == x
    ensures s <= r
    ensures |r| == if x in s then |s| else |s| + 1
    ensures NoDup(s) ==> NoDup(r)
  {
    if x in s then s else s + [x]
  }

  /** `set.delete(x)`: every occurrence of `x` goes, everything else keeps its order. */
  function Remove<T(==,!new)>(s: seq<T>, x: T): (r: seq<T>)
    ensures forall y :: y in r <==> y in s && y != x
    ensures |r| <= |s|
    ensures x !in s ==> r == s
    ensures NoDup(s) ==> NoDup(r)
    ensures NoDup(s) && x in s ==> |r| == |s| - 1
  {
    if s == [] then []
    else if s[0] == x then Remove(s[1..], x)
    else
      var rest := Remove(s[1..], x);
      NoDupCons(s[0], rest);
      [s[0]] + rest
  }

  lemma NoDupCons<T(!new)>(a: T, s: seq<T>)
    ensures NoDup(s) && a !in s ==> NoDup([a] + s)
  {
    if NoDup(s) && a !in s {
      forall i, j | 0 <= i < j < |[a] + s| ensures ([a] + s)[i] != ([a] + s)[j] {
        if i > 0 {
          assert ([a] + s)[i] == s[i - 1];
        }
        assert ([a] + s)[j] == s[j - 1];
      }
    }
  }

  /** Without duplicates, the first element is not in the rest, and the rest
      has no duplicates either. */
  lemma NoDupTail<T(!new)>(s: seq<T>)
    requires s != [] && NoDup(s)
    ensures s[0] !in s[1..] && NoDup(s[1..])
  {
    forall k | 0 <= k < |s[1..]| ensures s[1..][k] != s[0] {
      assert s[1..][k] == s[k + 1];
    }
    forall i, j | 0 <= i < j < |s[1..]| ensures s[1..][i] != s[1..][j] {
      assert s[1..][i] == s[i + 1] && s[1..][j] == s[j + 1];
    }
  }

  lemma {:induction false} RemoveDistributes<T(!new)>(a: seq<T>, b: seq<T>, x: T)
    ensures Remove(a + b, x) == Remove(a, x) + Remove(b, x)
  {
    if a == [] {
      assert a + b == b;
    } else {
      assert (a + b)[1..] == a[1..] + b;
      RemoveDistributes(a[1..], b, x);
    }
  }

  /** Deleting a present element cuts it out at its position: the elements
      before it and after it stay, in their order. */
  lemma {:induction false} RemoveKeepsOrder<T(!new)>(s: seq<T>, x: T, k: nat)
    requires NoDup(s) && k < |s| && s[k] == x
    ensures Remove(s, x) == s[..k] + s[k + 1..]
  {
    NoDupTail(s);
    if k == 0 {
      assert x !in s[1..];
    } else {
      assert s[1..][k - 1] == x;
      RemoveKeepsOrder(s[1..], x, k - 1);
      assert s[1..][..k - 1] == s[1..k] && s[1..][k..] == s[k + 1..];
      assert [s[0]] + s[1..k] == s[..k];
      ConcatAssoc([s[0]], s[1..k], s[k + 1..]);
    }
  }

  lemma ConcatAssoc<T>(a: seq<T>, b: seq<T>, c: seq<T>)
    ensures (a + b) + c == a + (b + c)
  {
  }

  /** Adding an absent element and deleting it again gives back the same set,
      in the same order. */
  lemma {:induction false} RemoveUndoesInsert<T(!new)>(s: seq<T>, x: T)
    requires x !in s
    ensures Remove(Insert(s, x), x) == s
  {
    RemoveDistributes(s, [x], x);
    assert Remove([x], x) == [];
  }

  /** Adding an element twice is the same as adding it once. */
  lemma InsertIdempotent<T(!new)>(s: seq<T>, x: T)
    ensures Insert(Insert(s, x), x) == Insert(s, x)
  {
  }
}
