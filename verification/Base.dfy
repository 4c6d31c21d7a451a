/** Small shared vocabulary: optional values, results and list helpers. */
module Base {
  datatype Option<+T> = None | Some(value: T)

  datatype Result<+T, +E> = Ok(value: T) | Err(error: E)

  function Reverse<T>(s: seq<T>): (r: seq<T>)
    ensures |r| == |s|
  {
    if s == [] then [] else Reverse(s[1..]) + [s[0]]
  }

  lemma {:induction false} ReverseConcat<T>(a: seq<T>, b: seq<T>)
    ensures Reverse(a + b) == Reverse(b) + Reverse(a)
  {
    if a == [] {
      assert a + b == b;
    } else {
      assert (a + b)[1..] == a[1..] + b;
      ReverseConcat(a[1..], b);
    }
  }

  lemma {:induction false} ReverseTwice<T>(s: seq<T>)
    ensures Reverse(Reverse(s)) == s
  {
    if s != [] {
      ReverseTwice(s[1..]);
      ReverseConcat(Reverse(s[1..]), [s[0]]);
      assert [s[0]][1..] == [];
      assert s == [s[0]] + s[1..];
    }
  }

  lemma {:induction false} ReverseKeeps<T>(s: seq<T>)
    ensures forall x :: x in Reverse(s) <==> x in s
    ensures s != [] ==> Reverse(s)[0] == s[|s| - 1]
  {
    if s != [] {
      ReverseKeeps(s[1..]);
      assert s == [s[0]] + s[1..];
    }
  }

  /** The sequence without the element at one position. */
  function Without<T>(s: seq<T>, i: nat): (r: seq<T>)
    requires i < |s|
  {
    s[..i] + s[i + 1..]
  }

  /** A duplicate-free listing of a set: one of the orders in which a Go `range` may visit it. */
  ghost predicate Lists<T>(order: seq<T>, keys: set<T>) {
    && (forall i, j :: 0 <= i < j < |order| ==> order[i] != order[j])
    && (forall k :: k in keys ==> k in order)
    && (forall k :: k in order ==> k in keys)
  }
}
