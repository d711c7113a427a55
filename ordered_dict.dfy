/** Python's insertion-ordered `dict` with string keys, and `list.remove`, as values. */
module OrderedDict {

  /** No element occurs twice. */
  predicate Distinct<T(==)>(s: seq<T>) {
    forall i, j :: 0 <= i < j < |s| ==> s[i] != s[j]
  }

  /** `if x in s: s.remove(x)`: drops the first occurrence of `x`, if any. */
  function RemoveFirst<T(==)>(s: seq<T>, x: T): (r: seq<T>)
    ensures x !in s ==> r == s
    ensures x in s ==> |r| == |s| - 1
  {
    if s == [] then []
    else if s[0] == x then
      assert s == [s[0]] + s[1..];
      s[1..]
    else
      assert s == [s[0]] + s[1..];
      [s[0]] + RemoveFirst(s[1..], x)
  }

  /** The removal takes away exactly one occurrence of `x` when there is one, and nothing else. */
  lemma {:induction false} RemoveFirstMultiset<T>(s: seq<T>, x: T)
    ensures multiset(RemoveFirst(s, x)) == multiset(s) - multiset{x}
  {
    if s != [] {
      assert s == [s[0]] + s[1..];
      RemoveFirstMultiset(s[1..], x);
    }
  }

  /** The removal keeps the order of the other elements: it cuts out the first position holding `x`. */
  lemma {:induction false} RemoveFirstCutsOne<T>(s: seq<T>, x: T) returns (i: nat)
    requires x in s
    ensures i < |s| && s[i] == x && x !in s[..i]
    ensures RemoveFirst(s, x) == s[..i] + s[i + 1..]
  {
    if s[0] == x {
      i := 0;
    } else {
      var t := s[1..];
      assert s == [s[0]] + t;
      var j := RemoveFirstCutsOne(t, x);
      i := j + 1;
      assert s[..i] == [s[0]] + t[..j];
      assert s[i + 1..] == t[j + 1..];
    }
  }

  /** On a list without duplicates, the removal takes out every occurrence and nothing else. */
  lemma {:induction false} RemoveFirstDistinct<T>(s: seq<T>, x: T)
    requires Distinct(s)
    ensures Distinct(RemoveFirst(s, x))
    ensures forall y :: y in RemoveFirst(s, x) <==> y in s && y != x
  {
    if s != [] {
      RemoveFirstDistinct(s[1..], x);
      assert forall j :: 0 < j < |s| ==> s[j] == s[1..][j - 1];
      if s[0] != x {
        var rest := RemoveFirst(s[1..], x);
        assert s[0] !in s[1..];
        assert s[0] !in rest;
        assert RemoveFirst(s, x) == [s[0]] + rest;
      }
    }
  }

  /** A distinct sequence has as many elements as its set. */
  lemma {:induction false} DistinctCardinality<T>(s: seq<T>)
    requires Distinct(s)
    ensures |set x | x in s| == |s|
  {
    if s != [] {
      DistinctCardinality(s[1..]);
      assert (set x | x in s) == {s[0]} + (set x | x in s[1..]);
      assert s[0] !in (set x | x in s[1..]);
    }
  }

  /**
   * An insertion-ordered dictionary: `order` lists the keys in insertion order,
   * `entries` maps each key to its value.
   */
  datatype Dict<V> = Dict(order: seq<string>, entries: map<string, V>) {

    /** Every key is listed once, and exactly the keys are listed. */
    ghost predicate Valid() {
      Distinct(order) && forall k :: k in order <==> k in entries
    }

    /** `d[k] = v`: a present key keeps its position, a new key goes to the end. */
    function Put(k: string, v: V): (r: Dict<V>)
      requires Valid()
      ensures r.Valid()
      ensures r.entries == entries[k := v]
      ensures k in entries ==> r.order == order
      ensures k !in entries ==> r.order == order + [k]
    {
      Dict(if k in entries then order else order + [k], entries[k := v])
    }

    /** `del d[k]` guarded by `k in d`: an absent key leaves the dictionary as it is. */
    function Del(k: string): (r: Dict<V>)
      requires Valid()
      ensures r.Valid() && k !in r.entries
      ensures r.entries == entries - {k}
      ensures r.order == RemoveFirst(order, k)
      ensures k !in entries ==> r == this
    {
      RemoveFirstDistinct(order, k);
      Dict(RemoveFirst(order, k), entries - {k})
    }
  }

  /** `{}` */
  function Empty<V>(): (d: Dict<V>)
    ensures d.Valid() && d.entries == map[]
  {
    Dict([], map[])
  }
}
