/** The parts of Redis the inference queue relies on: optional hash fields and lists. */
module Redis {

  datatype Option<+T> = None | Some(value: T)

  /** `LREM key 1 x`: unlink the first occurrence of `x`, if there is one. */
  function RemoveFirst<T(==)>(s: seq<T>, x: T): (r: seq<T>)
    ensures multiset(r) == multiset(s) - multiset{x}
    ensures |r| == if x in s then |s| - 1 else |s|
  {
    if s == [] then []
    else
      assert s == [s[0]] + s[1..];
      if s[0] == x then s[1..] else [s[0]] + RemoveFirst(s[1..], x)
  }

  lemma {:induction false} RemoveAbsent<T>(s: seq<T>, x: T)
    requires x !in s
    ensures RemoveFirst(s, x) == s
  {
    if s != [] { RemoveAbsent(s[1..], x); }
  }

  predicate Distinct<T(==)>(s: seq<T>) {
    forall i, j :: 0 <= i < j < |s| ==> s[i] != s[j]
  }

  lemma RemoveCons<T>(h: T, t: seq<T>, x: T)
    ensures RemoveFirst([h] + t, x) == if h == x then t else [h] + RemoveFirst(t, x)
  {
    assert ([h] + t)[1..] == t;
  }

  /** Removing an element that follows a prefix not containing it leaves the prefix alone. */
  lemma {:induction false} RemoveFirstAfter<T>(before: seq<T>, x: T, rest: seq<T>)
    requires x !in before
    ensures RemoveFirst(before + [x] + rest, x) == before + rest
  {
    hide RemoveFirst;
    if before == [] {
      RemoveCons(x, rest, x);
      assert before + [x] + rest == [x] + rest && before + rest == rest;
    } else {
      var h, t := before[0], before[1..];
      RemoveFirstAfter(t, x, rest);
      RemoveCons(h, t + [x] + rest, x);
      assert before + [x] + rest == [h] + (t + [x] + rest);
      assert before + rest == [h] + (t + rest);
    }
  }
}
