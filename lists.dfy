/** The list operations the program relies on: `x in list` and
    `list.remove(x)`, which removes the first element equal to `x`.
    Bodies are compared by identity, as Python compares objects that
    do not define equality. */
module Lists {
  predicate NoDup<T(==)>(s: seq<T>) {
    forall i, j :: 0 <= i < j < |s| ==> s[i] != s[j]
  }

  /** The index of the first occurrence of `x`. */
  function IndexOf<T(==)>(s: seq<T>, x: T): (k: nat)
    requires x in s
    ensures k < |s| && s[k] == x
    ensures forall j :: 0 <= j < k ==> s[j] != x
  {
    if s[0] == x then 0 else 1 + IndexOf(s[1..], x)
  }

  /** `list.remove(x)`: the first occurrence of `x` goes, nothing else changes:
      the elements before it keep their index, the ones after it move down
      by one. */
  function RemoveFirst<T(==)>(s: seq<T>, x: T): (r: seq<T>)
    requires x in s
    ensures |r| == |s| - 1
    ensures forall i :: 0 <= i < IndexOf(s, x) ==> r[i] == s[i]
    ensures forall i :: IndexOf(s, x) < i < |s| ==> r[i - 1] == s[i]
  {
    if s[0] == x then s[1..] else [s[0]] + RemoveFirst(s[1..], x)
  }

  lemma RemoveFirstFacts<T>(s: seq<T>, x: T)
    requires x in s
    ensures forall y :: y in RemoveFirst(s, x) ==> y in s
    ensures forall y :: y in s && y != x ==> y in RemoveFirst(s, x)
    ensures NoDup(s) ==> NoDup(RemoveFirst(s, x)) && x !in RemoveFirst(s, x)
  {
    RemoveFirstOnlyDrops(s, x);
    RemoveFirstKeepsOthers(s, x);
    if NoDup(s) {
      RemoveFirstKeepsNoDup(s, x);
    }
  }

  lemma RemoveFirstOnlyDrops<T>(s: seq<T>, x: T)
    requires x in s
    ensures forall y :: y in RemoveFirst(s, x) ==> y in s
  {
    var r := RemoveFirst(s, x);
    forall y | y in r ensures y in s {
      var i :| 0 <= i < |r| && r[i] == y;
      if i >= IndexOf(s, x) {
        assert r[i] == s[i + 1];
      }
    }
  }

  lemma RemoveFirstKeepsOthers<T>(s: seq<T>, x: T)
    requires x in s
    ensures forall y :: y in s && y != x ==> y in RemoveFirst(s, x)
  {
    var k := IndexOf(s, x);
    var r := RemoveFirst(s, x);
    forall y | y in s && y != x ensures y in r {
      var j :| 0 <= j < |s| && s[j] == y;
      if j < k {
        assert r[j] == y;
      } else {
        assert r[j - 1] == y;
      }
    }
  }

  lemma RemoveFirstKeepsNoDup<T>(s: seq<T>, x: T)
    requires x in s && NoDup(s)
    ensures NoDup(RemoveFirst(s, x)) && x !in RemoveFirst(s, x)
  {
    var k := IndexOf(s, x);
    var r := RemoveFirst(s, x);
    forall i, j | 0 <= i < j < |r| ensures r[i] != r[j] {
      assert r[i] == s[if i < k then i else i + 1];
      assert r[j] == s[if j < k then j else j + 1];
    }
    forall i | 0 <= i < |r| ensures r[i] != x {
      assert r[i] == s[if i < k then i else i + 1];
    }
  }
}
