/**
 Option, and the sequence operations that the kernel's queues are described with.
 */
module Common {

  datatype Option<+T> = None | Some(value: T)

  /** No element occurs twice. */
  ghost predicate NoDup<T>(s: seq<T>) {
    forall i, j :: 0 <= i < j < |s| ==> s[i] != s[j]
  }

  /** `s` without the first occurrence of `x`. */
  function Remove<T(==)>(s: seq<T>, x: T): seq<T> {
    if s == [] then []
    else if s[0] == x then s[1..]
    else [s[0]] + Remove(s[1..], x)
  }

  lemma {:induction false} RemoveAbsent<T>(s: seq<T>, x: T)
    requires x !in s
    ensures Remove(s, x) == s
  {
    if s != [] {
      RemoveAbsent(s[1..], x);
    }
  }

  lemma {:induction false} RemoveIn<T>(s: seq<T>, x: T, y: T)
    ensures y in Remove(s, x) ==> y in s
    ensures y in s && y != x ==> y in Remove(s, x)
  {
    if s != [] && s[0] != x {
      RemoveIn(s[1..], x, y);
      assert y in s <==> y == s[0] || y in s[1..];
      assert y in Remove(s, x) <==> y == s[0] || y in Remove(s[1..], x);
    }
  }

  lemma {:induction false} RemoveNoDup<T>(s: seq<T>, x: T)
    requires NoDup(s)
    ensures NoDup(Remove(s, x)) && x !in Remove(s, x)
  {
    if s == [] {
    } else if s[0] == x {
      forall i, j | 0 <= i < j < |s[1..]|
        ensures s[1..][i] != s[1..][j]
      {
        assert s[1..][i] == s[i + 1] && s[1..][j] == s[j + 1];
      }
    } else {
      var r := Remove(s[1..], x);
      assert NoDup(s[1..]);
      RemoveNoDup(s[1..], x);
      RemoveIn(s[1..], x, s[0]);
      assert s[0] !in r;
      forall i, j | 0 <= i < j < |r| + 1
        ensures ([s[0]] + r)[i] != ([s[0]] + r)[j]
      {
        if i > 0 {
          assert r[i - 1] != r[j - 1];
        } else {
          assert r[j - 1] in r;
        }
      }
    }
  }

  /** Of a duplicate-free sequence, exactly `x` is gone. */
  lemma RemoveMembers<T>(s: seq<T>, x: T)
    requires NoDup(s)
    ensures NoDup(Remove(s, x))
    ensures forall y :: y in Remove(s, x) <==> y in s && y != x
  {
    RemoveNoDup(s, x);
    forall y
      ensures y in Remove(s, x) <==> y in s && y != x
    {
      RemoveIn(s, x, y);
    }
  }

  lemma NoDupAppend<T>(s: seq<T>, x: T)
    requires NoDup(s) && x !in s
    ensures NoDup(s + [x])
  {
  }
}
