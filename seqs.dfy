// Removal of the first occurrence of an element (Kotlin's MutableList.remove).
module Seqs {

  /** `s` without its first element equal to `x`; `s` itself when there is none. */
  function RemoveFirst<T(==)>(s: seq<T>, x: T): (r: seq<T>)
    ensures x in s ==> |r| == |s| - 1
    ensures x !in s ==> r == s
  {
    if s == [] then []
    else
      assert s == [s[0]] + s[1..];
      if s[0] == x then s[1..] else [s[0]] + RemoveFirst(s[1..], x)
  }

  /** When `x` first occurs at `k`, exactly the element at `k` is removed. */
  lemma {:induction false} RemoveFirstAt<T>(s: seq<T>, x: T, k: nat)
    requires k < |s| && s[k] == x
    requires forall j :: 0 <= j < k ==> s[j] != x
    ensures RemoveFirst(s, x) == s[..k] + s[k + 1..]
  {
    if k == 0 {
      assert s[..0] + s[1..] == s[1..];
    } else {
      assert s[0] != x;
      assert RemoveFirst(s, x) == [s[0]] + RemoveFirst(s[1..], x);
      var t := s[1..];
      RemoveFirstAt(t, x, k - 1);
      assert t[..k - 1] == s[1..k];
      assert t[k..] == s[k + 1..];
      assert s[..k] == [s[0]] + s[1..k];
      calc {
        RemoveFirst(s, x);
        [s[0]] + (t[..k - 1] + t[k..]);
        [s[0]] + s[1..k] + s[k + 1..];
      }
    }
  }

  /** Removing the first `x` takes exactly one `x` out of the multiset of elements. */
  lemma {:induction false} RemoveFirstMultiset<T>(s: seq<T>, x: T)
    ensures multiset(RemoveFirst(s, x)) == multiset(s) - multiset{x}
  {
    if s != [] {
      assert s == [s[0]] + s[1..];
      if s[0] != x {
        RemoveFirstMultiset(s[1..], x);
      }
    }
  }

  /** `s` with one RemoveFirst per element of `done`, in the order of `done`. */
  function RemoveAll<T(==)>(s: seq<T>, done: seq<T>): (r: seq<T>)
    ensures |r| <= |s|
  {
    if done == [] then s else RemoveFirst(RemoveAll(s, done[..|done| - 1]), done[|done| - 1])
  }

  /** The elements of `s` outside `d`, in the order of `s`. */
  function Except<T(==)>(s: seq<T>, d: set<T>): (r: seq<T>)
    ensures forall k :: 0 <= k < |r| ==> r[k] in s && r[k] !in d
    ensures forall x :: x in s && x !in d ==> x in r
  {
    if s == [] then []
    else
      assert s == [s[0]] + s[1..];
      (if s[0] in d then [] else [s[0]]) + Except(s[1..], d)
  }

  /** Adding to `d` an element that `s` does not hold changes nothing. */
  lemma {:induction false} ExceptAbsent<T>(s: seq<T>, d: set<T>, x: T)
    requires x !in s
    ensures Except(s, d + {x}) == Except(s, d)
  {
    if s != [] {
      assert s[0] != x && x !in s[1..];
      ExceptAbsent(s[1..], d, x);
    }
  }

  /** In a list of distinct elements, removing the first `x` from what lies
      outside `d` leaves what lies outside `d` and `x`. */
  lemma {:induction false} RemoveFirstExcept<T>(s: seq<T>, d: set<T>, x: T)
    requires forall i, j :: 0 <= i < j < |s| ==> s[i] != s[j]
    requires x in s && x !in d
    ensures RemoveFirst(Except(s, d), x) == Except(s, d + {x})
  {
    var t := s[1..];
    assert forall i, j :: 0 <= i < j < |t| ==> t[i] != t[j] by {
      forall i, j | 0 <= i < j < |t| ensures t[i] != t[j] { assert t[i] == s[i + 1] && t[j] == s[j + 1]; }
    }
    var e := Except(t, d);
    if s[0] == x {
      assert x !in t by {
        forall j | 0 <= j < |t| ensures t[j] != x { assert t[j] == s[j + 1]; }
      }
      assert Except(s, d) == [x] + e;
      ExceptAbsent(t, d, x);
    } else {
      assert x in t by {
        var j :| 0 <= j < |s| && s[j] == x;
        assert j > 0 && t[j - 1] == x;
      }
      RemoveFirstExcept(t, d, x);
      if s[0] in d {
        assert Except(s, d) == e;
        assert Except(s, d + {x}) == Except(t, d + {x});
      } else {
        var l := [s[0]] + e;
        assert Except(s, d) == l;
        assert l[0] == s[0] && l[1..] == e;
        assert RemoveFirst(l, x) == [s[0]] + RemoveFirst(e, x);
        assert Except(s, d + {x}) == [s[0]] + Except(t, d + {x});
      }
    }
  }

  /** Removing distinct elements of a list of distinct elements one by one
      leaves the rest of the list in its order. */
  lemma {:induction false} RemoveAllExcept<T>(s: seq<T>, done: seq<T>)
    requires forall i, j :: 0 <= i < j < |s| ==> s[i] != s[j]
    requires forall i, j :: 0 <= i < j < |done| ==> done[i] != done[j]
    requires forall k :: 0 <= k < |done| ==> done[k] in s
    ensures RemoveAll(s, done) == Except(s, set x | x in done)
    decreases |done|
  {
    if done == [] {
      assert (set x | x in done) == {};
      ExceptNone(s);
    } else {
      var init, last := done[..|done| - 1], done[|done| - 1];
      var before: set<T> := set x | x in init;
      var after: set<T> := set x | x in done;
      RemoveAllExcept(s, init);
      assert last !in init by {
        forall j | 0 <= j < |init| ensures init[j] != last { assert init[j] == done[j]; }
      }
      assert last in s;
      RemoveFirstExcept(s, before, last);
      assert before + {last} == after by {
        assert done == init + [last];
      }
    }
  }

  /** Nothing to leave out leaves the list as it is. */
  lemma {:induction false} ExceptNone<T>(s: seq<T>)
    ensures Except(s, {}) == s
  {
    if s != [] {
      ExceptNone(s[1..]);
      assert s == [s[0]] + s[1..];
    }
  }
}
