/**
 * The table operations the backend's routes apply to their row lists: boolean
 * selection (`df[mask]`), `unique()` in first-occurrence order, and the
 * position of the first least or greatest value (`min`/`max` with a key,
 * `idxmax`).
 */
module Frames {
  import opened Wrappers

  /** The elements of `s` that satisfy `p`, in their original order. */
  function Where<T(!new)>(s: seq<T>, p: T -> bool): (r: seq<T>)
    ensures forall x :: x in r <==> x in s && p(x)
    ensures |r| <= |s|
    decreases |s|
  {
    if |s| == 0 then []
    else
      var init := Where(s[..|s| - 1], p);
      assert forall x :: x in s[..|s| - 1] ==> x in s;
      assert forall x :: x in s ==> x in s[..|s| - 1] || x == s[|s| - 1];
      if p(s[|s| - 1]) then init + [s[|s| - 1]] else init
  }

  /** A selection and the selection of its complement share out the whole list. */
  lemma {:induction false} WhereSplit<T(!new)>(s: seq<T>, p: T -> bool, q: T -> bool)
    requires forall x :: x in s ==> (p(x) <==> !q(x))
    ensures |Where(s, p)| + |Where(s, q)| == |s|
    decreases |s|
  {
    if |s| > 0 {
      var init := s[..|s| - 1];
      assert forall x :: x in init ==> x in s;
      assert s[|s| - 1] in s;
      WhereSplit(init, p, q);
    }
  }

  /** No element occurs twice. */
  predicate Distinct<T(==)>(s: seq<T>) {
    forall i, j :: 0 <= i < j < |s| ==> s[i] != s[j]
  }

  /** The position of the first occurrence of `x` in `s`. */
  function FirstIndex<T(==)>(s: seq<T>, x: T): (i: nat)
    requires x in s
    ensures i < |s| && s[i] == x
    ensures forall j :: 0 <= j < i ==> s[j] != x
  {
    if s[0] == x then 0 else 1 + FirstIndex(s[1..], x)
  }

  /** Appending an element leaves the first occurrences of what was already there where they were. */
  lemma FirstIndexSnoc<T>(s: seq<T>, y: T, x: T)
    requires x in s
    ensures FirstIndex(s + [y], x) == FirstIndex(s, x)
  {
    assert (s + [y])[FirstIndex(s, x)] == x;
  }

  /** `unique()`: each element once, at the position of its first occurrence. */
  function Unique<T(==,!new)>(s: seq<T>): (r: seq<T>)
    ensures forall x :: x in r <==> x in s
    ensures Distinct(r)
    ensures |r| <= |s|
    ensures forall a, b :: 0 <= a < b < |r| ==> FirstIndex(s, r[a]) < FirstIndex(s, r[b])
    decreases |s|
  {
    if |s| == 0 then []
    else
      var init, y := s[..|s| - 1], s[|s| - 1];
      var u := Unique(init);
      assert s == init + [y];
      UniqueStep(init, y, u);
      if y in u then u else u + [y]
  }

  /** One step of `Unique`: what holds of `u` for `init` holds of its extension for `init + [y]`. */
  lemma UniqueStep<T>(init: seq<T>, y: T, u: seq<T>)
    requires forall x :: x in u <==> x in init
    requires Distinct(u) && |u| <= |init|
    requires forall a, b :: 0 <= a < b < |u| ==> FirstIndex(init, u[a]) < FirstIndex(init, u[b])
    ensures var s, r := init + [y], if y in u then u else u + [y];
            && (forall x :: x in r <==> x in s)
            && Distinct(r) && |r| <= |s|
            && forall a, b :: 0 <= a < b < |r| ==> FirstIndex(s, r[a]) < FirstIndex(s, r[b])
  {
    var s := init + [y];
    forall x | x in init
      ensures FirstIndex(s, x) == FirstIndex(init, x)
    {
      FirstIndexSnoc(init, y, x);
    }
    if y !in u {
      NewLast(init, y, u);
    }
  }

  /** A new element goes after everything already there, in first-occurrence order too. */
  lemma NewLast<T>(init: seq<T>, y: T, u: seq<T>)
    requires forall x :: x in u <==> x in init
    requires y !in u
    requires forall a, b :: 0 <= a < b < |u| ==> FirstIndex(init + [y], u[a]) < FirstIndex(init + [y], u[b])
    ensures forall a, b :: 0 <= a < b < |u + [y]| ==> FirstIndex(init + [y], (u + [y])[a]) < FirstIndex(init + [y], (u + [y])[b])
  {
    var s, r := init + [y], u + [y];
    assert FirstIndex(s, y) == |s| - 1;
    forall a, b | 0 <= a < b < |r|
      ensures FirstIndex(s, r[a]) < FirstIndex(s, r[b])
    {
      if b == |u| {
        assert r[a] == u[a] && r[b] == y;
      } else {
        assert r[a] == u[a] && r[b] == u[b];
      }
    }
  }

  /** A distinct list stays distinct under any reordering. */
  lemma DistinctPermutation<T>(r: seq<T>, s: seq<T>)
    requires multiset(r) == multiset(s) && Distinct(s)
    ensures Distinct(r)
  {
    forall x
      ensures multiset(s)[x] <= 1
    {
      DistinctCount(s, x);
    }
    forall i, j | 0 <= i < j < |r|
      ensures r[i] != r[j]
    {
      if r[i] == r[j] {
        TwiceCount(r, i, j);
        assert false;
      }
    }
  }

  lemma {:induction false} DistinctCount<T>(s: seq<T>, x: T)
    requires Distinct(s)
    ensures multiset(s)[x] <= 1
    decreases |s|
  {
    if |s| > 0 {
      var init := s[..|s| - 1];
      assert s == init + [s[|s| - 1]];
      DistinctCount(init, x);
      if x == s[|s| - 1] {
        assert x !in init;
      }
    }
  }

  lemma TwiceCount<T>(r: seq<T>, i: nat, j: nat)
    requires i < j < |r| && r[i] == r[j]
    ensures multiset(r)[r[i]] >= 2
  {
    assert r == r[..i] + [r[i]] + r[i + 1..j] + [r[j]] + r[j + 1..];
  }

  /** The position of the first least key, or nothing for an empty list: `min(s, key=...)`. */
  function FirstMin<T>(s: seq<T>, key: T -> real): (r: Option<nat>)
    ensures r.None? <==> |s| == 0
    ensures r.Some? ==> r.value < |s|
    ensures r.Some? ==> forall j :: 0 <= j < |s| ==> key(s[r.value]) <= key(s[j])
    ensures r.Some? ==> forall j :: 0 <= j < r.value ==> key(s[j]) > key(s[r.value])
    decreases |s|
  {
    if |s| == 0 then None
    else
      var rest := FirstMin(s[1..], key);
      assert forall j :: 1 <= j < |s| ==> s[j] == s[1..][j - 1];
      if rest.None? || key(s[0]) <= key(s[1..][rest.value]) then Some(0)
      else Some(rest.value + 1)
  }

  /** The position of the first greatest key, or nothing for an empty list: `max(s, key=...)`, `idxmax()`. */
  function FirstMax<T>(s: seq<T>, key: T -> real): (r: Option<nat>)
    ensures r.None? <==> |s| == 0
    ensures r.Some? ==> r.value < |s|
    ensures r.Some? ==> forall j :: 0 <= j < |s| ==> key(s[j]) <= key(s[r.value])
    ensures r.Some? ==> forall j :: 0 <= j < r.value ==> key(s[j]) < key(s[r.value])
    decreases |s|
  {
    if |s| == 0 then None
    else
      var rest := FirstMax(s[1..], key);
      assert forall j :: 1 <= j < |s| ==> s[j] == s[1..][j - 1];
      if rest.None? || key(s[0]) >= key(s[1..][rest.value]) then Some(0)
      else Some(rest.value + 1)
  }

  /** The position of the first element satisfying `p`, or nothing when none does. */
  function FirstWhere<T>(s: seq<T>, p: T -> bool): (r: Option<nat>)
    ensures r.None? <==> forall i :: 0 <= i < |s| ==> !p(s[i])
    ensures r.Some? ==> r.value < |s| && p(s[r.value])
    ensures r.Some? ==> forall j :: 0 <= j < r.value ==> !p(s[j])
    decreases |s|
  {
    if |s| == 0 then None
    else if p(s[0]) then Some(0)
    else
      var rest := FirstWhere(s[1..], p);
      assert forall j :: 1 <= j < |s| ==> s[j] == s[1..][j - 1];
      if rest.None? then None else Some(rest.value + 1)
  }

  /** The values held by the present entries of `s`, in order: each comes from an entry of `s`. */
  function Present<T>(s: seq<Option<T>>): (r: seq<T>)
    ensures |r| <= |s|
    ensures forall k :: 0 <= k < |r| ==> exists i :: 0 <= i < |s| && s[i] == Some(r[k])
    decreases |s|
  {
    if |s| == 0 then []
    else
      var init := s[..|s| - 1];
      var rest := Present(init);
      var r := if s[|s| - 1].Some? then rest + [s[|s| - 1].value] else rest;
      forall k | 0 <= k < |r|
        ensures exists i :: 0 <= i < |s| && s[i] == Some(r[k])
      {
        if k == |rest| {
          assert s[|s| - 1] == Some(r[k]);
        } else {
          assert r[k] == rest[k];
          var i :| 0 <= i < |init| && init[i] == Some(rest[k]);
          assert s[i] == init[i];
        }
      }
      r
  }

  /** No present entry is dropped. */
  lemma {:induction false} PresentComplete<T>(s: seq<Option<T>>, i: nat)
    requires i < |s| && s[i].Some?
    ensures exists k :: 0 <= k < |Present(s)| && Present(s)[k] == s[i].value
    decreases |s|
  {
    var init := s[..|s| - 1];
    var rest := Present(init);
    if i == |s| - 1 {
      assert Present(s)[|rest|] == s[i].value;
    } else {
      assert init[i] == s[i];
      PresentComplete(init, i);
      var k :| 0 <= k < |rest| && rest[k] == init[i].value;
      assert Present(s)[k] == rest[k];
    }
  }

  /**
   * An object filled by `obj[keys[i]] = values[i]` for each position in
   * order: every key gets a value, and a key shared by several positions ends
   * with the last one's.
   */
  function Payload<J>(keys: seq<string>, values: seq<J>): (m: map<string, J>)
    requires |keys| == |values|
    ensures forall k :: k in m <==> k in keys
    ensures forall i :: 0 <= i < |keys| && (forall j :: i < j < |keys| ==> keys[j] != keys[i])
                        ==> keys[i] in m && m[keys[i]] == values[i]
    decreases |keys|
  {
    if |keys| == 0 then map[]
    else
      var n := |keys| - 1;
      var init := Payload(keys[..n], values[..n]);
      var m := init[keys[n] := values[n]];
      assert forall k :: k in keys <==> k in keys[..n] || k == keys[n];
      forall i | 0 <= i < |keys| && (forall j :: i < j < |keys| ==> keys[j] != keys[i])
        ensures keys[i] in m && m[keys[i]] == values[i]
      {
        if i < n {
          assert keys[..n][i] == keys[i] && values[..n][i] == values[i];
          assert forall j :: i < j < n ==> keys[..n][j] == keys[j];
        }
      }
      m
  }

  /** Selecting from a list with one more element at the end. */
  lemma WhereSnoc<T(!new)>(s: seq<T>, y: T, p: T -> bool)
    ensures Where(s + [y], p) == Where(s, p) + (if p(y) then [y] else [])
  {
    assert (s + [y])[..|s + [y]| - 1] == s;
  }

  /** A selection every element passes is the whole list. */
  lemma {:induction false} WhereAll<T(!new)>(s: seq<T>, p: T -> bool)
    requires forall i :: 0 <= i < |s| ==> p(s[i])
    ensures Where(s, p) == s
    decreases |s|
  {
    if |s| > 0 {
      var init := s[..|s| - 1];
      WhereAll(init, p);
      WhereSnoc(init, s[|s| - 1], p);
      assert init + [s[|s| - 1]] == s;
    }
  }

  /** Selecting from two lists one after the other. */
  lemma {:induction false} WhereAppend<T(!new)>(a: seq<T>, b: seq<T>, p: T -> bool)
    ensures Where(a + b, p) == Where(a, p) + Where(b, p)
    decreases |b|
  {
    if |b| > 0 {
      var init, y := b[..|b| - 1], b[|b| - 1];
      assert b == init + [y];
      assert a + b == (a + init) + [y];
      WhereAppend(a, init, p);
      WhereSnoc(a + init, y, p);
      WhereSnoc(init, y, p);
    } else {
      assert a + b == a;
    }
  }

  /** Two masks that agree on every element select the same rows. */
  lemma {:induction false} WhereExt<T(!new)>(s: seq<T>, p: T -> bool, q: T -> bool)
    requires forall x :: x in s ==> p(x) == q(x)
    ensures Where(s, p) == Where(s, q)
    decreases |s|
  {
    if |s| > 0 {
      var init := s[..|s| - 1];
      assert forall x :: x in init ==> x in s;
      WhereExt(init, p, q);
      assert s[|s| - 1] in s;
    }
  }

  /** A selection that rejects one element and keeps all around it removes exactly that element. */
  lemma WhereDropsOne<T(!new)>(pre: seq<T>, y: T, post: seq<T>, p: T -> bool)
    requires forall j :: 0 <= j < |pre| ==> p(pre[j])
    requires !p(y)
    requires forall j :: 0 <= j < |post| ==> p(post[j])
    ensures Where(pre + [y] + post, p) == pre + post
  {
    WhereAll(pre, p);
    var tail := [y] + post;
    assert Where(tail, p) == post by {
      WhereAll(post, p);
      WhereAppend([y], post, p);
      WhereSnoc([], y, p);
      assert [] + [y] == [y];
    }
    assert pre + [y] + post == pre + tail;
    WhereAppend(pre, tail, p);
  }

  /** Selecting from a list without repetitions gives a list without repetitions. */
  lemma {:induction false} WhereDistinct<T(!new)>(s: seq<T>, p: T -> bool)
    requires Distinct(s)
    ensures Distinct(Where(s, p))
    decreases |s|
  {
    if |s| > 0 {
      var init := s[..|s| - 1];
      var y := s[|s| - 1];
      assert Distinct(init);
      WhereDistinct(init, p);
      WhereSnoc(init, y, p);
      assert init + [y] == s;
      assert y !in init;
      assert y !in Where(init, p);
    }
  }
}
