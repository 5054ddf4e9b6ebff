/** Sequence helpers shared by the model: duplicate-freedom, flattening,
    occurrence counting and Python's prefix slice `s[:n]`. */
module SeqUtils {

  predicate NoDups<T(==)>(s: seq<T>)
  {
    forall i, j :: 0 <= i < j < |s| ==> s[i] != s[j]
  }

  function ToSet<T>(s: seq<T>): set<T>
  {
    set x | x in s
  }

  /** Concatenation of a list of lists, built from the back so that a loop
      that appends one list at a time extends it by one step. */
  function Flatten<T>(ss: seq<seq<T>>): seq<T>
  {
    if ss == [] then [] else Flatten(ss[..|ss| - 1]) + ss[|ss| - 1]
  }

  /** Appending a list appends its items. */
  lemma FlattenSnoc<T>(ss: seq<seq<T>>, s: seq<T>)
    ensures Flatten(ss + [s]) == Flatten(ss) + s
  {
    assert (ss + [s])[..|ss|] == ss;
  }

  /** Number of occurrences of `x` in `s`. */
  function Count<T(==)>(s: seq<T>, x: T): nat
  {
    if s == [] then 0
    else Count(s[..|s| - 1], x) + (if s[|s| - 1] == x then 1 else 0)
  }

  /** Appending an item counts it once more when it is `x`. */
  lemma CountSnoc<T>(s: seq<T>, y: T, x: T)
    ensures Count(s + [y], x) == Count(s, x) + (if y == x then 1 else 0)
  {
    assert (s + [y])[..|s|] == s;
  }

  /** Counting distributes over concatenation. */
  lemma {:induction false} CountAppend<T>(a: seq<T>, b: seq<T>, x: T)
    ensures Count(a + b, x) == Count(a, x) + Count(b, x)
    decreases |b|
  {
    if b == [] {
      assert a + b == a;
    } else {
      var b' := b[..|b| - 1];
      assert (a + b)[..|a + b| - 1] == a + b';
      assert (a + b)[|a + b| - 1] == b[|b| - 1];
      CountAppend(a, b', x);
    }
  }

  /** A sequence without `x` counts none of it. */
  lemma {:induction false} CountNone<T>(s: seq<T>, x: T)
    requires forall k :: 0 <= k < |s| ==> s[k] != x
    ensures Count(s, x) == 0
  {
    if s != [] {
      CountNone(s[..|s| - 1], x);
    }
  }

  /** A slice holds no more occurrences than the whole. */
  lemma CountSlice<T>(s: seq<T>, lo: nat, hi: nat, x: T)
    requires lo <= hi <= |s|
    ensures Count(s[lo..hi], x) <= Count(s, x)
  {
    assert s == s[..lo] + s[lo..hi] + s[hi..];
    CountAppend(s[..lo] + s[lo..hi], s[hi..], x);
    CountAppend(s[..lo], s[lo..hi], x);
  }

  /** Python's `s[:n]`, including the negative `n` that counts from the end. */
  function PyPrefix<T>(s: seq<T>, n: int): (r: seq<T>)
    ensures |r| <= |s|
    ensures 0 <= n ==> |r| == if n < |s| then n else |s|
    ensures r == s[..|r|]
  {
    if 0 <= n then (if n < |s| then s[..n] else s)
    else (if |s| + n <= 0 then [] else s[..|s| + n])
  }

  /** A list is duplicate-free exactly when its tail is and its head does not
      recur. */
  lemma NoDupsCons<T>(s: seq<T>)
    requires s != []
    ensures NoDups(s) <==> NoDups(s[1..]) && s[0] !in s[1..]
  {
    if NoDups(s[1..]) && s[0] !in s[1..] {
      forall i, j | 0 <= i < j < |s| ensures s[i] != s[j] {
        if i > 0 {
          assert s[i] == s[1..][i - 1] && s[j] == s[1..][j - 1];
        } else {
          assert s[j] == s[1..][j - 1];
        }
      }
    }
  }

  /** A duplicate-free sequence has as many distinct elements as items. */
  lemma {:induction false} NoDupsCard<T>(s: seq<T>)
    requires NoDups(s)
    ensures |ToSet(s)| == |s|
  {
    if s != [] {
      var init := s[..|s| - 1];
      NoDupsCard(init);
      assert ToSet(s) == ToSet(init) + {s[|s| - 1]};
      assert s[|s| - 1] !in ToSet(init);
    }
  }

  /** Appending a new item keeps a list duplicate-free and adds it to the set. */
  lemma SnocFresh<T>(s: seq<T>, x: T)
    requires NoDups(s) && x !in s
    ensures NoDups(s + [x]) && ToSet(s + [x]) == ToSet(s) + {x}
  {
  }
}
