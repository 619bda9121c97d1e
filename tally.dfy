/** Counting occurrences the way a Python dict filled by
    `if k not in d: d[k] = 0` / `d[k] += 1` does: one entry per distinct
    value, in the order the values are first seen. */
module Tally {

  /** How many times `x` occurs in `s`. */
  function Count<T(==)>(s: seq<T>, x: T): nat {
    if s == [] then 0
    else Count(s[..|s| - 1], x) + (if s[|s| - 1] == x then 1 else 0)
  }

  /** The distinct elements of `s`, in order of first occurrence. */
  function FirstSeen<T(==)>(s: seq<T>): seq<T> {
    if s == [] then []
    else
      var init := s[..|s| - 1];
      FirstSeen(init) + (if s[|s| - 1] in init then [] else [s[|s| - 1]])
  }

  /** The count of every element of `s`. */
  function Counts<T(==)>(s: seq<T>): map<T, nat> {
    map x | x in s :: Count(s, x)
  }

  predicate Distinct<T(==)>(s: seq<T>) {
    forall i, j :: 0 <= i < j < |s| ==> s[i] != s[j]
  }

  /** The sum of the counts of `keys`. */
  function Total<T(==)>(keys: seq<T>, counts: map<T, nat>): nat
    requires forall k :: k in keys ==> k in counts
  {
    if keys == [] then 0 else counts[keys[0]] + Total(keys[1..], counts)
  }

  /** An element is counted at least once exactly when it occurs. */
  lemma {:induction false} CountPositive<T>(s: seq<T>, x: T)
    ensures Count(s, x) > 0 <==> x in s
  {
    if s != [] {
      var init := s[..|s| - 1];
      CountPositive(init, x);
      assert s == init + [s[|s| - 1]];
    }
  }

  /** Counting over an appended element. */
  lemma CountSnoc<T>(s: seq<T>, a: T, x: T)
    ensures Count(s + [a], x) == Count(s, x) + (if a == x then 1 else 0)
  {
    assert (s + [a])[..|s|] == s;
  }

  /** The first-seen keys are distinct and are exactly the elements. */
  lemma {:induction false} FirstSeenSpec<T>(s: seq<T>)
    ensures Distinct(FirstSeen(s))
    ensures forall x :: x in FirstSeen(s) <==> x in s
  {
    if s != [] {
      var init := s[..|s| - 1];
      FirstSeenSpec(init);
      assert s == init + [s[|s| - 1]];
    }
  }

  /** The counts add up to the number of elements: every element is
      counted once, under its own key. */
  lemma {:induction false} TotalIsLength<T>(s: seq<T>)
    ensures forall k :: k in FirstSeen(s) ==> k in Counts(s)
    ensures Total(FirstSeen(s), Counts(s)) == |s|
  {
    FirstSeenSpec(s);
    if s != [] {
      var init := s[..|s| - 1];
      var a := s[|s| - 1];
      assert s == init + [a];
      TotalIsLength(init);
      FirstSeenSpec(init);
      var keys := FirstSeen(init);
      TotalStep(keys, init, a);
      if a in init {
        assert FirstSeen(s) == keys;
      } else {
        assert FirstSeen(s) == keys + [a];
        TotalSnoc(keys, a, Counts(s));
        CountPositive(init, a);
        CountSnoc(init, a, a);
        assert Counts(s)[a] == 1;
      }
    }
  }

  /** Adding one element raises the total over distinct keys by one when
      the element is one of the keys, and leaves it otherwise. */
  lemma {:induction false} TotalStep<T>(keys: seq<T>, init: seq<T>, a: T)
    requires Distinct(keys)
    requires forall k :: k in keys ==> k in init
    ensures forall k :: k in keys ==> k in Counts(init) && k in Counts(init + [a])
    ensures Total(keys, Counts(init + [a])) == Total(keys, Counts(init)) + (if a in keys then 1 else 0)
  {
    if keys != [] {
      var rest := keys[1..];
      assert Distinct(rest) by {
        forall i, j | 0 <= i < j < |rest| ensures rest[i] != rest[j] {
          assert rest[i] == keys[i + 1] && rest[j] == keys[j + 1];
        }
      }
      assert keys[0] !in rest by {
        forall j | 0 <= j < |rest| ensures rest[j] != keys[0] {
          assert rest[j] == keys[j + 1];
        }
      }
      TotalStep(rest, init, a);
      CountSnoc(init, a, keys[0]);
      assert a in keys <==> a == keys[0] || a in rest;
    }
  }

  /** The total over keys with one key appended. */
  lemma {:induction false} TotalSnoc<T>(keys: seq<T>, a: T, counts: map<T, nat>)
    requires forall k :: k in keys ==> k in counts
    requires a in counts
    ensures Total(keys + [a], counts) == Total(keys, counts) + counts[a]
  {
    if keys != [] {
      assert (keys + [a])[1..] == keys[1..] + [a];
      TotalSnoc(keys[1..], a, counts);
    }
  }

  /** Counting one more element bumps its count, starting from 0, and
      leaves the others. */
  lemma CountsSnoc<T>(s: seq<T>, a: T)
    ensures Counts(s + [a]) == Counts(s)[a := Count(s, a) + 1]
  {
    var all := s + [a];
    var m := Counts(s)[a := Count(s, a) + 1];
    forall x ensures x in Counts(all) <==> x in m {
      assert x in all <==> x in s || x == a;
    }
    forall x | x in m ensures Counts(all)[x] == m[x] {
      CountSnoc(s, a, x);
    }
  }

  /** An element not seen before is appended to the first-seen keys. */
  lemma FirstSeenSnoc<T>(s: seq<T>, a: T)
    ensures FirstSeen(s + [a]) == FirstSeen(s) + (if a in s then [] else [a])
  {
    assert (s + [a])[..|s|] == s;
  }

  /** One `if k not in d: d[k] = 0` / `d[k] += 1` step, on a dict kept as
      its keys in insertion order and its counts. */
  method Add<T(==)>(keys: seq<T>, counts: map<T, nat>, ghost seen: seq<T>, key: T)
    returns (keys': seq<T>, counts': map<T, nat>)
    requires keys == FirstSeen(seen) && counts == Counts(seen)
    ensures keys' == FirstSeen(seen + [key]) && counts' == Counts(seen + [key])
  {
    CountsSnoc(seen, key);
    FirstSeenSnoc(seen, key);
    CountPositive(seen, key);
    keys', counts' := keys, counts;
    if key !in counts {
      keys' := keys + [key];
      counts' := counts[key := 0];
    }
    counts' := counts'[key := counts'[key] + 1];
  }
}
