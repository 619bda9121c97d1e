/** The keep-or-skip loop shape shared by the record-processing passes: each
    input element is mapped to an optional output, and the present outputs
    are collected in input order. */
module SeqFilter {

  import opened Wrappers

  function FilterMap<T, U>(s: seq<T>, f: T -> Option<U>): seq<U> {
    if s == [] then []
    else
      var last := s[|s| - 1];
      FilterMap(s[..|s| - 1], f) + (if f(last).Some? then [f(last).value] else [])
  }

  /** Each output is the image of some input, and there are never more
      outputs than inputs. */
  lemma {:induction false} FilterMapSound<T, U>(s: seq<T>, f: T -> Option<U>)
    ensures |FilterMap(s, f)| <= |s|
    ensures forall y :: y in FilterMap(s, f) ==> exists i :: 0 <= i < |s| && f(s[i]) == Some(y)
  {
    if s != [] {
      var n := |s| - 1;
      var init := s[..n];
      FilterMapSound(init, f);
      forall y | y in FilterMap(s, f)
        ensures exists i :: 0 <= i < |s| && f(s[i]) == Some(y)
      {
        if y in FilterMap(init, f) {
          var i :| 0 <= i < |init| && f(init[i]) == Some(y);
          assert s[i] == init[i];
        } else {
          assert f(s[n]) == Some(y);
        }
      }
    }
  }

  /** Every input with an image contributes that image. */
  lemma {:induction false} FilterMapComplete<T, U>(s: seq<T>, f: T -> Option<U>)
    ensures forall i :: 0 <= i < |s| && f(s[i]).Some? ==> f(s[i]).value in FilterMap(s, f)
  {
    if s != [] {
      var n := |s| - 1;
      var init := s[..n];
      FilterMapComplete(init, f);
      forall i | 0 <= i < |s| && f(s[i]).Some?
        ensures f(s[i]).value in FilterMap(s, f)
      {
        if i < n {
          assert s[i] == init[i];
        }
      }
    }
  }

  /** Extending the input by one element extends the output by its image. */
  lemma FilterMapSnoc<T, U>(s: seq<T>, n: nat, f: T -> Option<U>)
    requires n < |s|
    ensures FilterMap(s[..n + 1], f) == FilterMap(s[..n], f) + f(s[n]).ToSeq()
  {
    assert s[..n + 1][..n] == s[..n];
  }

  /** A single input contributes its image, if any. */
  lemma FilterMapSingle<T, U>(x: T, f: T -> Option<U>)
    ensures FilterMap([x], f) == f(x).ToSeq()
  {
    assert [x][..0] == [];
  }

  /** The first input contributes its image ahead of the rest. */
  lemma FilterMapCons<T, U>(s: seq<T>, f: T -> Option<U>)
    requires s != []
    ensures FilterMap(s, f) == f(s[0]).ToSeq() + FilterMap(s[1..], f)
  {
    assert [s[0]] + s[1..] == s;
    FilterMapAppend([s[0]], s[1..], f);
    FilterMapSingle(s[0], f);
  }

  /** Outputs of a concatenation are the outputs of the parts, concatenated. */
  lemma {:induction false} FilterMapAppend<T, U>(s: seq<T>, t: seq<T>, f: T -> Option<U>)
    ensures FilterMap(s + t, f) == FilterMap(s, f) + FilterMap(t, f)
    decreases |t|
  {
    if t == [] {
      assert s + t == s;
    } else {
      var n := |t| - 1;
      assert (s + t)[..|s + t| - 1] == s + t[..n];
      FilterMapAppend(s, t[..n], f);
    }
  }

  /** `FilterMap` over the elements before the first one on which `stop`
      holds: the shape of a loop that a raised exception ends early. */
  function TakeFilterMap<T, U>(s: seq<T>, stop: T -> bool, f: T -> Option<U>): seq<U> {
    if s == [] || stop(s[0]) then []
    else f(s[0]).ToSeq() + TakeFilterMap(s[1..], stop, f)
  }

  /** Before the first stopping element, `TakeFilterMap` is `FilterMap`. */
  lemma {:induction false} TakeFilterMapPrefix<T, U>(s: seq<T>, stop: T -> bool, f: T -> Option<U>, k: nat)
    requires k <= |s| && (forall i :: 0 <= i < k ==> !stop(s[i]))
    requires k == |s| || stop(s[k])
    ensures TakeFilterMap(s, stop, f) == FilterMap(s[..k], f)
    decreases k
  {
    if k == 0 {
      assert s[..0] == [];
    } else {
      var rest := s[1..];
      assert forall i :: 0 <= i < k - 1 ==> rest[i] == s[i + 1];
      TakeFilterMapPrefix(rest, stop, f, k - 1);
      assert TakeFilterMap(s, stop, f) == f(s[0]).ToSeq() + FilterMap(rest[..k - 1], f);
      assert s[..k] == [s[0]] + rest[..k - 1];
      FilterMapAppend([s[0]], rest[..k - 1], f);
      FilterMapSingle(s[0], f);
    }
  }

  /** The loop that `TakeFilterMap` specifies. */
  method CollectUntil<T, U>(s: seq<T>, stop: T -> bool, f: T -> Option<U>) returns (out: seq<U>)
    ensures out == TakeFilterMap(s, stop, f)
  {
    out := [];
    var i := 0;
    while i < |s| && !stop(s[i])
      invariant 0 <= i <= |s|
      invariant out + TakeFilterMap(s[i..], stop, f) == TakeFilterMap(s, stop, f)
    {
      var y := f(s[i]);
      assert s[i..][1..] == s[i + 1..];
      assert TakeFilterMap(s[i..], stop, f) == y.ToSeq() + TakeFilterMap(s[i + 1..], stop, f);
      assert out + TakeFilterMap(s[i..], stop, f) == (out + y.ToSeq()) + TakeFilterMap(s[i + 1..], stop, f);
      out := out + y.ToSeq();
      i := i + 1;
    }
    assert TakeFilterMap(s[i..], stop, f) == [];
    assert out + [] == out;
  }
}
