/** Failure-carrying results, and the two sequence combinators the report
    builders are written with: an order-preserving filter (LINQ's `Where`)
    and a map that stops at the first failure (a `foreach` whose body may
    throw). */
module Results {

  /** The exceptions the modelled code can raise. */
  datatype Fault =
    | IndexOutOfRange      // an IList indexer past its end
    | SubstringOutOfRange  // String.Substring asked for a negative length
    | NoElements           // Enumerable.First on an empty sequence

  datatype Option<+T> = None | Some(value: T)

  datatype Result<+T> = Ok(value: T) | Err(error: Fault) {
    predicate IsFailure() { Err? }

    function PropagateFailure<U>(): Result<U>
      requires Err?
    {
      Err(error)
    }

    function Extract(): T
      requires Ok?
    {
      value
    }
  }

  /** The elements of `s` that satisfy `p`, in their order in `s`. */
  function Filter<T>(s: seq<T>, p: T -> bool): seq<T>
    decreases |s|
  {
    if s == [] then []
    else Filter(s[..|s| - 1], p) + (if p(s[|s| - 1]) then [s[|s| - 1]] else [])
  }

  /** Applies `f` to every element in order; the first failure is the result. */
  function MapResult<A, B>(s: seq<A>, f: A -> Result<B>): Result<seq<B>>
    decreases |s|
  {
    if s == [] then Ok([])
    else
      var init :- MapResult(s[..|s| - 1], f);
      var last :- f(s[|s| - 1]);
      Ok(init + [last])
  }

  /** Rows 0..n-1 of a table, each a sequence, concatenated in order. */
  function Concat<T>(n: nat, rowAt: nat -> seq<T>): seq<T> {
    if n == 0 then [] else Concat(n - 1, rowAt) + rowAt(n - 1)
  }

  /** What row `v` holds is in the concatenation of the first `n > v` rows. */
  lemma {:induction false} ConcatMember<T>(n: nat, rowAt: nat -> seq<T>, v: nat, x: T)
    requires v < n && x in rowAt(v)
    ensures x in Concat(n, rowAt)
  {
    if v < n - 1 {
      ConcatMember(n - 1, rowAt, v, x);
    }
  }

  /** Appending row `n` to the first `n` rows gives the first `n + 1`. */
  lemma ConcatSnoc<T>(n: nat, rowAt: nat -> seq<T>, acc: seq<T>, last: seq<T>)
    requires acc == Concat(n, rowAt) && last == rowAt(n)
    ensures acc + last == Concat(n + 1, rowAt)
  {
  }

  /** Conversely, every element of the concatenation comes from one of its rows. */
  lemma {:induction false} ConcatIndex<T>(n: nat, rowAt: nat -> seq<T>, x: T) returns (v: nat)
    requires x in Concat(n, rowAt)
    ensures v < n && x in rowAt(v)
  {
    if x in Concat(n - 1, rowAt) {
      v := ConcatIndex(n - 1, rowAt, x);
    } else {
      v := n - 1;
    }
  }

  lemma {:induction false} FilterMembers<T>(s: seq<T>, p: T -> bool, x: T)
    ensures x in Filter(s, p) <==> x in s && p(x)
    decreases |s|
  {
    if s != [] {
      FilterMembers(s[..|s| - 1], p, x);
      assert s == s[..|s| - 1] + [s[|s| - 1]];
    }
  }

  lemma {:induction false} FilterAppend<T>(s: seq<T>, t: seq<T>, p: T -> bool)
    ensures Filter(s + t, p) == Filter(s, p) + Filter(t, p)
    decreases |t|
  {
    if t == [] {
      assert s + t == s;
    } else {
      var t' := t[..|t| - 1];
      assert (s + t)[..|s + t| - 1] == s + t';
      FilterAppend(s, t', p);
    }
  }

  /** Extending a prefix by one element extends its filtered image by at most that element. */
  lemma FilterStep<T>(s: seq<T>, i: nat, p: T -> bool)
    requires i < |s|
    ensures Filter(s[..i + 1], p) == Filter(s[..i], p) + (if p(s[i]) then [s[i]] else [])
  {
    assert s[..i + 1][..i] == s[..i];
  }

  lemma FilterWhole<T>(s: seq<T>, p: T -> bool)
    ensures Filter(s[..|s|], p) == Filter(s, p)
  {
    assert s[..|s|] == s;
  }

  /** A successful map has one result per element, each that element's image. */
  lemma {:induction false} MapResultOk<A, B>(s: seq<A>, f: A -> Result<B>)
    requires MapResult(s, f).Ok?
    ensures |MapResult(s, f).value| == |s|
    ensures forall i :: 0 <= i < |s| ==> f(s[i]) == Ok(MapResult(s, f).value[i])
    decreases |s|
  {
    if s != [] {
      MapResultOk(s[..|s| - 1], f);
    }
  }

  /** The map fails exactly with the failure of the first element that fails. */
  lemma {:induction false} MapResultFirstErr<A, B>(s: seq<A>, f: A -> Result<B>, k: nat)
    requires k < |s| && f(s[k]).Err?
    requires forall j :: 0 <= j < k ==> f(s[j]).Ok?
    ensures MapResult(s, f) == Err(f(s[k]).error)
    decreases |s|
  {
    if k < |s| - 1 {
      MapResultFirstErr(s[..|s| - 1], f, k);
    } else {
      MapResultAllOk(s[..|s| - 1], f);
    }
  }

  lemma {:induction false} MapResultAllOk<A, B>(s: seq<A>, f: A -> Result<B>)
    requires forall j :: 0 <= j < |s| ==> f(s[j]).Ok?
    ensures MapResult(s, f).Ok?
    decreases |s|
  {
    if s != [] {
      MapResultAllOk(s[..|s| - 1], f);
    }
  }

  /** A failure of the map is the failure of some element, all before it succeeding. */
  lemma {:induction false} MapResultErrWitness<A, B>(s: seq<A>, f: A -> Result<B>)
    requires MapResult(s, f).Err?
    ensures exists k :: 0 <= k < |s| && f(s[k]) == Err(MapResult(s, f).error) &&
                        forall j :: 0 <= j < k ==> f(s[j]).Ok?
    decreases |s|
  {
    var init := s[..|s| - 1];
    if MapResult(init, f).Err? {
      MapResultErrWitness(init, f);
      var k :| 0 <= k < |init| && f(init[k]) == Err(MapResult(init, f).error) &&
               forall j :: 0 <= j < k ==> f(init[j]).Ok?;
      assert s[k] == init[k];
    } else {
      MapResultOk(init, f);
      assert forall j :: 0 <= j < |s| - 1 ==> s[j] == init[j];
    }
  }

  /** Once a prefix fails, appending more elements does not change the failure. */
  lemma {:induction false} MapResultErrExtends<A, B>(s: seq<A>, t: seq<A>, f: A -> Result<B>)
    requires MapResult(s, f).Err?
    ensures MapResult(s + t, f) == MapResult(s, f)
    decreases |t|
  {
    if t == [] {
      assert s + t == s;
    } else {
      var t' := t[..|t| - 1];
      assert (s + t)[..|s + t| - 1] == s + t';
      MapResultErrExtends(s, t', f);
    }
  }

  /** One step of a `foreach` over `s`: a success at element `i` is appended. */
  lemma MapStep<A, B>(s: seq<A>, i: nat, f: A -> Result<B>, acc: seq<B>)
    requires i < |s| && MapResult(s[..i], f) == Ok(acc) && f(s[i]).Ok?
    ensures MapResult(s[..i + 1], f) == Ok(acc + [f(s[i]).value])
  {
    assert s[..i + 1][..i] == s[..i];
  }

  /** One step of a `foreach` over `s`: a failure at element `i`, after the
      elements before it succeeded, is the failure of the whole loop. */
  lemma MapStops<A, B>(s: seq<A>, i: nat, f: A -> Result<B>)
    requires i < |s| && MapResult(s[..i], f).Ok? && f(s[i]).Err?
    ensures MapResult(s, f) == Err(f(s[i]).error)
  {
    assert s[..i + 1][..i] == s[..i];
    assert s == s[..i + 1] + s[i + 1..];
    MapResultErrExtends(s[..i + 1], s[i + 1..], f);
  }

  /** Filtering distributes over splitting `s` at `i`. */
  lemma FilterSplit<T>(s: seq<T>, i: nat, p: T -> bool)
    requires i <= |s|
    ensures Filter(s, p) == Filter(s[..i], p) + Filter(s[i..], p)
  {
    assert s == s[..i] + s[i..];
    FilterAppend(s[..i], s[i..], p);
  }

  /** A failure at a selected element `i`, after the selected elements before it succeeded,
      is the failure of the map over the prefix ending at `i`. */
  lemma MapFilterPrefixFails<A, B>(s: seq<A>, i: nat, p: A -> bool, f: A -> Result<B>)
    requires i < |s| && p(s[i])
    requires MapResult(Filter(s[..i], p), f).Ok? && f(s[i]).Err?
    ensures MapResult(Filter(s[..i + 1], p), f) == Err(f(s[i]).error)
  {
    FilterStep(s, i, p);
    var pre := Filter(s[..i + 1], p);
    assert pre[..|pre| - 1] == Filter(s[..i], p);
  }

  /** One step of a `foreach` over `s` filtered by `p`: a failure at element `i`
      is the failure of the whole loop. */
  lemma MapFilterStops<A, B>(s: seq<A>, i: nat, p: A -> bool, f: A -> Result<B>)
    requires i < |s| && p(s[i])
    requires MapResult(Filter(s[..i], p), f).Ok? && f(s[i]).Err?
    ensures MapResult(Filter(s, p), f) == Err(f(s[i]).error)
  {
    MapFilterPrefixFails(s, i, p, f);
    FilterSplit(s, i + 1, p);
    MapResultErrExtends(Filter(s[..i + 1], p), Filter(s[i + 1..], p), f);
  }

  /** One step of a `foreach` over `s` filtered by `p`: the element either is
      skipped or its image is appended. */
  lemma MapFilterStep<A, B>(s: seq<A>, i: nat, p: A -> bool, f: A -> Result<B>, acc: seq<B>)
    requires i < |s|
    requires MapResult(Filter(s[..i], p), f) == Ok(acc)
    requires p(s[i]) ==> f(s[i]).Ok?
    ensures MapResult(Filter(s[..i + 1], p), f) ==
            Ok(if p(s[i]) then acc + [f(s[i]).value] else acc)
  {
    FilterStep(s, i, p);
    var pre := Filter(s[..i + 1], p);
    if p(s[i]) {
      assert pre != [] && pre[..|pre| - 1] == Filter(s[..i], p) && pre[|pre| - 1] == s[i];
      assert MapResult(pre, f) == Ok(acc + [f(s[i]).value]);
    } else {
      assert pre == Filter(s[..i], p);
    }
  }
}

/** Ordinal string tests (`String.StartsWith`, `EndsWith`, `Contains`). */
module Strings {

  predicate StartsWith(s: string, prefix: string) {
    |prefix| <= |s| && s[..|prefix|] == prefix
  }

  predicate EndsWith(s: string, suffix: string) {
    |suffix| <= |s| && s[|s| - |suffix|..] == suffix
  }

  /** `sub` occurs in `s` at some position. */
  predicate Contains(s: string, sub: string)
    decreases |s|
  {
    StartsWith(s, sub) || (s != [] && Contains(s[1..], sub))
  }

  /** Conversely, `Contains` finds a position where `sub` occurs. */
  lemma {:induction false} ContainsPosition(s: string, sub: string) returns (i: nat)
    requires Contains(s, sub)
    ensures i + |sub| <= |s| && s[i..i + |sub|] == sub
    decreases |s|
  {
    if StartsWith(s, sub) {
      i := 0;
    } else {
      var j := ContainsPosition(s[1..], sub);
      assert s[1..][j..j + |sub|] == s[j + 1..j + 1 + |sub|];
      i := j + 1;
    }
  }

  /** `sub` occurring at position `i` of `s` is found by `Contains`. */
  lemma {:induction false} ContainsAt(s: string, sub: string, i: nat)
    requires i + |sub| <= |s| && s[i..i + |sub|] == sub
    ensures Contains(s, sub)
    decreases i
  {
    if i > 0 {
      assert s[1..][i - 1..i - 1 + |sub|] == s[i..i + |sub|];
      ContainsAt(s[1..], sub, i - 1);
    }
  }
}
