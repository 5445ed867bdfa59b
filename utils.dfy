/** The collection combinators of code/modules/utils/src/utils.ts:
    `unique`, `chain`, `flatten`, `flatMap`, `foldK` and `mapK`.
    A promise is read as a Result: it resolves with Success or rejects with Failure.
 */
module Utils {
  import opened Wrappers

  // ------------------------------------------------------------------ unique

  /** `safeArray` comes from a module outside this model; it reads `undefined` as []. */
  function SafeArray<T>(ts: Option<seq<T>>): seq<T>
  {
    match ts
    case None => []
    case Some(s) => s
  }

  /** The tags of the elements of ts. */
  function TagsOf<T>(ts: seq<T>, tagFn: T -> string): set<string>
  {
    set i | 0 <= i < |ts| :: tagFn(ts[i])
  }

  /** What `unique` computes: scanning ts from the left, an element is kept
      exactly when no earlier element carried its tag. */
  function FirstByTag<T>(ts: seq<T>, tagFn: T -> string): seq<T>
    decreases |ts|
  {
    if |ts| == 0 then []
    else
      var init := ts[..|ts| - 1];
      if tagFn(ts[|ts| - 1]) in TagsOf(init, tagFn) then FirstByTag(init, tagFn)
      else FirstByTag(init, tagFn) + [ts[|ts| - 1]]
  }

  ghost predicate DistinctTags<T>(s: seq<T>, tagFn: T -> string)
  {
    forall i, j :: 0 <= i < j < |s| ==> tagFn(s[i]) != tagFn(s[j])
  }

  /** ts[i] is the first element of ts that carries its tag. */
  ghost predicate FirstOfItsTag<T>(ts: seq<T>, tagFn: T -> string, i: int)
    requires 0 <= i < |ts|
  {
    forall j :: 0 <= j < i ==> tagFn(ts[j]) != tagFn(ts[i])
  }

  /** `unique(ts, tagFn)`: fills the set `alreadyIn` and pushes onto `result`. */
  method Unique<T>(ts: Option<seq<T>>, tagFn: T -> string) returns (result: seq<T>)
    ensures result == FirstByTag(SafeArray(ts), tagFn)
  {
    var xs := SafeArray(ts);
    var alreadyIn: set<string> := {};
    result := [];
    var i := 0;
    while i < |xs|
      invariant 0 <= i <= |xs|
      invariant alreadyIn == TagsOf(xs[..i], tagFn)
      invariant result == FirstByTag(xs[..i], tagFn)
    {
      var t := xs[i];
      var tag := tagFn(t);
      assert xs[..i + 1] == xs[..i] + [t];
      assert xs[..i + 1][..i] == xs[..i];
      TagsOfSnoc(xs[..i], t, tagFn);
      if tag !in alreadyIn {
        result := result + [t];
        alreadyIn := alreadyIn + {tag};
      }
      i := i + 1;
    }
    assert xs[..i] == xs;
  }

  lemma TagsOfSnoc<T>(s: seq<T>, t: T, tagFn: T -> string)
    ensures TagsOf(s + [t], tagFn) == TagsOf(s, tagFn) + {tagFn(t)}
  {
    var s' := s + [t];
    forall x | x in TagsOf(s', tagFn) ensures x in TagsOf(s, tagFn) + {tagFn(t)} {
      var i :| 0 <= i < |s'| && tagFn(s'[i]) == x;
      if i < |s| {
        assert s'[i] == s[i];
      }
    }
    forall x | x in TagsOf(s, tagFn) ensures x in TagsOf(s', tagFn) {
      var i :| 0 <= i < |s| && tagFn(s[i]) == x;
      assert s'[i] == s[i];
    }
    assert s'[|s|] == t;
  }

  /** Every tag of the input appears in the output of `unique`, and no other. */
  lemma {:induction false} UniqueKeepsEveryTag<T>(ts: seq<T>, tagFn: T -> string)
    ensures TagsOf(FirstByTag(ts, tagFn), tagFn) == TagsOf(ts, tagFn)
    decreases |ts|
  {
    if |ts| > 0 {
      var init, last := ts[..|ts| - 1], ts[|ts| - 1];
      assert ts == init + [last];
      UniqueKeepsEveryTag(init, tagFn);
      TagsOfSnoc(init, last, tagFn);
      if tagFn(last) !in TagsOf(init, tagFn) {
        TagsOfSnoc(FirstByTag(init, tagFn), last, tagFn);
      }
    }
  }

  /** No two elements of the output of `unique` carry the same tag. */
  lemma {:induction false} UniqueHasDistinctTags<T>(ts: seq<T>, tagFn: T -> string)
    ensures DistinctTags(FirstByTag(ts, tagFn), tagFn)
    decreases |ts|
  {
    if |ts| > 0 {
      var init, last := ts[..|ts| - 1], ts[|ts| - 1];
      UniqueHasDistinctTags(init, tagFn);
      if tagFn(last) !in TagsOf(init, tagFn) {
        var p := FirstByTag(init, tagFn);
        UniqueKeepsEveryTag(init, tagFn);
        var r := p + [last];
        forall i, j | 0 <= i < j < |r| ensures tagFn(r[i]) != tagFn(r[j]) {
          if j == |p| {
            assert r[i] == p[i];
            assert tagFn(p[i]) in TagsOf(p, tagFn);
          } else {
            assert r[i] == p[i] && r[j] == p[j];
          }
        }
      }
    }
  }

  /** The output of `unique` is the subsequence of the input made of the first
      element of each tag: `idx` gives, in increasing order, the positions in ts
      of the kept elements, and every first occurrence of a tag is among them. */
  lemma {:induction false} UniqueIsFirstOccurrences<T>(ts: seq<T>, tagFn: T -> string) returns (idx: seq<nat>)
    ensures |idx| == |FirstByTag(ts, tagFn)|
    ensures forall k :: 0 <= k < |idx| ==>
      idx[k] < |ts| && FirstByTag(ts, tagFn)[k] == ts[idx[k]] && FirstOfItsTag(ts, tagFn, idx[k])
    ensures forall k, l :: 0 <= k < l < |idx| ==> idx[k] < idx[l]
    ensures forall i :: 0 <= i < |ts| && FirstOfItsTag(ts, tagFn, i) ==> i in idx
    decreases |ts|
  {
    if |ts| == 0 {
      idx := [];
    } else {
      var n := |ts| - 1;
      var init, last := ts[..n], ts[n];
      var p := FirstByTag(init, tagFn);
      var idx0 := UniqueIsFirstOccurrences(init, tagFn);
      FirstOfItsTagLast(ts, tagFn);
      if tagFn(last) in TagsOf(init, tagFn) {
        idx := idx0;
        assert FirstByTag(ts, tagFn) == p;
      } else {
        idx := idx0 + [n];
        assert FirstByTag(ts, tagFn) == p + [last];
      }
      forall k | 0 <= k < |idx|
        ensures idx[k] < |ts| && FirstByTag(ts, tagFn)[k] == ts[idx[k]] && FirstOfItsTag(ts, tagFn, idx[k])
      {
        if k < |idx0| {
          assert idx[k] == idx0[k] && FirstByTag(ts, tagFn)[k] == p[k];
          assert ts[idx0[k]] == init[idx0[k]];
          FirstOfItsTagInit(ts, tagFn, idx0[k]);
        }
      }
      forall k, l | 0 <= k < l < |idx| ensures idx[k] < idx[l] {
        assert idx[k] == idx0[k];
        if l < |idx0| {
          assert idx[l] == idx0[l];
        }
      }
      forall i | 0 <= i < |ts| && FirstOfItsTag(ts, tagFn, i) ensures i in idx {
        if i < n {
          FirstOfItsTagInit(ts, tagFn, i);
          assert i in idx0;
        }
      }
    }
  }

  /** Dropping the last element does not change which earlier positions are
      first occurrences. */
  lemma FirstOfItsTagInit<T>(ts: seq<T>, tagFn: T -> string, i: nat)
    requires i < |ts| - 1
    ensures FirstOfItsTag(ts[..|ts| - 1], tagFn, i) <==> FirstOfItsTag(ts, tagFn, i)
  {
    assert forall j :: 0 <= j <= i ==> ts[..|ts| - 1][j] == ts[j];
  }

  /** The last element is a first occurrence exactly when its tag is new. */
  lemma FirstOfItsTagLast<T>(ts: seq<T>, tagFn: T -> string)
    requires |ts| > 0
    ensures FirstOfItsTag(ts, tagFn, |ts| - 1) <==> tagFn(ts[|ts| - 1]) !in TagsOf(ts[..|ts| - 1], tagFn)
  {
    var init := ts[..|ts| - 1];
    if tagFn(ts[|ts| - 1]) in TagsOf(init, tagFn) {
      var j :| 0 <= j < |init| && tagFn(init[j]) == tagFn(ts[|ts| - 1]);
      assert ts[j] == init[j];
    } else {
      forall j | 0 <= j < |ts| - 1 ensures tagFn(ts[j]) != tagFn(ts[|ts| - 1]) {
        assert ts[j] == init[j];
        assert tagFn(init[j]) in TagsOf(init, tagFn);
      }
    }
  }

  /** A sequence whose tags are already distinct is left as it is by `unique`. */
  lemma {:induction false} UniqueOfDistinct<T>(s: seq<T>, tagFn: T -> string)
    requires DistinctTags(s, tagFn)
    ensures FirstByTag(s, tagFn) == s
    decreases |s|
  {
    if |s| > 0 {
      var n := |s| - 1;
      var init := s[..n];
      assert DistinctTags(init, tagFn) by {
        forall i, j | 0 <= i < j < |init| ensures tagFn(init[i]) != tagFn(init[j]) {
          assert init[i] == s[i] && init[j] == s[j];
        }
      }
      UniqueOfDistinct(init, tagFn);
      assert tagFn(s[n]) !in TagsOf(init, tagFn) by {
        forall i | 0 <= i < |init| ensures tagFn(init[i]) != tagFn(s[n]) {
          assert init[i] == s[i];
        }
      }
      assert s == init + [s[n]];
    }
  }

  /** `unique` is idempotent. */
  lemma UniqueIdempotent<T>(ts: seq<T>, tagFn: T -> string)
    ensures FirstByTag(FirstByTag(ts, tagFn), tagFn) == FirstByTag(ts, tagFn)
  {
    UniqueHasDistinctTags(ts, tagFn);
    UniqueOfDistinct(FirstByTag(ts, tagFn), tagFn);
  }

  // ------------------------------------------------------------------- chain

  /** `chain(...fns)(from)`: a `for` loop that returns the first result that is
      not `undefined`. `calls` counts the functions that were applied: the
      search stops at the first defined result, so no later function is called. */
  method Chain<From, To>(fns: seq<From -> Option<To>>, from: From) returns (result: Option<To>, calls: nat)
    ensures calls <= |fns|
    ensures forall j :: 0 <= j < calls - 1 ==> fns[j](from).None?
    ensures result.None? ==> calls == |fns| && forall j :: 0 <= j < |fns| ==> fns[j](from).None?
    ensures result.Some? ==> 0 < calls && fns[calls - 1](from) == result
  {
    calls := 0;
    while calls < |fns|
      invariant calls <= |fns|
      invariant forall j :: 0 <= j < calls ==> fns[j](from).None?
    {
      var r := fns[calls](from);
      calls := calls + 1;
      if r.Some? {
        return r, calls;
      }
    }
    return None, calls;
  }

  // ---------------------------------------------------------- flatten, flatMap

  /** `[].concat(...tss)`. */
  function Flatten<T>(tss: seq<seq<T>>): seq<T>
  {
    if |tss| == 0 then [] else tss[0] + Flatten(tss[1..])
  }

  function SumOfLengths<T>(tss: seq<seq<T>>): nat
  {
    if |tss| == 0 then 0 else |tss[0]| + SumOfLengths(tss[1..])
  }

  lemma {:induction false} FlattenLength<T>(tss: seq<seq<T>>)
    ensures |Flatten(tss)| == SumOfLengths(tss)
  {
    if |tss| > 0 {
      FlattenLength(tss[1..]);
    }
  }

  /** The i-th inner sequence fits in the flattened sequence after the
      inner sequences before it. */
  lemma {:induction false} FlattenPrefixBound<T>(tss: seq<seq<T>>, i: nat)
    requires i < |tss|
    ensures SumOfLengths(tss[..i]) + |tss[i]| <= |Flatten(tss)|
  {
    FlattenLength(tss[1..]);
    if i == 0 {
      assert tss[..0] == [];
    } else {
      FlattenPrefixBound(tss[1..], i - 1);
      assert tss[..i][1..] == tss[1..][..i - 1];
    }
  }

  /** Element k of the i-th inner sequence sits in the flattened sequence
      right after the elements of the inner sequences before it. */
  lemma {:induction false} FlattenAt<T>(tss: seq<seq<T>>, i: nat, k: nat)
    requires i < |tss| && k < |tss[i]|
    ensures SumOfLengths(tss[..i]) + k < |Flatten(tss)|
    ensures Flatten(tss)[SumOfLengths(tss[..i]) + k] == tss[i][k]
  {
    FlattenPrefixBound(tss, i);
    if i == 0 {
      assert tss[..0] == [];
    } else {
      FlattenAt(tss[1..], i - 1, k);
      assert tss[..i][1..] == tss[1..][..i - 1];
    }
  }

  /** Flatten turns concatenation of the outer sequence into concatenation. */
  lemma {:induction false} FlattenAppend<T>(a: seq<seq<T>>, b: seq<seq<T>>)
    ensures Flatten(a + b) == Flatten(a) + Flatten(b)
  {
    if |a| == 0 {
      assert a + b == b;
    } else {
      assert (a + b)[1..] == a[1..] + b;
      FlattenAppend(a[1..], b);
    }
  }

  /** An element is in the flatten exactly when it is in one of the inner sequences. */
  lemma {:induction false} FlattenMember<T>(tss: seq<seq<T>>, x: T)
    ensures x in Flatten(tss) <==> exists i :: 0 <= i < |tss| && x in tss[i]
  {
    if |tss| > 0 {
      FlattenMember(tss[1..], x);
      if x in Flatten(tss[1..]) {
        var i :| 0 <= i < |tss[1..]| && x in tss[1..][i];
        assert x in tss[i + 1];
      }
      if exists i :: 0 <= i < |tss| && x in tss[i] {
        var i :| 0 <= i < |tss| && x in tss[i];
        if i > 0 {
          assert x in tss[1..][i - 1];
        }
      }
    }
  }

  /** `ts.map(fn)`. */
  function Map<From, To>(fn: From -> To, ts: seq<From>): seq<To>
  {
    seq(|ts|, i requires 0 <= i < |ts| => fn(ts[i]))
  }

  /** `flatMap(ts, fn)`. */
  function FlatMap<From, To>(ts: seq<From>, fn: From -> seq<To>): seq<To>
  {
    Flatten(Map(fn, ts))
  }

  /** flatMap over a concatenation is the concatenation of the flatMaps;
      with FlatMapSingle this says the output lists fn(ts[0]), then fn(ts[1]), ... */
  lemma FlatMapAppend<From, To>(a: seq<From>, b: seq<From>, fn: From -> seq<To>)
    ensures FlatMap(a + b, fn) == FlatMap(a, fn) + FlatMap(b, fn)
  {
    assert Map(fn, a + b) == Map(fn, a) + Map(fn, b);
    FlattenAppend(Map(fn, a), Map(fn, b));
  }

  lemma FlatMapSingle<From, To>(t: From, fn: From -> seq<To>)
    ensures FlatMap([t], fn) == fn(t)
  {
    var m := Map(fn, [t]);
    assert m[0] == fn(t);
    assert Flatten(m[1..]) == [];
    assert fn(t) + [] == fn(t);
  }

  /** The length of flatMap is the sum of the lengths of the fn(t). */
  lemma {:induction false} FlatMapLength<From, To>(ts: seq<From>, fn: From -> seq<To>)
    ensures |FlatMap(ts, fn)| == SumOfLengths(Map(fn, ts))
  {
    FlattenLength(Map(fn, ts));
  }

  // ----------------------------------------------------------------- filter

  /** `ts.filter(p)`. */
  function Filter<T>(ts: seq<T>, p: T -> bool): seq<T>
  {
    if |ts| == 0 then []
    else if p(ts[0]) then [ts[0]] + Filter(ts[1..], p)
    else Filter(ts[1..], p)
  }

  /** An element is kept by filter exactly when it is in ts and satisfies p. */
  lemma {:induction false} FilterMember<T>(ts: seq<T>, p: T -> bool, x: T)
    ensures x in Filter(ts, p) <==> x in ts && p(x)
  {
    if |ts| > 0 {
      FilterMember(ts[1..], p, x);
      assert ts == [ts[0]] + ts[1..];
    }
  }

  // ------------------------------------------------------------- foldK, mapK

  /** `foldK(vs, zero, foldFn)`: a reduce that chains each step after the
      previous one; a rejected step rejects the whole fold and later steps are
      not run. */
  function FoldK<Acc, V, E>(vs: seq<V>, zero: Acc, foldFn: (Acc, V) -> Result<Acc, E>): Result<Acc, E>
  {
    if |vs| == 0 then Success(zero)
    else
      match foldFn(zero, vs[0])
      case Failure(e) => Failure(e)
      case Success(acc) => FoldK(vs[1..], acc, foldFn)
  }

  /** The plain left fold. */
  function FoldL<Acc, V>(f: (Acc, V) -> Acc, zero: Acc, vs: seq<V>): Acc
  {
    if |vs| == 0 then zero else FoldL(f, f(zero, vs[0]), vs[1..])
  }

  /** With a step that always resolves, foldK is the left fold (so `zero` for []). */
  lemma {:induction false} FoldKSynchronous<Acc, V, E>(vs: seq<V>, zero: Acc, f: (Acc, V) -> Acc,
                                                      foldFn: (Acc, V) -> Result<Acc, E>)
    requires forall acc, v :: foldFn(acc, v) == Success(f(acc, v))
    ensures FoldK(vs, zero, foldFn) == Success(FoldL(f, zero, vs))
  {
    if |vs| > 0 {
      FoldKSynchronous(vs[1..], f(zero, vs[0]), f, foldFn);
    }
  }

  /** foldK over vs + ws folds ws from the accumulator foldK reached on vs,
      and stops at a failure in vs. */
  lemma {:induction false} FoldKAppend<Acc, V, E>(vs: seq<V>, ws: seq<V>, zero: Acc, foldFn: (Acc, V) -> Result<Acc, E>)
    ensures FoldK(vs + ws, zero, foldFn) ==
      match FoldK(vs, zero, foldFn)
      case Failure(e) => Failure(e)
      case Success(acc) => FoldK(ws, acc, foldFn)
  {
    if |vs| == 0 {
      assert vs + ws == ws;
    } else {
      assert (vs + ws)[0] == vs[0];
      assert (vs + ws)[1..] == vs[1..] + ws;
      match foldFn(zero, vs[0])
      case Failure(e) =>
      case Success(acc) => FoldKAppend(vs[1..], ws, acc, foldFn);
    }
  }

  /** `mapK(vs, fn)` = `Promise.all(vs.map(fn))`. Every fn(v) is started; the
      results keep the input order; a rejection rejects the whole (the model
      takes the first rejection in input order). */
  function MapK<V, To, E>(vs: seq<V>, fn: V -> Result<To, E>): Result<seq<To>, E>
  {
    if |vs| == 0 then Success([])
    else
      match fn(vs[0])
      case Failure(e) => Failure(e)
      case Success(x) =>
        match MapK(vs[1..], fn)
        case Failure(e) => Failure(e)
        case Success(xs) => Success([x] + xs)
  }

  /** mapK resolves exactly when every fn(v) resolves, with one result per
      input, in input order. */
  lemma {:induction false} MapKSuccess<V, To, E>(vs: seq<V>, fn: V -> Result<To, E>)
    ensures MapK(vs, fn).Success? <==> forall i :: 0 <= i < |vs| ==> fn(vs[i]).Success?
    ensures MapK(vs, fn).Success? ==>
      |MapK(vs, fn).value| == |vs| &&
      forall i :: 0 <= i < |vs| ==> fn(vs[i]) == Success(MapK(vs, fn).value[i])
  {
    if |vs| > 0 {
      MapKSuccess(vs[1..], fn);
      assert forall i :: 1 <= i < |vs| ==> vs[1..][i - 1] == vs[i];
      if MapK(vs, fn).Success? {
        var xs := MapK(vs, fn).value;
        forall i | 0 <= i < |vs| ensures fn(vs[i]) == Success(xs[i]) {
          if i > 0 {
            assert xs[i] == MapK(vs[1..], fn).value[i - 1];
          }
        }
      }
      if forall i :: 0 <= i < |vs| ==> fn(vs[i]).Success? {
        assert forall i :: 0 <= i < |vs[1..]| ==> fn(vs[1..][i]).Success? by {
          forall i | 0 <= i < |vs[1..]| ensures fn(vs[1..][i]).Success? {
            assert vs[1..][i] == vs[i + 1];
          }
        }
      }
    }
  }

  /** When mapK rejects, it rejects with the error of the first failing input. */
  lemma {:induction false} MapKFirstFailure<V, To, E>(vs: seq<V>, fn: V -> Result<To, E>) returns (k: nat)
    requires MapK(vs, fn).Failure?
    ensures k < |vs| && fn(vs[k]) == Failure(MapK(vs, fn).error)
    ensures forall j :: 0 <= j < k ==> fn(vs[j]).Success?
  {
    if fn(vs[0]).Failure? {
      k := 0;
    } else {
      var k' := MapKFirstFailure(vs[1..], fn);
      k := k' + 1;
      assert vs[k] == vs[1..][k'];
      forall j | 1 <= j < k ensures fn(vs[j]).Success? {
        assert vs[j] == vs[1..][j - 1];
      }
    }
  }
}
