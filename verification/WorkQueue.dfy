/**
 * A work queue that feeds itself, over any items and visits: serving an item runs visits,
 * and a visit may queue an item. What such a queue runs is related to the layers of a
 * breadth-first search, and the layers to the paths of the search tree.
 */
module WorkQueue {
  import opened Basics

  /** Everything a list of items runs, item by item. */
  function Flat<I, V>(run: I -> seq<V>, items: seq<I>): seq<V> {
    if items == [] then [] else Flat(run, items[..|items| - 1]) + run(items[|items| - 1])
  }

  lemma FlatAppend<I, V>(run: I -> seq<V>, items: seq<I>, item: I)
    ensures Flat(run, items + [item]) == Flat(run, items) + run(item)
  {
    assert (items + [item])[..|items|] == items;
  }

  lemma {:induction false} FlatConcat<I, V>(run: I -> seq<V>, xs: seq<I>, ys: seq<I>)
    ensures Flat(run, xs + ys) == Flat(run, xs) + Flat(run, ys)
  {
    if ys == [] {
      assert xs + ys == xs;
    } else {
      var front, last := ys[..|ys| - 1], ys[|ys| - 1];
      assert xs + ys == (xs + front) + [last];
      FlatAppend(run, xs + front, last);
      FlatConcat(run, xs, front);
      Associative(Flat(run, xs), Flat(run, front), run(last));
    }
  }

  /** What the visits of a trace queue, in order; `next` sees the trace up to the visit. */
  function Queued<I, V>(trace: seq<V>, next: seq<V> -> Option<I>): seq<I> {
    if trace == [] then []
    else
      var earlier := Queued(trace[..|trace| - 1], next);
      if next(trace).Some? then earlier + [next(trace).value] else earlier
  }

  lemma QueuedAppend<I, V>(trace: seq<V>, v: V, next: seq<V> -> Option<I>)
    ensures Queued(trace + [v], next)
         == if next(trace + [v]).Some? then Queued(trace, next) + [next(trace + [v]).value] else Queued(trace, next)
  {
    assert (trace + [v])[..|trace|] == trace;
  }

  function Map<A, B>(f: A -> B, xs: seq<A>): (r: seq<B>)
    ensures |r| == |xs| && forall i :: 0 <= i < |r| ==> r[i] == f(xs[i])
  {
    seq(|xs|, i requires 0 <= i < |xs| => f(xs[i]))
  }

  lemma MapConcat<A, B>(f: A -> B, xs: seq<A>, ys: seq<A>)
    ensures Map(f, xs + ys) == Map(f, xs) + Map(f, ys)
  {
  }

  lemma MapAppend<A, B>(f: A -> B, xs: seq<A>, x: A)
    ensures Map(f, xs + [x]) == Map(f, xs) + [f(x)]
  {
  }

  // ----- Weight -----

  function Total<I>(weight: I -> nat, queue: seq<I>): nat {
    if queue == [] then 0 else weight(queue[0]) + Total(weight, queue[1..])
  }

  lemma {:induction false} TotalGrows<I>(weight: I -> nat, queue: seq<I>, more: seq<I>, w: nat)
    requires forall i :: 0 <= i < |more| ==> weight(more[i]) == w
    ensures Total(weight, queue + more) == Total(weight, queue) + |more| * w
    decreases |queue| + |more|
  {
    if queue != [] {
      assert (queue + more)[1..] == queue[1..] + more;
      TotalGrows(weight, queue[1..], more, w);
    } else if more != [] {
      assert queue + more == more && queue + more[1..] == more[1..];
      TotalGrows(weight, queue, more[1..], w);
      Distribute(|more|, w);
    }
  }

  lemma Distribute(n: nat, w: nat)
    requires n > 0
    ensures n * w == w + (n - 1) * w
  {
  }

  lemma {:induction false} FlatIsBounded<I, V>(run: I -> seq<V>, items: seq<I>, n: nat)
    requires forall i :: 0 <= i < |items| ==> |run(items[i])| <= n
    ensures |Flat(run, items)| <= |items| * n
  {
    if items != [] {
      FlatIsBounded(run, items[..|items| - 1], n);
      Distribute(|items|, n);
    }
  }

  lemma Times(m: nat, n: nat, w: nat)
    requires m <= n
    ensures m * w <= n * w
  {
  }

  // ----- How much a self-feeding queue can run -----

  function Power(n: nat, e: nat): nat {
    if e == 0 then 1 else n * Power(n, e - 1)
  }

  /** How many of `xs` have rank `d`. */
  function Count<T>(xs: seq<T>, rank: T -> nat, d: nat): nat {
    if xs == [] then 0
    else Count(xs[..|xs| - 1], rank, d) + if rank(xs[|xs| - 1]) == d then 1 else 0
  }

  lemma CountAppend<T>(xs: seq<T>, x: T, rank: T -> nat, d: nat)
    ensures Count(xs + [x], rank, d) == Count(xs, rank, d) + if rank(x) == d then 1 else 0
  {
    assert (xs + [x])[..|xs|] == xs;
  }

  lemma {:induction false} CountConcat<T>(xs: seq<T>, ys: seq<T>, rank: T -> nat, d: nat)
    ensures Count(xs + ys, rank, d) == Count(xs, rank, d) + Count(ys, rank, d)
  {
    if ys == [] {
      assert xs + ys == xs;
    } else {
      var front, last := ys[..|ys| - 1], ys[|ys| - 1];
      assert xs + ys == (xs + front) + [last];
      CountAppend(xs + front, last, rank, d);
      CountConcat(xs, front, rank, d);
    }
  }

  lemma CountPrefix<T>(xs: seq<T>, whole: seq<T>, rank: T -> nat, d: nat)
    requires xs <= whole
    ensures Count(xs, rank, d) <= Count(whole, rank, d)
  {
    assert whole == xs + whole[|xs|..];
    CountConcat(xs, whole[|xs|..], rank, d);
  }

  lemma {:induction false} CountSame<T>(xs: seq<T>, rank: T -> nat, r: nat, d: nat)
    requires forall i :: 0 <= i < |xs| ==> rank(xs[i]) == r
    ensures Count(xs, rank, d) == if r == d then |xs| else 0
  {
    if xs != [] {
      CountSame(xs[..|xs| - 1], rank, r, d);
    }
  }

  /** An item runs at most `n` visits, at its own rank; a visit queues an item one rank up. */
  ghost predicate Counted<I(!new), V(!new)>(run: I -> seq<V>, next: seq<V> -> Option<I>, visitRank: V -> nat, itemRank: I -> nat, n: nat) {
    && (forall x :: |run(x)| <= n)
    && (forall x, i :: 0 <= i < |run(x)| ==> visitRank(run(x)[i]) == itemRank(x))
    && (forall t :: next(t).Some? ==> t != [] && itemRank(next(t).value) == visitRank(t[|t| - 1]) + 1)
  }

  lemma {:induction false} CountFlat<I(!new), V(!new)>(run: I -> seq<V>, next: seq<V> -> Option<I>, visitRank: V -> nat,
                                                       itemRank: I -> nat, n: nat, items: seq<I>, d: nat)
    requires Counted(run, next, visitRank, itemRank, n)
    ensures Count(Flat(run, items), visitRank, d) <= Count(items, itemRank, d) * n
  {
    if items != [] {
      var front, item := items[..|items| - 1], items[|items| - 1];
      CountFlat(run, next, visitRank, itemRank, n, front, d);
      CountConcat(Flat(run, front), run(item), visitRank, d);
      CountSame(run(item), visitRank, itemRank(item), d);
      if itemRank(item) == d {
        Distribute(Count(items, itemRank, d), n);
      }
    }
  }

  lemma {:induction false} CountQueued<I(!new), V(!new)>(run: I -> seq<V>, next: seq<V> -> Option<I>, visitRank: V -> nat,
                                                         itemRank: I -> nat, n: nat, trace: seq<V>, d: nat)
    requires Counted(run, next, visitRank, itemRank, n)
    ensures Count(Queued(trace, next), itemRank, d) <= if d == 0 then 0 else Count(trace, visitRank, d - 1)
  {
    if trace != [] {
      var earlier := Queued(trace[..|trace| - 1], next);
      CountQueued(run, next, visitRank, itemRank, n, trace[..|trace| - 1], d);
      if next(trace).Some? {
        CountAppend(earlier, next(trace).value, itemRank, d);
      }
    }
  }

  /** n^(k+1) at rank k from `from` on, nothing below it. */
  function RankBound(n: nat, from: nat, d: nat): nat {
    if d < from then 0 else Power(n, d - from + 1)
  }

  /** At most n^(k+1) visits at rank k from the root's, and none below it, finished or cut off. */
  lemma {:induction false} SelfFeedingIsBounded<I(!new), V(!new)>(
      run: I -> seq<V>, next: seq<V> -> Option<I>, visitRank: V -> nat, itemRank: I -> nat, n: nat,
      root: I, from: nat, trace: seq<V>, d: nat)
    requires Counted(run, next, visitRank, itemRank, n)
    requires itemRank(root) == from && trace <= Flat(run, [root] + Queued(trace, next))
    ensures Count(trace, visitRank, d) <= RankBound(n, from, d)
    decreases d
  {
    var items := [root] + Queued(trace, next);
    CountPrefix(trace, Flat(run, items), visitRank, d);
    CountFlat(run, next, visitRank, itemRank, n, items, d);
    CountConcat([root], Queued(trace, next), itemRank, d);
    CountSame([root], itemRank, from, d);
    CountQueued(run, next, visitRank, itemRank, n, trace, d);
    if d > 0 {
      SelfFeedingIsBounded(run, next, visitRank, itemRank, n, root, from, trace, d - 1);
    }
    PowerStep(n, from, d, Count(items, itemRank, d));
  }

  lemma PowerStep(n: nat, from: nat, d: nat, items: nat)
    requires items <= if d < from then 0 else if d == from then 1 else Power(n, d - from)
    ensures items * n <= RankBound(n, from, d)
  {
    if d >= from {
      assert Power(n, d - from + 1) == n * Power(n, d - from);
      Times(items, Power(n, d - from), n);
    }
  }

  // ----- Layers -----

  /** Layer 0 is what the root runs; layer k + 1 what the visits of layer k queue, in order. */
  function Layer<I, V>(run: I -> seq<V>, next: V -> I, root: I, k: nat): seq<V> {
    Flat(run, LayerItems(run, next, root, k))
  }

  function LayerItems<I, V>(run: I -> seq<V>, next: V -> I, root: I, k: nat): seq<I> {
    if k == 0 then [root] else Map(next, Flat(run, LayerItems(run, next, root, k - 1)))
  }

  /** The first `k` layers, one after the other. */
  function Layers<I, V>(run: I -> seq<V>, next: V -> I, root: I, k: nat): seq<V> {
    if k == 0 then [] else Layers(run, next, root, k - 1) + Layer(run, next, root, k - 1)
  }

  function LayersItems<I, V>(run: I -> seq<V>, next: V -> I, root: I, k: nat): seq<I> {
    if k == 0 then [] else LayersItems(run, next, root, k - 1) + LayerItems(run, next, root, k - 1)
  }

  lemma {:induction false} FlatLayers<I, V>(run: I -> seq<V>, next: V -> I, root: I, k: nat)
    ensures Flat(run, LayersItems(run, next, root, k)) == Layers(run, next, root, k)
    ensures [root] + Map(next, Layers(run, next, root, k)) == LayersItems(run, next, root, k + 1)
  {
    if k > 0 {
      FlatLayers(run, next, root, k - 1);
      FlatConcat(run, LayersItems(run, next, root, k - 1), LayerItems(run, next, root, k - 1));
      MapConcat(next, Layers(run, next, root, k - 1), Layer(run, next, root, k - 1));
      Associative([root], Map(next, Layers(run, next, root, k - 1)), Map(next, Layer(run, next, root, k - 1)));
    } else {
      assert Layers(run, next, root, 0) == [] && Map(next, []) == [];
      assert LayersItems(run, next, root, 1) == [] + [root];
    }
  }

  /** A follow-up ranks one above what it follows, and beyond the limit it runs nothing. */
  ghost predicate Ranked<I(!new), V(!new)>(run: I -> seq<V>, next: V -> I, rank: I -> nat, limit: nat) {
    && (forall x, i :: 0 <= i < |run(x)| ==> rank(next(run(x)[i])) == rank(x) + 1)
    && (forall v :: rank(next(v)) >= limit ==> run(next(v)) == [])
  }

  ghost predicate NextFrom<I, V>(visits: seq<V>, next: V -> I, rank: I -> nat, d: nat) {
    forall i :: 0 <= i < |visits| ==> rank(next(visits[i])) >= d
  }

  lemma {:induction false} FlatRanks<I(!new), V(!new)>(run: I -> seq<V>, next: V -> I, rank: I -> nat, limit: nat, items: seq<I>, d: nat)
    requires Ranked(run, next, rank, limit) && forall i :: 0 <= i < |items| ==> rank(items[i]) >= d
    ensures NextFrom(Flat(run, items), next, rank, d + 1)
  {
    if items != [] {
      FlatRanks(run, next, rank, limit, items[..|items| - 1], d);
    }
  }

  lemma {:induction false} BeyondTheLimit<I(!new), V(!new)>(run: I -> seq<V>, next: V -> I, rank: I -> nat, limit: nat, visits: seq<V>)
    requires Ranked(run, next, rank, limit) && NextFrom(visits, next, rank, limit)
    ensures Flat(run, Map(next, visits)) == []
  {
    if visits != [] {
      var front := visits[..|visits| - 1];
      BeyondTheLimit(run, next, rank, limit, front);
      assert Map(next, visits) == Map(next, front) + [next(visits[|visits| - 1])];
      FlatAppend(run, Map(next, front), next(visits[|visits| - 1]));
    }
  }

  lemma {:induction false} VisitRanks<I(!new), V(!new)>(run: I -> seq<V>, next: V -> I, rank: I -> nat, limit: nat, root: I, trace: seq<V>, d: nat)
    requires Ranked(run, next, rank, limit) && trace == Flat(run, [root] + Map(next, trace)) && d <= rank(root)
    ensures NextFrom(trace, next, rank, d + 1)
  {
    if d > 0 {
      VisitRanks(run, next, rank, limit, root, trace, d - 1);
    }
    FlatRanks(run, next, rank, limit, [root] + Map(next, trace), d);
  }

  /** The items of a finished run: those of the first layers, then the follow-ups of `visits`. */
  lemma {:induction false} Unroll<I(!new), V(!new)>(run: I -> seq<V>, next: V -> I, rank: I -> nat, limit: nat, root: I, trace: seq<V>, k: nat)
    returns (visits: seq<V>)
    requires Ranked(run, next, rank, limit) && trace == Flat(run, [root] + Map(next, trace))
    ensures [root] + Map(next, trace) == LayersItems(run, next, root, k + 1) + Map(next, visits)
    ensures NextFrom(visits, next, rank, rank(root) + k + 1)
  {
    if k == 0 {
      visits := trace;
      VisitRanks(run, next, rank, limit, root, trace, rank(root));
      assert LayersItems(run, next, root, 1) == [root];
    } else {
      var before := Unroll(run, next, rank, limit, root, trace, k - 1);
      visits := Flat(run, Map(next, before));
      FlatRanks(run, next, rank, limit, Map(next, before), rank(root) + k);
      FlatLayers(run, next, root, k);
      FlatConcat(run, LayersItems(run, next, root, k), Map(next, before));
      MapConcat(next, Layers(run, next, root, k), visits);
      Associative([root], Map(next, Layers(run, next, root, k)), Map(next, visits));
    }
  }

  /** A queue that feeds itself runs its layers, one after the other, up to the limit. */
  lemma SelfFeedingIsLayered<I(!new), V(!new)>(run: I -> seq<V>, next: V -> I, rank: I -> nat, limit: nat, root: I, trace: seq<V>, m: nat)
    requires Ranked(run, next, rank, limit) && trace == Flat(run, [root] + Map(next, trace))
    requires m > 0 && rank(root) + m >= limit
    ensures trace == Layers(run, next, root, m)
  {
    var visits := Unroll(run, next, rank, limit, root, trace, m - 1);
    BeyondTheLimit(run, next, rank, limit, visits);
    FlatConcat(run, LayersItems(run, next, root, m), Map(next, visits));
    FlatLayers(run, next, root, m);
  }

  // ----- Paths -----

  function Extended<S>(path: seq<S>, steps: seq<S>): (r: seq<seq<S>>)
    ensures |r| == |steps| && forall i :: 0 <= i < |r| ==> r[i] == path + [steps[i]]
  {
    seq(|steps|, i requires 0 <= i < |steps| => path + [steps[i]])
  }

  function Extensions<S>(choose: seq<S> -> seq<S>): seq<S> -> seq<seq<S>> {
    path => Extended(path, choose(path))
  }

  /** The paths of `n` steps, in the order of a breadth-first search. */
  function Paths<S>(choose: seq<S> -> seq<S>, n: nat): seq<seq<S>> {
    if n == 0 then [[]] else Flat(Extensions(choose), Paths(choose, n - 1))
  }

  /** Each step is one of those the steps before it lead to. */
  predicate Follows<S(==)>(choose: seq<S> -> seq<S>, path: seq<S>) {
    forall i :: 0 <= i < |path| ==> path[i] in choose(path[..i])
  }

  lemma ExtendedMembers<S>(path: seq<S>, steps: seq<S>, longer: seq<S>)
    ensures longer in Extended(path, steps)
       <==> longer != [] && longer[..|longer| - 1] == path && longer[|longer| - 1] in steps
  {
    if longer != [] && longer[..|longer| - 1] == path && longer[|longer| - 1] in steps {
      var i :| 0 <= i < |steps| && steps[i] == longer[|longer| - 1];
      assert Extended(path, steps)[i] == longer;
    }
  }

  lemma {:induction false} FlatMembers<S>(choose: seq<S> -> seq<S>, paths: seq<seq<S>>, longer: seq<S>)
    ensures longer in Flat(Extensions(choose), paths)
       <==> longer != [] && longer[..|longer| - 1] in paths && longer[|longer| - 1] in choose(longer[..|longer| - 1])
  {
    if paths != [] {
      var front, last := paths[..|paths| - 1], paths[|paths| - 1];
      FlatMembers(choose, front, longer);
      ExtendedMembers(last, choose(last), longer);
      assert paths == front + [last];
    }
  }

  lemma FollowsFront<S>(choose: seq<S> -> seq<S>, path: seq<S>)
    requires path != []
    ensures var front := path[..|path| - 1];
            Follows(choose, path) <==> Follows(choose, front) && path[|path| - 1] in choose(front)
  {
    var front := path[..|path| - 1];
    forall i | 0 <= i < |front| ensures front[..i] == path[..i] && front[i] == path[i] {
    }
  }

  /** Exactly the paths of that length, none left out. */
  lemma {:induction false} PathMembers<S>(choose: seq<S> -> seq<S>, n: nat, path: seq<S>)
    ensures path in Paths(choose, n) <==> |path| == n && Follows(choose, path)
  {
    if n == 0 {
    } else {
      FlatMembers(choose, Paths(choose, n - 1), path);
      if path != [] {
        var front := path[..|path| - 1];
        PathMembers(choose, n - 1, front);
        FollowsFront(choose, path);
      }
    }
  }

  lemma {:induction false} FlatDistinct<S>(choose: seq<S> -> seq<S>, paths: seq<seq<S>>)
    requires Distinct(paths) && forall i :: 0 <= i < |paths| ==> Distinct(choose(paths[i]))
    ensures Distinct(Flat(Extensions(choose), paths))
  {
    if paths != [] {
      var front, last := paths[..|paths| - 1], paths[|paths| - 1];
      FlatDistinct(choose, front);
      var a, b := Flat(Extensions(choose), front), Extended(last, choose(last));
      forall i, j | 0 <= i < j < |b| ensures b[i] != b[j] {
        assert b[i][|last|] != b[j][|last|];
      }
      forall i, j | 0 <= i < |a| && 0 <= j < |b| ensures a[i] != b[j] {
        FlatMembers(choose, front, a[i]);
        assert a[i] in a && b[j][..|b[j]| - 1] == last;
      }
    }
  }

  /** No path twice. */
  lemma {:induction false} PathsDistinct<S(!new)>(choose: seq<S> -> seq<S>, n: nat)
    requires forall path :: Distinct(choose(path))
    ensures Distinct(Paths(choose, n))
  {
    if n > 0 {
      PathsDistinct(choose, n - 1);
      FlatDistinct(choose, Paths(choose, n - 1));
    }
  }

  /** `visit` and `item` read a path's last visit and the item it leads to off the path. */
  ghost predicate Reads<S(!new), I(!new), V(!new)>(run: I -> seq<V>, next: V -> I, root: I, choose: seq<S> -> seq<S>,
                                                   visit: seq<S> -> V, item: seq<S> -> I)
  {
    && item([]) == root
    && (forall path :: run(item(path)) == Map(visit, Extended(path, choose(path))))
    && (forall path :: path != [] ==> next(visit(path)) == item(path))
  }

  lemma {:induction false} FlatFollowsPaths<S(!new), I(!new), V(!new)>(run: I -> seq<V>, next: V -> I, root: I, choose: seq<S> -> seq<S>,
                                                     visit: seq<S> -> V, item: seq<S> -> I, paths: seq<seq<S>>)
    requires Reads(run, next, root, choose, visit, item)
    ensures Flat(run, Map(item, paths)) == Map(visit, Flat(Extensions(choose), paths))
  {
    if paths != [] {
      var front, last := paths[..|paths| - 1], paths[|paths| - 1];
      FlatFollowsPaths(run, next, root, choose, visit, item, front);
      assert Map(item, paths) == Map(item, front) + [item(last)];
      FlatAppend(run, Map(item, front), item(last));
      MapConcat(visit, Flat(Extensions(choose), front), Extended(last, choose(last)));
    }
  }

  lemma {:induction false} NoEmptyPath<S>(choose: seq<S> -> seq<S>, n: nat)
    requires n > 0
    ensures forall i :: 0 <= i < |Paths(choose, n)| ==> |Paths(choose, n)[i]| == n
  {
    forall i | 0 <= i < |Paths(choose, n)| ensures |Paths(choose, n)[i]| == n {
      assert Paths(choose, n)[i] in Paths(choose, n);
      PathMembers(choose, n, Paths(choose, n)[i]);
    }
  }

  /** The visits of layer `k` are the ends of the paths of `k + 1` steps, in their order. */
  lemma {:induction false} LayerFollowsPaths<S(!new), I(!new), V(!new)>(run: I -> seq<V>, next: V -> I, root: I, choose: seq<S> -> seq<S>,
                                                      visit: seq<S> -> V, item: seq<S> -> I, k: nat)
    requires Reads(run, next, root, choose, visit, item)
    ensures Layer(run, next, root, k) == Map(visit, Paths(choose, k + 1))
  {
    if k == 0 {
      assert LayerItems(run, next, root, 0) == Map(item, Paths(choose, 0));
    } else {
      LayerFollowsPaths(run, next, root, choose, visit, item, k - 1);
      NoEmptyPath(choose, k);
      assert LayerItems(run, next, root, k) == Map(item, Paths(choose, k));
    }
    FlatFollowsPaths(run, next, root, choose, visit, item, Paths(choose, k));
  }
}
