/** Small vocabulary shared by every module: optional values and order-preserving filtering. */
module Basics {

  datatype Option<+T> = None | Some(value: T)

  datatype Result<+T, +E> = Ok(value: T) | Err(error: E)

  /** The elements of `xs` that satisfy `p`, in order (what `Vec::retain` keeps). */
  function Filter<T>(xs: seq<T>, p: T -> bool): (r: seq<T>)
  {
    if xs == [] then []
    else
      var rest := Filter(xs[..|xs| - 1], p);
      if p(xs[|xs| - 1]) then rest + [xs[|xs| - 1]] else rest
  }

  predicate Distinct<T(==)>(xs: seq<T>) {
    forall i, j :: 0 <= i < j < |xs| ==> xs[i] != xs[j]
  }

  function Min(a: nat, b: nat): nat { if a <= b then a else b }

  /** Where `x` first stands, or the length when it does not. */
  function IndexOf<T(==)>(xs: seq<T>, x: T): (i: nat)
    ensures i <= |xs| && (i < |xs| ==> xs[i] == x)
    ensures forall j :: 0 <= j < i ==> xs[j] != x
  {
    if xs == [] || xs[0] == x then 0
    else
      var i := IndexOf(xs[1..], x) + 1;
      assert forall j :: 1 <= j < i ==> xs[j] == xs[1..][j - 1];
      i
  }

  /** The parts, one after the other. */
  function Flatten<T>(parts: seq<seq<T>>): seq<T> {
    if parts == [] then [] else Flatten(parts[..|parts| - 1]) + parts[|parts| - 1]
  }

  lemma FlattenAppend<T>(parts: seq<seq<T>>, part: seq<T>)
    ensures Flatten(parts + [part]) == Flatten(parts) + part
  {
    assert (parts + [part])[..|parts|] == parts;
  }

  lemma {:induction false} FlattenConcat<T>(a: seq<seq<T>>, b: seq<seq<T>>)
    ensures Flatten(a + b) == Flatten(a) + Flatten(b)
  {
    if b == [] {
      assert a + b == a;
    } else {
      var front, last := b[..|b| - 1], b[|b| - 1];
      assert a + b == (a + front) + [last];
      FlattenAppend(a + front, last);
      FlattenConcat(a, front);
      Associative(Flatten(a), Flatten(front), last);
    }
  }

  lemma FlattenOne<T>(part: seq<T>)
    ensures Flatten([part]) == part
  {
    FlattenAppend([], part);
    assert [] + [part] == [part] && [] + part == part;
  }

  lemma FlattenFirst<T>(parts: seq<seq<T>>)
    requires parts != []
    ensures Flatten(parts) == parts[0] + Flatten(parts[1..])
  {
    assert parts == [parts[0]] + parts[1..];
    FlattenConcat([parts[0]], parts[1..]);
    FlattenOne(parts[0]);
  }

  lemma Associative<T>(a: seq<T>, b: seq<T>, c: seq<T>)
    ensures (a + b) + c == a + (b + c)
  {
  }

  lemma FilterAppend<T>(xs: seq<T>, x: T, p: T -> bool)
    ensures Filter(xs + [x], p) == if p(x) then Filter(xs, p) + [x] else Filter(xs, p)
  {
    assert (xs + [x])[..|xs|] == xs;
  }

  lemma {:induction false} FilterConcat<T>(xs: seq<T>, ys: seq<T>, p: T -> bool)
    ensures Filter(xs + ys, p) == Filter(xs, p) + Filter(ys, p)
  {
    if ys == [] {
      assert xs + ys == xs;
    } else {
      var front, last := ys[..|ys| - 1], ys[|ys| - 1];
      assert xs + ys == (xs + front) + [last];
      FilterAppend(xs + front, last, p);
      FilterConcat(xs, front, p);
    }
  }

  lemma {:induction false} FilterMembers<T>(xs: seq<T>, p: T -> bool)
    ensures forall x :: x in Filter(xs, p) <==> x in xs && p(x)
  {
    if xs != [] {
      FilterMembers(xs[..|xs| - 1], p);
      assert xs == xs[..|xs| - 1] + [xs[|xs| - 1]];
    }
  }

  lemma FilterMember<T>(xs: seq<T>, p: T -> bool, x: T)
    ensures x in Filter(xs, p) <==> x in xs && p(x)
  {
    FilterMembers(xs, p);
  }

  lemma {:induction false} FilterAll<T>(xs: seq<T>, p: T -> bool)
    requires forall x :: x in xs ==> p(x)
    ensures Filter(xs, p) == xs
  {
    if xs != [] {
      FilterAll(xs[..|xs| - 1], p);
      assert xs == xs[..|xs| - 1] + [xs[|xs| - 1]];
    }
  }

  lemma {:induction false} FilterNone<T>(xs: seq<T>, p: T -> bool)
    requires forall x :: x in xs ==> !p(x)
    ensures Filter(xs, p) == []
  {
    if xs != [] {
      FilterNone(xs[..|xs| - 1], p);
      assert xs == xs[..|xs| - 1] + [xs[|xs| - 1]];
    }
  }

  /** Where an element that passes stands among those that pass. */
  lemma FilterAt<T>(xs: seq<T>, p: T -> bool, i: nat)
    requires i < |xs| && p(xs[i])
    ensures |Filter(xs[..i], p)| < |Filter(xs, p)| && Filter(xs, p)[|Filter(xs[..i], p)|] == xs[i]
    ensures Filter(xs, p)[..|Filter(xs[..i], p)|] == Filter(xs[..i], p)
  {
    assert xs == (xs[..i] + [xs[i]]) + xs[i + 1..];
    FilterConcat(xs[..i] + [xs[i]], xs[i + 1..], p);
    FilterAppend(xs[..i], xs[i], p);
  }

  /** Every element that passed stands somewhere in the whole. */
  lemma {:induction false} FilterOrigin<T>(xs: seq<T>, p: T -> bool, j: nat) returns (i: nat)
    requires j < |Filter(xs, p)|
    ensures i < |xs| && p(xs[i]) && xs[i] == Filter(xs, p)[j] && |Filter(xs[..i], p)| == j
  {
    var front := xs[..|xs| - 1];
    if j < |Filter(front, p)| {
      i := FilterOrigin(front, p, j);
      assert xs[..i] == front[..i];
    } else {
      i := |xs| - 1;
    }
  }

  lemma {:induction false} FilterCommutes<T>(xs: seq<T>, p: T -> bool, q: T -> bool)
    ensures Filter(Filter(xs, p), q) == Filter(Filter(xs, q), p)
  {
    if xs != [] {
      var front, last := xs[..|xs| - 1], xs[|xs| - 1];
      FilterCommutes(front, p, q);
      FilterAppend(Filter(front, p), last, q);
      FilterAppend(Filter(front, q), last, p);
    }
  }

  /** Filtering first by a weaker test changes nothing. */
  lemma {:induction false} FilterAbsorbs<T>(xs: seq<T>, weak: T -> bool, strong: T -> bool)
    requires forall x :: x in xs && strong(x) ==> weak(x)
    ensures Filter(Filter(xs, weak), strong) == Filter(xs, strong)
  {
    if xs != [] {
      var front, last := xs[..|xs| - 1], xs[|xs| - 1];
      assert last in xs && forall x :: x in front ==> x in xs;
      FilterAbsorbs(front, weak, strong);
      FilterAppend(Filter(front, weak), last, strong);
    }
  }
}
