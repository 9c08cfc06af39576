/**
 * Two list shapes the pipeline uses more than once, stated for any
 * per-element function: a comprehension that turns each element into zero
 * or more results, and a loop that does the same but stops at the first
 * element that raises.
 */
module Lists {
  import opened Wrappers

  /** The results of `f` on the elements of `l`, in order, concatenated. */
  function FlatMap<T, U>(f: T -> seq<U>, l: seq<T>): seq<U>
    decreases |l|
  {
    if l == [] then [] else FlatMap(f, l[..|l| - 1]) + f(l[|l| - 1])
  }

  /** `[h(y) for y in s]`. */
  function Map<U, V>(h: U -> V, s: seq<U>): (r: seq<V>)
    ensures |r| == |s| && forall i :: 0 <= i < |s| ==> r[i] == h(s[i])
  {
    seq(|s|, i requires 0 <= i < |s| => h(s[i]))
  }

  /**
   * The loop over `l` that extends its result by `f` of each element and
   * propagates the first error.
   */
  function Collect<T, U, E>(f: T -> Result<seq<U>, E>, l: seq<T>): Result<seq<U>, E>
    decreases |l|
  {
    if l == [] then Ok([])
    else match Collect(f, l[..|l| - 1])
      case Err(e) => Err(e)
      case Ok(v) =>
        match f(l[|l| - 1])
        case Err(e) => Err(e)
        case Ok(w) => Ok(v + w)
  }

  lemma {:induction false} FlatMapAppend<T, U>(f: T -> seq<U>, a: seq<T>, b: seq<T>)
    ensures FlatMap(f, a + b) == FlatMap(f, a) + FlatMap(f, b)
    decreases |b|
  {
    if b != [] {
      var init := b[..|b| - 1];
      var last := b[|b| - 1];
      assert (a + b)[..|a + b| - 1] == a + init;
      assert (a + b)[|a + b| - 1] == last;
      FlatMapAppend(f, a, init);
      calc {
        FlatMap(f, a + b);
        FlatMap(f, a + init) + f(last);
        FlatMap(f, a) + FlatMap(f, init) + f(last);
        FlatMap(f, a) + (FlatMap(f, init) + f(last));
      }
    } else {
      assert a + b == a;
    }
  }

  /** A result comes from some element. */
  lemma {:induction false} FlatMapMembers<T, U>(f: T -> seq<U>, l: seq<T>, y: U)
    ensures y in FlatMap(f, l) <==> exists i :: 0 <= i < |l| && y in f(l[i])
    decreases |l|
  {
    if l != [] {
      var init := l[..|l| - 1];
      FlatMapMembers(f, init, y);
      if y in FlatMap(f, init) {
        var i :| 0 <= i < |init| && y in f(init[i]);
        assert l[i] == init[i];
      }
      if exists i :: 0 <= i < |l| && y in f(l[i]) {
        var i :| 0 <= i < |l| && y in f(l[i]);
        if i < |l| - 1 {
          assert init[i] == l[i];
        }
      }
    }
  }

  /** Rearranging the elements rearranges the results. */
  lemma {:induction false} FlatMapPermutation<T, U>(f: T -> seq<U>, a: seq<T>, b: seq<T>)
    requires multiset(a) == multiset(b)
    ensures multiset(FlatMap(f, a)) == multiset(FlatMap(f, b))
    decreases |a|
  {
    if a == [] {
      assert |b| == |multiset(b)| == 0;
    } else {
      var init := a[..|a| - 1];
      var h := a[|a| - 1];
      var i := TakeOut(a, b);
      FlatMapPermutation(f, init, b[..i] + b[i + 1..]);
      FlatMapSplice(f, b[..i], h, b[i + 1..]);
      assert b == b[..i] + [h] + b[i + 1..];
    }
  }

  /** Where the last element of `a` sits in its rearrangement `b`, and what is left of both without it. */
  lemma TakeOut<T>(a: seq<T>, b: seq<T>) returns (i: nat)
    requires multiset(a) == multiset(b) && a != []
    ensures i < |b| && b[i] == a[|a| - 1]
    ensures multiset(b[..i] + b[i + 1..]) == multiset(a[..|a| - 1])
  {
    var h := a[|a| - 1];
    assert h in multiset(a);
    i :| 0 <= i < |b| && b[i] == h;
    RemoveAt(b, i);
    RemoveAt(a, |a| - 1);
    assert a[..|a| - 1] + a[|a|..] == a[..|a| - 1];
  }

  lemma RemoveAt<T>(b: seq<T>, i: nat)
    requires i < |b|
    ensures multiset(b[..i] + b[i + 1..]) == multiset(b) - multiset{b[i]}
  {
    assert b == b[..i] + [b[i]] + b[i + 1..];
  }

  /** Putting `h` between `p` and `q` adds the results of `h`. */
  lemma FlatMapSplice<T, U>(f: T -> seq<U>, p: seq<T>, h: T, q: seq<T>)
    ensures multiset(FlatMap(f, p + [h] + q)) == multiset(FlatMap(f, p + q)) + multiset(f(h))
  {
    FlatMapAppend(f, p, q);
    FlatMapAppend(f, p + [h], q);
    FlatMapAppend(f, p, [h]);
    assert FlatMap(f, [h]) == f(h) by {
      assert [h][..0] == [];
    }
  }

  /** Projecting the results is the same as flat-mapping the projected function. */
  lemma {:induction false} FlatMapProject<T, U, V>(f: T -> seq<U>, g: T -> seq<V>, h: U -> V, l: seq<T>)
    requires forall i :: 0 <= i < |l| ==> Map(h, f(l[i])) == g(l[i])
    ensures Map(h, FlatMap(f, l)) == FlatMap(g, l)
    decreases |l|
  {
    if l != [] {
      var init := l[..|l| - 1];
      assert forall i :: 0 <= i < |init| ==> init[i] == l[i];
      FlatMapProject(f, g, h, init);
      MapAppend(h, FlatMap(f, init), f(l[|l| - 1]));
    }
  }

  lemma AppendAssoc<T>(a: seq<T>, b: seq<T>, c: seq<T>)
    ensures (a + b) + c == a + (b + c)
  {
  }

  lemma MapAppend<U, V>(h: U -> V, a: seq<U>, b: seq<U>)
    ensures Map(h, a + b) == Map(h, a) + Map(h, b)
  {
  }

  /** Keeping some elements of an ascending sequence, in order, leaves it ascending. */
  lemma {:induction false} FilterAscending(f: int -> seq<int>, l: seq<int>)
    requires forall x :: f(x) == [] || f(x) == [x]
    requires forall i, j :: 0 <= i < j < |l| ==> l[i] <= l[j]
    ensures forall i, j :: 0 <= i < j < |FlatMap(f, l)| ==> FlatMap(f, l)[i] <= FlatMap(f, l)[j]
    decreases |l|
  {
    if l != [] {
      var init := l[..|l| - 1];
      var last := l[|l| - 1];
      FilterAscending(f, init);
      var v := FlatMap(f, init);
      forall i | 0 <= i < |v| ensures v[i] <= last {
        FlatMapMembers(f, init, v[i]);
        var k :| 0 <= k < |init| && v[i] in f(init[k]);
        assert l[k] == init[k];
      }
    }
  }

  /**
   * The loop fails exactly when some element raises, and then with the
   * error of the first such element; otherwise it yields the results of all
   * elements, given by any `g` that agrees with `f` where `f` succeeds.
   */
  lemma {:induction false} CollectFails<T, U, E>(f: T -> Result<seq<U>, E>, l: seq<T>)
    ensures Collect(f, l).Err? <==> exists i :: 0 <= i < |l| && f(l[i]).Err?
    ensures Collect(f, l).Err? ==>
              exists i :: 0 <= i < |l| && f(l[i]) == Err(Collect(f, l).error) && forall j :: 0 <= j < i ==> f(l[j]).Ok?
    decreases |l|
  {
    if l != [] {
      var init := l[..|l| - 1];
      CollectFails(f, init);
      if Collect(f, init).Err? {
        var i :| 0 <= i < |init| && f(init[i]) == Err(Collect(f, init).error) && forall j :: 0 <= j < i ==> f(init[j]).Ok?;
        assert l[i] == init[i];
        forall j | 0 <= j < i ensures f(l[j]).Ok? {
          assert l[j] == init[j];
        }
      } else {
        forall j | 0 <= j < |init| ensures f(l[j]).Ok? {
          assert l[j] == init[j];
        }
      }
    }
  }

  lemma {:induction false} CollectValues<T, U, E>(f: T -> Result<seq<U>, E>, g: T -> seq<U>, l: seq<T>)
    requires forall x :: f(x).Ok? ==> f(x).value == g(x)
    ensures Collect(f, l).Ok? ==> Collect(f, l).value == FlatMap(g, l)
    decreases |l|
  {
    if l != [] {
      CollectValues(f, g, l[..|l| - 1]);
    }
  }

  /** The loop over one more element. */
  lemma CollectPrefix<T, U, E>(f: T -> Result<seq<U>, E>, l: seq<T>, i: nat)
    requires i < |l|
    ensures Collect(f, l[..i + 1]) ==
              match Collect(f, l[..i])
              case Err(e) => Err(e)
              case Ok(v) => match f(l[i]) case Err(e) => Err(e) case Ok(w) => Ok(v + w)
  {
    assert l[..i + 1][..i] == l[..i];
  }

  /** Once the loop has raised, the later elements do not matter. */
  lemma {:induction false} CollectErrStays<T, U, E>(f: T -> Result<seq<U>, E>, l: seq<T>, i: nat)
    requires i <= |l| && Collect(f, l[..i]).Err?
    ensures Collect(f, l) == Collect(f, l[..i])
    decreases |l| - i
  {
    if i < |l| {
      CollectPrefix(f, l, i);
      CollectErrStays(f, l, i + 1);
    } else {
      assert l[..i] == l;
    }
  }
}
