/**
 * The scanning discipline of `re.findall`, apart from any one pattern: a
 * match is tried at each position from left to right, and after a match the
 * scan resumes where that match ended. A pattern is given as a matcher
 * `m`: `m(j)` is the value a match starting at position `j` yields and the
 * position where that match ends, or `None` when the pattern does not
 * match at `j`.
 */
module Scanning {
  import opened Wrappers

  /** A matcher over a text of length `n`: every match ends after it starts and within the text. */
  ghost predicate Advancing<R>(m: nat -> Option<(R, nat)>, n: nat) {
    forall j: nat :: j <= n && m(j).Some? ==> j < m(j).value.1 <= n
  }

  /** `re.findall` from position `i` on: the values of the non-overlapping matches, in order. */
  function FindAll<R>(m: nat -> Option<(R, nat)>, n: nat, i: nat): seq<R>
    requires i <= n && Advancing(m, n)
    decreases n - i
  {
    match m(i)
    case Some((x, q)) => [x] + FindAll(m, n, q)
    case None => if i == n then [] else FindAll(m, n, i + 1)
  }

  /** Where each match that `FindAll(m, n, i)` reports starts and ends. */
  ghost function Spans<R>(m: nat -> Option<(R, nat)>, n: nat, i: nat): (r: seq<(nat, nat)>)
    requires i <= n && Advancing(m, n)
    ensures forall k :: 0 <= k < |r| ==> i <= r[k].0 < r[k].1 <= n
    ensures forall k, l :: 0 <= k < l < |r| ==> r[k].1 <= r[l].0
    decreases n - i
  {
    match m(i)
    case Some((x, q)) => [(i, q)] + Spans(m, n, q)
    case None => if i == n then [] else Spans(m, n, i + 1)
  }

  /** The values reported are those of the matches at the spans, one for one and in order. */
  lemma {:induction false} FindAllAreMatches<R>(m: nat -> Option<(R, nat)>, n: nat, i: nat)
    requires i <= n && Advancing(m, n)
    ensures |Spans(m, n, i)| == |FindAll(m, n, i)|
    ensures forall k :: 0 <= k < |Spans(m, n, i)| ==>
              m(Spans(m, n, i)[k].0) == Some((FindAll(m, n, i)[k], Spans(m, n, i)[k].1))
    decreases n - i
  {
    match m(i)
    case Some((x, q)) =>
      FindAllAreMatches(m, n, q);
    case None =>
      if i < n {
        FindAllAreMatches(m, n, i + 1);
      }
  }

  /** Position `p` lies inside one of the spans. */
  ghost predicate Covered(spans: seq<(nat, nat)>, p: nat) {
    exists k :: 0 <= k < |spans| && spans[k].0 <= p < spans[k].1
  }

  /**
   * No match is missed: every position from `i` on where the pattern
   * matches lies inside a reported span (a match that starts inside an
   * earlier one is not reported).
   */
  lemma {:induction false} FindAllMissesNoMatch<R>(m: nat -> Option<(R, nat)>, n: nat, i: nat, p: nat)
    requires i <= n && Advancing(m, n)
    requires i <= p <= n && m(p).Some?
    ensures Covered(Spans(m, n, i), p)
    decreases n - i
  {
    var spans := Spans(m, n, i);
    match m(i)
    case Some((x, q)) =>
      if p < q {
        assert spans[0].0 <= p < spans[0].1;
      } else {
        FindAllMissesNoMatch(m, n, q, p);
        var spans' := Spans(m, n, q);
        var k :| 0 <= k < |spans'| && spans'[k].0 <= p < spans'[k].1;
        assert spans[k + 1] == spans'[k];
      }
    case None =>
      FindAllMissesNoMatch(m, n, i + 1, p);
  }

  /** Positions where the pattern does not match are stepped over. */
  lemma {:induction false} FindAllSkips<R>(m: nat -> Option<(R, nat)>, n: nat, i: nat, j: nat)
    requires i <= j <= n && Advancing(m, n)
    requires forall p :: i <= p < j ==> m(p).None?
    ensures FindAll(m, n, i) == FindAll(m, n, j)
    decreases j - i
  {
    if i < j {
      FindAllSkips(m, n, i + 1, j);
    }
  }

  /** Where the pattern never matches, nothing is reported. */
  lemma FindAllNone<R>(m: nat -> Option<(R, nat)>, n: nat, i: nat)
    requires i <= n && Advancing(m, n)
    requires forall p :: i <= p <= n ==> m(p).None?
    ensures FindAll(m, n, i) == []
  {
    FindAllSkips(m, n, i, n);
  }

  /** A match at `i` is reported, and the scan goes on where it ends. */
  lemma FindAllStep<R>(m: nat -> Option<(R, nat)>, n: nat, i: nat, x: R, q: nat)
    requires i <= n && Advancing(m, n) && m(i) == Some((x, q))
    ensures FindAll(m, n, i) == [x] + FindAll(m, n, q)
  {
  }

  /** A position where nothing matches is stepped over. */
  lemma FindAllNext<R>(m: nat -> Option<(R, nat)>, n: nat, i: nat)
    requires i < n && Advancing(m, n) && m(i).None?
    ensures FindAll(m, n, i) == FindAll(m, n, i + 1)
  {
  }
}
