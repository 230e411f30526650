/**
 * The section loop of report generation, independent of what a section is: each pass makes one
 * call and either contributes a section (and, for the key figures pass, the key figures) or
 * raises, which ends the run.
 */
module SectionLoop {
  import opened Wrappers

  /** What one pass contributes: its section, and the key figures when it is the key figures pass. */
  datatype Pass<S, K> = Pass(section: S, figures: seq<K>)

  /** One pass: the call it makes, whether it is the key figures pass, and what it makes of the answer. */
  datatype Step<Q, S, K, E> = Step(request: Q, keyFigures: bool, result: Result<Pass<S, K>, E>)

  /** The state of the loop: the sections so far, the key figures, the calls made, an error. */
  datatype Progress<Q, S, K, E> = Progress(sections: seq<S>, figures: seq<K>, requests: seq<Q>, error: Option<E>)

  /** The section loop after the first `n` passes, stopping at the first error. */
  function Loop<Q, S, K, E>(steps: seq<Step<Q, S, K, E>>, n: nat): Progress<Q, S, K, E>
    requires n <= |steps|
  {
    if n == 0 then Progress([], [], [], None)
    else
      var p := Loop(steps, n - 1);
      if p.error.Some? then p
      else
        var st := steps[n - 1];
        match st.result
        case Failure(e) => Progress(p.sections, p.figures, p.requests + [st.request], Some(e))
        case Success(d) =>
          Progress(p.sections + [d.section], if st.keyFigures then d.figures else p.figures,
                   p.requests + [st.request], None)
  }

  /** The section loop run over all its passes. */
  function Drafted<Q, S, K, E>(steps: seq<Step<Q, S, K, E>>): Progress<Q, S, K, E> {
    Loop(steps, |steps|)
  }

  /**
   * The loop cut short before pass `f` by a failure `e` that happens before that pass makes its
   * call: the first `f` passes run as `Loop` says, and if none of them raised, the run raises `e`.
   */
  function Halted<Q, S, K, E>(steps: seq<Step<Q, S, K, E>>, f: nat, e: E): Progress<Q, S, K, E>
    requires f <= |steps|
  {
    var p := Loop(steps, f);
    if p.error.None? && f < |steps| then Progress(p.sections, p.figures, p.requests, Some(e)) else p
  }

  /**
   * How a cut-short loop ends: with `e` after the calls of the first `f` passes, all of which
   * succeeded; or, when one of them raised, exactly as the loop over them, stopped at that pass.
   */
  lemma HaltedFailure<Q, S, K, E>(steps: seq<Step<Q, S, K, E>>, f: nat, e: E)
    requires f <= |steps|
    ensures var h := Halted(steps, f, e);
            var p := Loop(steps, f);
            (p.error.None? && f < |steps| ==>
               h.error == Some(e) && |h.requests| == f
               && forall i :: 0 <= i < f ==> steps[i].result.Success? && h.requests[i] == steps[i].request)
            && (p.error.Some? ==>
                  h == p && 0 < |p.requests| <= f && steps[|p.requests| - 1].result == Failure(p.error.value)
                  && forall i :: 0 <= i < |p.requests| ==> h.requests[i] == steps[i].request)
            && (f == |steps| ==> h == p)
  {
    LoopRequests(steps, f);
    LoopError(steps, f);
    LoopSections(steps, f);
  }

  /**
   * When no pass raises `e`, a loop cut short before pass `f` raises `e` exactly when the first
   * `f` passes all succeed, and then after exactly their calls.
   */
  lemma HaltedIff<Q, S, K, E>(steps: seq<Step<Q, S, K, E>>, f: nat, e: E)
    requires f < |steps|
    requires forall i :: 0 <= i < |steps| && steps[i].result.Failure? ==> steps[i].result.error != e
    ensures var h := Halted(steps, f, e);
            h.error.Some?
            && ((forall i :: 0 <= i < f ==> steps[i].result.Success?) <==> h.error == Some(e))
            && (h.error == Some(e) ==>
                  |h.requests| == f && forall i :: 0 <= i < f ==> h.requests[i] == steps[i].request)
  {
    HaltedFailure(steps, f, e);
  }

  /**
   * A cut-short loop that raises raises either `e`, after the calls of the first `f` passes, or
   * the error of its last pass.
   */
  lemma HaltedStops<Q, S, K, E>(steps: seq<Step<Q, S, K, E>>, f: nat, e: E)
    requires f <= |steps| && Halted(steps, f, e).error.Some?
    ensures var h := Halted(steps, f, e);
            (h.error == Some(e) && |h.requests| == f < |steps|)
            || (0 < |h.requests| <= f && steps[|h.requests| - 1].result == Failure(h.error.value))
  {
    HaltedFailure(steps, f, e);
  }

  /** A loop cut short before a pass it reaches without raising raises `e` there. */
  lemma HaltedAtCut<Q, S, K, E>(steps: seq<Step<Q, S, K, E>>, f: nat, e: E)
    requires f < |steps| && Loop(steps, f).error.None?
    ensures var p := Loop(steps, f);
            Halted(steps, f, e) == Progress(p.sections, p.figures, p.requests, Some(e))
  {
  }

  /** A loop cut short after its last pass is the whole loop. */
  lemma HaltedComplete<Q, S, K, E>(steps: seq<Step<Q, S, K, E>>, e: E)
    ensures Halted(steps, |steps|, e) == Loop(steps, |steps|)
  {
  }

  /** A pass before the cut that raises ends the cut-short loop as it ends the loop. */
  lemma HaltedAfterFailure<Q, S, K, E>(steps: seq<Step<Q, S, K, E>>, f: nat, e: E, k: nat)
    requires k < f <= |steps| && Loop(steps, k).error.None? && steps[k].result.Failure?
    ensures Halted(steps, f, e) == Loop(steps, k + 1)
  {
    LoopStop(steps, k + 1);
  }

  /** Once the loop has stopped it stays stopped. */
  lemma {:induction false} LoopStop<Q, S, K, E>(steps: seq<Step<Q, S, K, E>>, n: nat)
    requires 0 < n <= |steps|
    requires Loop(steps, n - 1).error.None? && steps[n - 1].result.Failure?
    ensures forall m :: n <= m <= |steps| ==> Loop(steps, m) == Loop(steps, n)
  {
    forall m | n <= m <= |steps| ensures Loop(steps, m) == Loop(steps, n) {
      LoopStopAt(steps, n, m);
    }
  }

  lemma {:induction false} LoopStopAt<Q, S, K, E>(steps: seq<Step<Q, S, K, E>>, n: nat, m: nat)
    requires 0 < n <= m <= |steps|
    requires Loop(steps, n - 1).error.None? && steps[n - 1].result.Failure?
    ensures Loop(steps, m) == Loop(steps, n)
    decreases m
  {
    if m > n {
      LoopStopAt(steps, n, m - 1);
    }
  }

  /** The loop makes the passes' calls in order, one per pass, until the first failure. */
  lemma {:induction false} LoopRequests<Q, S, K, E>(steps: seq<Step<Q, S, K, E>>, n: nat)
    requires n <= |steps|
    ensures var p := Loop(steps, n);
            |p.requests| <= n && (p.error.None? ==> |p.requests| == n)
            && forall i :: 0 <= i < |p.requests| ==> p.requests[i] == steps[i].request
  {
    if n > 0 {
      LoopRequests(steps, n - 1);
    }
  }

  /** An error is the failure of the last call made. */
  lemma {:induction false} LoopError<Q, S, K, E>(steps: seq<Step<Q, S, K, E>>, n: nat)
    requires n <= |steps|
    ensures var p := Loop(steps, n);
            p.error.Some? ==> 0 < |p.requests| <= n && steps[|p.requests| - 1].result == Failure(p.error.value)
  {
    if n > 0 {
      LoopError(steps, n - 1);
      LoopRequests(steps, n - 1);
    }
  }

  /** The sections so far are those of the passes that succeeded: every pass but a failing last one. */
  lemma {:induction false} LoopSections<Q, S, K, E>(steps: seq<Step<Q, S, K, E>>, n: nat)
    requires n <= |steps|
    ensures var p := Loop(steps, n);
            |p.sections| == |p.requests| - (if p.error.Some? then 1 else 0) && |p.sections| <= n
            && forall i :: 0 <= i < |p.sections| ==>
                 steps[i].result.Success? && p.sections[i] == steps[i].result.value.section
  {
    if n > 0 {
      var p := Loop(steps, n - 1);
      LoopSections(steps, n - 1);
      LoopRequests(steps, n - 1);
      if p.error.None? {
        var q := Loop(steps, n);
        if steps[n - 1].result.Success? {
          assert q.sections == p.sections + [steps[n - 1].result.value.section];
          assert q.requests == p.requests + [steps[n - 1].request];
        } else {
          assert q.sections == p.sections && q.requests == p.requests + [steps[n - 1].request];
        }
      }
    }
  }

  /**
   * With one key figures pass `q`, the key figures are that pass's once it succeeded, and none
   * before.
   */
  lemma {:induction false} LoopFigures<Q, S, K, E>(steps: seq<Step<Q, S, K, E>>, n: nat, q: nat)
    requires n <= |steps|
    requires forall i :: 0 <= i < |steps| ==> (steps[i].keyFigures <==> i == q)
    ensures var p := Loop(steps, n);
            if |p.sections| > q
            then q < |steps| && steps[q].result.Success? && p.figures == steps[q].result.value.figures
            else p.figures == []
  {
    if n > 0 {
      var p := Loop(steps, n - 1);
      var r := Loop(steps, n);
      LoopFigures(steps, n - 1, q);
      LoopRequests(steps, n - 1);
      LoopSections(steps, n - 1);
      if p.error.Some? {
        assert r == p;
      } else {
        match steps[n - 1].result
        case Failure(e) =>
          assert r.sections == p.sections && r.figures == p.figures;
        case Success(d) =>
          assert r.sections == p.sections + [d.section];
          assert |p.sections| == n - 1;
          if n - 1 == q {
            assert r.figures == d.figures;
          } else {
            assert r.figures == p.figures;
          }
      }
    }
  }
}
