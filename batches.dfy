/**
 * Feeding a batch of lines, one at a time, to a parser that keeps state and
 * may return a result for each line; the results that are not None are
 * collected in order. This is the shape of the Gemini adapter's per-line
 * loop.
 */
module Batches {
  import opened Wrappers

  /** A parser's new state and what it returned for one line. */
  datatype Stepped<S, R> = Stepped(state: S, result: Option<R>)

  /** The state after a batch and every result it returned, in order. */
  datatype Run<S, R> = Run(state: S, results: seq<R>)

  function RunAll<S, L, R>(step: (S, L) -> Stepped<S, R>, s: S, lines: seq<L>): Run<S, R> {
    if |lines| == 0 then Run(s, [])
    else
      var before := RunAll(step, s, lines[..|lines| - 1]);
      var next := step(before.state, lines[|lines| - 1]);
      Run(next.state, before.results + (if next.result.Some? then [next.result.value] else []))
  }

  /** Line `i`, parsed in the state the lines before it left, returns a result. */
  predicate Produces<S, L, R>(step: (S, L) -> Stepped<S, R>, s: S, lines: seq<L>, i: int)
    requires 0 <= i < |lines|
  {
    step(RunAll(step, s, lines[..i]).state, lines[i]).result.Some?
  }

  /** One more line: the state moves on by one step and its result, if any, is appended. */
  lemma {:induction false} RunAllStep<S, L, R>(step: (S, L) -> Stepped<S, R>, s: S, lines: seq<L>, i: int)
    requires 0 <= i < |lines|
    ensures var run := RunAll(step, s, lines[..i]); var next := step(run.state, lines[i]);
      RunAll(step, s, lines[..i + 1]) == Run(next.state, run.results + (if next.result.Some? then [next.result.value] else []))
  {
    assert lines[..i + 1][..i] == lines[..i];
  }

  /** A batch returned some result exactly when some line, parsed in the state before it, returned one. */
  lemma {:induction false} ResultsIffSomeLine<S, L, R>(step: (S, L) -> Stepped<S, R>, s: S, lines: seq<L>)
    ensures |RunAll(step, s, lines).results| > 0 <==> exists i :: 0 <= i < |lines| && Produces(step, s, lines, i)
  {
    if |lines| > 0 {
      var n := |lines| - 1;
      var init := lines[..n];
      var run := RunAll(step, s, init);
      ResultsIffSomeLine(step, s, init);
      if |run.results| > 0 {
        var i :| 0 <= i < n && Produces(step, s, init, i);
        assert init[..i] == lines[..i];
        assert Produces(step, s, lines, i);
      } else if step(run.state, lines[n]).result.Some? {
        assert Produces(step, s, lines, n);
      } else {
        forall i | 0 <= i < |lines| ensures !Produces(step, s, lines, i) {
          if i < n {
            assert init[..i] == lines[..i];
            assert !Produces(step, s, init, i);
          }
        }
      }
    }
  }
}
