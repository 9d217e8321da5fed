/**
 * The dispatcher boundary. The real dispatcher is a network client; here it is
 * an oracle that records every call it receives and answers the n-th call of its
 * lifetime with `outcome(n)`: None for success, or the exception it raises.
 */
module Dispatch {
  import opened Types

  class Dispatcher {
    /** Every call received so far, in order, including a call that failed. */
    var calls: seq<DispatchCall>
    const outcome: nat -> Option<DispatchFailure>

    constructor (outcome: nat -> Option<DispatchFailure>)
      ensures calls == [] && this.outcome == outcome
    {
      calls := [];
      this.outcome := outcome;
    }

    method AddDocuments(pkg: DispatcherPackage) returns (failure: Option<DispatchFailure>)
      modifies this
      ensures calls == old(calls) + [DispatchCall(CallKind.AddDocuments, pkg)]
      ensures failure == outcome(|old(calls)|)
    {
      failure := outcome(|calls|);
      calls := calls + [DispatchCall(CallKind.AddDocuments, pkg)];
    }

    method RemoveFromCloudSearch(pkg: DispatcherPackage) returns (failure: Option<DispatchFailure>)
      modifies this
      ensures calls == old(calls) + [DispatchCall(CallKind.RemoveFromCloudSearch, pkg)]
      ensures failure == outcome(|old(calls)|)
    {
      failure := outcome(|calls|);
      calls := calls + [DispatchCall(CallKind.RemoveFromCloudSearch, pkg)];
    }
  }

  /** The calls the dispatch loops make for a list of batches: one per non-empty batch, in order. */
  function Calls(kind: CallKind, request: ClientRequest, batches: seq<DocumentBatch>): seq<DispatchCall>
  {
    if batches == [] then []
    else (if |batches[0]| > 0 then [DispatchCall(kind, DispatcherPackage(Persist, request, batches[0]))] else [])
         + Calls(kind, request, batches[1..])
  }

  lemma {:induction false} CallsAppend(kind: CallKind, request: ClientRequest, a: seq<DocumentBatch>, b: seq<DocumentBatch>)
    ensures Calls(kind, request, a + b) == Calls(kind, request, a) + Calls(kind, request, b)
  {
    if a != [] {
      assert (a + b)[0] == a[0] && (a + b)[1..] == a[1..] + b;
      CallsAppend(kind, request, a[1..], b);
      var head := if |a[0]| > 0 then [DispatchCall(kind, DispatcherPackage(Persist, request, a[0]))] else [];
      assert Calls(kind, request, a) == head + Calls(kind, request, a[1..]);
      AppendAssoc(head, Calls(kind, request, a[1..]), Calls(kind, request, b));
    } else {
      assert a + b == b;
    }
  }

  lemma AppendAssoc<T>(x: seq<T>, y: seq<T>, z: seq<T>)
    ensures (x + y) + z == x + (y + z)
  {
  }

  /** When no batch is empty the size guard skips nothing: exactly one call per batch, in order. */
  lemma {:induction false} CallsOfNonEmpty(kind: CallKind, request: ClientRequest, batches: seq<DocumentBatch>)
    requires forall j :: 0 <= j < |batches| ==> |batches[j]| > 0
    ensures |Calls(kind, request, batches)| == |batches|
    ensures forall j :: 0 <= j < |batches| ==>
      Calls(kind, request, batches)[j] == DispatchCall(kind, DispatcherPackage(Persist, request, batches[j]))
  {
    if batches != [] {
      CallsOfNonEmpty(kind, request, batches[1..]);
      var c := Calls(kind, request, batches);
      var rest := Calls(kind, request, batches[1..]);
      assert c == [DispatchCall(kind, DispatcherPackage(Persist, request, batches[0]))] + rest;
      forall j | 0 <= j < |batches|
        ensures c[j] == DispatchCall(kind, DispatcherPackage(Persist, request, batches[j]))
      {
        if j > 0 { assert c[j] == rest[j - 1] && batches[j] == batches[1..][j - 1]; }
      }
    }
  }

  /** What happened when a plan of calls was handed to the dispatcher one at a time. */
  datatype Trace = Trace(executed: seq<DispatchCall>, failure: Option<DispatchFailure>)

  /**
   * Issues the calls of `plan` in order, the first as call number `start`, and
   * stops at the first call that raises: that call is made, none after it.
   */
  function Run(plan: seq<DispatchCall>, start: nat, outcome: nat -> Option<DispatchFailure>): (t: Trace)
    ensures t.executed <= plan
    ensures t.failure.None? ==> t.executed == plan
    ensures t.failure.Some? ==> |t.executed| > 0
    decreases |plan|
  {
    if plan == [] then Trace([], None)
    else if outcome(start).Some? then Trace([plan[0]], outcome(start))
    else
      var rest := Run(plan[1..], start + 1, outcome);
      Trace([plan[0]] + rest.executed, rest.failure)
  }

  /**
   * A run succeeds exactly when every call of the plan succeeds; a failed run
   * ends with the first failing call, all calls before it having succeeded.
   */
  lemma {:induction false} RunFirstFailure(plan: seq<DispatchCall>, start: nat, outcome: nat -> Option<DispatchFailure>)
    ensures var t := Run(plan, start, outcome);
      (t.failure.None? <==> forall n: nat :: start <= n < start + |plan| ==> outcome(n).None?)
    ensures var t := Run(plan, start, outcome);
      t.failure.Some? ==>
        t.failure == outcome(start + |t.executed| - 1) &&
        forall n: nat :: start <= n < start + |t.executed| - 1 ==> outcome(n).None?
  {
    if plan != [] && outcome(start).None? {
      RunFirstFailure(plan[1..], start + 1, outcome);
      var t := Run(plan, start, outcome);
      var rest := Run(plan[1..], start + 1, outcome);
      assert t.failure == rest.failure && |t.executed| == 1 + |rest.executed|;
    }
  }

  /** Running two plans back to back: the second runs only when the first succeeded. */
  lemma {:induction false} RunAppend(p: seq<DispatchCall>, q: seq<DispatchCall>, start: nat, mid: nat,
                                     outcome: nat -> Option<DispatchFailure>)
    requires mid == start + |p|
    ensures Run(p + q, start, outcome) ==
      var t := Run(p, start, outcome);
      if t.failure.Some? then t
      else var u := Run(q, mid, outcome); Trace(p + u.executed, u.failure)
    decreases |p|
  {
    if p == [] {
      assert p + q == q;
    } else if outcome(start).None? {
      assert (p + q)[1..] == p[1..] + q;
      RunAppend(p[1..], q, start + 1, mid, outcome);
    }
  }

  /**
   * One more call after a successful prefix: it either succeeds, extending the
   * run, or fails, and then it is the last call of any longer plan.
   */
  lemma RunStep(p: seq<DispatchCall>, c: DispatchCall, rest: seq<DispatchCall>, start: nat, pos: nat,
                outcome: nat -> Option<DispatchFailure>)
    requires pos == start + |p|
    requires Run(p, start, outcome).failure.None?
    ensures outcome(pos).None? ==> Run(p + [c], start, outcome) == Trace(p + [c], None)
    ensures outcome(pos).Some? ==> Run(p + [c] + rest, start, outcome) == Trace(p + [c], outcome(pos))
  {
    RunAppend(p, [c], start, pos, outcome);
    RunAppend(p + [c], rest, start, pos + 1, outcome);
    assert Run([c], pos, outcome) == Trace([c], outcome(pos)) by {
      assert [c][1..] == [];
    }
  }

  /**
   * One iteration of a dispatch loop over `batches`, after the first `k`
   * batches went through without failure: an empty batch adds no call; a
   * non-empty one adds its call, which either succeeds or ends the whole run.
   */
  lemma DispatchStep(kind: CallKind, request: ClientRequest, batches: seq<DocumentBatch>, k: nat,
                     start: nat, pos: nat, outcome: nat -> Option<DispatchFailure>)
    requires k < |batches| && pos == start + |Calls(kind, request, batches[..k])|
    requires Run(Calls(kind, request, batches[..k]), start, outcome).failure.None?
    ensures var done := Calls(kind, request, batches[..k]);
      |batches[k]| == 0 ==> Calls(kind, request, batches[..k + 1]) == done
    ensures var done := Calls(kind, request, batches[..k]);
      var c := DispatchCall(kind, DispatcherPackage(Persist, request, batches[k]));
      |batches[k]| > 0 ==>
        && Calls(kind, request, batches[..k + 1]) == done + [c]
        && (outcome(pos).None? ==> Run(done + [c], start, outcome).failure.None?)
        && (outcome(pos).Some? ==> Run(Calls(kind, request, batches), start, outcome) == Trace(done + [c], outcome(pos)))
  {
    var done := Calls(kind, request, batches[..k]);
    assert batches[..k + 1] == batches[..k] + [batches[k]];
    CallsAppend(kind, request, batches[..k], [batches[k]]);
    assert [batches[k]][1..] == [];
    if |batches[k]| > 0 {
      var c := DispatchCall(kind, DispatcherPackage(Persist, request, batches[k]));
      var rest := Calls(kind, request, batches[k + 1..]);
      assert batches == batches[..k + 1] + batches[k + 1..];
      CallsAppend(kind, request, batches[..k + 1], batches[k + 1..]);
      RunStep(done, c, rest, start, pos, outcome);
    }
  }

  /** A run whose prefix covers every batch and did not fail is the whole successful plan. */
  lemma DispatchDone(kind: CallKind, request: ClientRequest, batches: seq<DocumentBatch>, start: nat,
                     outcome: nat -> Option<DispatchFailure>)
    requires Run(Calls(kind, request, batches[..|batches|]), start, outcome).failure.None?
    ensures Run(Calls(kind, request, batches), start, outcome) == Trace(Calls(kind, request, batches), None)
  {
    assert batches[..|batches|] == batches;
  }
}
