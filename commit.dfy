/**
 * The calls a commit makes when nothing fails: all add batches, then all
 * removal batches, then all update batches sent through the add entry point.
 */
module Commit {
  import opened Types
  import opened Batching
  import opened Documents
  import opened Dispatch
  import opened Registry

  /** The calls for staged adds or updates, grouped into batches of `size`. */
  function AddPlan(request: ClientRequest, items: seq<SearchIndexData>, size: nat): seq<DispatchCall>
    requires size > 0
  {
    Calls(AddDocuments, request, Batches(InputDocuments(items), size))
  }

  /** The calls for staged removals, grouped into batches of `size`. */
  function RemovalPlan(request: ClientRequest, items: seq<BaseIndexData>, size: nat): seq<DispatchCall>
    requires size > 0
  {
    Calls(RemoveFromCloudSearch, request, Batches(DeleteDocuments(items), size))
  }

  /** The full commit order: adds, then removals, then updates. */
  function CommitPlan(request: ClientRequest, adds: seq<SearchIndexData>, removals: seq<BaseIndexData>,
                      updates: seq<SearchIndexData>, size: nat): seq<DispatchCall>
    requires size > 0
  {
    AddPlan(request, adds, size) + (RemovalPlan(request, removals, size) + AddPlan(request, updates, size))
  }

  /** The batches carried by a sequence of calls. */
  function CallBatches(calls: seq<DispatchCall>): (bs: seq<DocumentBatch>)
    ensures |bs| == |calls|
  {
    seq(|calls|, j requires 0 <= j < |calls| => calls[j].pkg.batch)
  }

  /** Every call is of `kind`, a PERSIST package of `request`, with a non-empty batch of at most `size`. */
  ghost predicate Segment(calls: seq<DispatchCall>, kind: CallKind, request: ClientRequest, size: nat)
  {
    forall j :: 0 <= j < |calls| ==>
      calls[j].kind == kind && calls[j].pkg.action == Persist && calls[j].pkg.request == request &&
      0 < |calls[j].pkg.batch| <= size
  }

  /** One stage of a commit: a call per batch, each a PERSIST package of the configured request. */
  lemma StageCalls(kind: CallKind, request: ClientRequest, docs: seq<DocumentData>, size: nat)
    requires size > 0
    ensures var calls := Calls(kind, request, Batches(docs, size));
      && |calls| == BatchCount(|docs|, size)
      && Segment(calls, kind, request, size)
      && CallBatches(calls) == Batches(docs, size)
      && Flatten(CallBatches(calls)) == docs
  {
    var bs := Batches(docs, size);
    BatchesSizes(docs, size);
    BatchesFlatten(docs, size);
    CallsOfNonEmpty(kind, request, bs);
    var calls := Calls(kind, request, bs);
    assert CallBatches(calls) == bs;
  }

  lemma CallBatchesAppend(a: seq<DispatchCall>, b: seq<DispatchCall>)
    ensures CallBatches(a + b) == CallBatches(a) + CallBatches(b)
  {
  }

  /**
   * The shape of a commit: ceil(n / size) add calls, then ceil(n / size)
   * removal calls, then ceil(n / size) add calls for the updates, every batch
   * non-empty and at most `size` long.
   */
  lemma {:induction false} CommitPlanOrder(request: ClientRequest, adds: seq<SearchIndexData>, removals: seq<BaseIndexData>,
                                           updates: seq<SearchIndexData>, size: nat)
    requires size > 0
    ensures var plan := CommitPlan(request, adds, removals, updates, size);
      var nA, nR, nU := BatchCount(|adds|, size), BatchCount(|removals|, size), BatchCount(|updates|, size);
      && |plan| == nA + nR + nU
      && (forall j :: 0 <= j < nA ==> plan[j].kind == AddDocuments)
      && (forall j :: nA <= j < nA + nR ==> plan[j].kind == RemoveFromCloudSearch)
      && (forall j :: nA + nR <= j < |plan| ==> plan[j].kind == AddDocuments)
      && (forall j :: 0 <= j < |plan| ==>
            plan[j].pkg.action == Persist && plan[j].pkg.request == request && 0 < |plan[j].pkg.batch| <= size)
  {
    var a, r, u := AddPlan(request, adds, size), RemovalPlan(request, removals, size), AddPlan(request, updates, size);
    assert |a| == BatchCount(|adds|, size) && Segment(a, AddDocuments, request, size) by {
      StageCalls(AddDocuments, request, InputDocuments(adds), size);
    }
    assert |r| == BatchCount(|removals|, size) && Segment(r, RemoveFromCloudSearch, request, size) by {
      StageCalls(RemoveFromCloudSearch, request, DeleteDocuments(removals), size);
    }
    assert |u| == BatchCount(|updates|, size) && Segment(u, AddDocuments, request, size) by {
      StageCalls(AddDocuments, request, InputDocuments(updates), size);
    }
    SegmentsInOrder(a, r, u, request, size);
  }

  lemma SegmentsInOrder(a: seq<DispatchCall>, r: seq<DispatchCall>, u: seq<DispatchCall>, request: ClientRequest, size: nat)
    requires Segment(a, AddDocuments, request, size) && Segment(r, RemoveFromCloudSearch, request, size)
    requires Segment(u, AddDocuments, request, size)
    ensures var plan := a + (r + u);
      && (forall j :: 0 <= j < |a| ==> plan[j].kind == AddDocuments)
      && (forall j :: |a| <= j < |a| + |r| ==> plan[j].kind == RemoveFromCloudSearch)
      && (forall j :: |a| + |r| <= j < |plan| ==> plan[j].kind == AddDocuments)
      && (forall j :: 0 <= j < |plan| ==>
            plan[j].pkg.action == Persist && plan[j].pkg.request == request && 0 < |plan[j].pkg.batch| <= size)
  {
    var plan := a + (r + u);
    forall j | 0 <= j < |plan|
      ensures plan[j].kind == (if |a| <= j < |a| + |r| then RemoveFromCloudSearch else AddDocuments)
      ensures plan[j].pkg.action == Persist && plan[j].pkg.request == request && 0 < |plan[j].pkg.batch| <= size
    {
      if j < |a| {
        assert plan[j] == a[j];
      } else if j < |a| + |r| {
        assert plan[j] == r[j - |a|];
      } else {
        assert plan[j] == u[j - |a| - |r|];
      }
    }
  }

  /** Concatenated, the dispatched batches are the add, delete and update documents in order. */
  lemma {:induction false} CommitPlanDocuments(request: ClientRequest, adds: seq<SearchIndexData>, removals: seq<BaseIndexData>,
                                               updates: seq<SearchIndexData>, size: nat)
    requires size > 0
    ensures Flatten(CallBatches(CommitPlan(request, adds, removals, updates, size))) ==
      InputDocuments(adds) + DeleteDocuments(removals) + InputDocuments(updates)
  {
    StageCalls(AddDocuments, request, InputDocuments(adds), size);
    StageCalls(RemoveFromCloudSearch, request, DeleteDocuments(removals), size);
    StageCalls(AddDocuments, request, InputDocuments(updates), size);
    var a, r, u := AddPlan(request, adds, size), RemovalPlan(request, removals, size), AddPlan(request, updates, size);
    CallBatchesAppend(r, u);
    CallBatchesAppend(a, r + u);
    FlattenAppend(CallBatches(r), CallBatches(u));
    FlattenAppend(CallBatches(a), CallBatches(r) + CallBatches(u));
  }

  /**
   * Committing keyed registries visited in the given orders dispatches exactly
   * the registry keys: the add order, then the removal order, then the update order.
   */
  lemma CommitDispatchesRegistryKeys(request: ClientRequest, adds: map<string, SearchIndexData>, addOrder: seq<string>,
                                     removals: map<string, BaseIndexData>, removalOrder: seq<string>,
                                     updates: map<string, SearchIndexData>, updateOrder: seq<string>, size: nat)
    requires size > 0
    requires ItemsKeyed(adds) && RemovalsKeyed(removals) && ItemsKeyed(updates)
    requires IsEnumeration(addOrder, adds.Keys) && IsEnumeration(removalOrder, removals.Keys)
    requires IsEnumeration(updateOrder, updates.Keys)
    ensures Ids(Flatten(CallBatches(CommitPlan(request, ValuesInOrder(adds, addOrder), ValuesInOrder(removals, removalOrder),
                                               ValuesInOrder(updates, updateOrder), size))))
            == addOrder + removalOrder + updateOrder
  {
    var a, r, u := ValuesInOrder(adds, addOrder), ValuesInOrder(removals, removalOrder), ValuesInOrder(updates, updateOrder);
    CommitPlanDocuments(request, a, r, u, size);
    IdsAppend(InputDocuments(a), DeleteDocuments(r));
    IdsAppend(InputDocuments(a) + DeleteDocuments(r), InputDocuments(u));
    ItemIdsOfOrder(adds, addOrder);
    RemovalIdsOfOrder(removals, removalOrder);
    ItemIdsOfOrder(updates, updateOrder);
  }

  /** The `add` operations of a keyed registry visited in an order carry exactly that order's ids. */
  lemma ItemIdsOfOrder(m: map<string, SearchIndexData>, order: seq<string>)
    requires ItemsKeyed(m) && forall k :: k in order ==> k in m
    ensures Ids(InputDocuments(ValuesInOrder(m, order))) == order
  {
    ItemIdsInOrder(m, order);
    DocumentIds(ValuesInOrder(m, order), []);
  }

  /** The `delete` operations of a keyed removal registry visited in an order carry exactly that order's ids. */
  lemma RemovalIdsOfOrder(m: map<string, BaseIndexData>, order: seq<string>)
    requires RemovalsKeyed(m) && forall k :: k in order ==> k in m
    ensures Ids(DeleteDocuments(ValuesInOrder(m, order))) == order
  {
    DocumentIds([], ValuesInOrder(m, order));
  }

  /**
   * Running the three stages of a commit back to back: a stage runs only when
   * every stage before it succeeded, and the first failure ends the commit.
   */
  lemma RunInStages(a: seq<DispatchCall>, r: seq<DispatchCall>, u: seq<DispatchCall>,
                    start: nat, mid: nat, last: nat, outcome: nat -> Option<DispatchFailure>)
    requires mid == start + |a| && last == mid + |r|
    ensures Run(a, start, outcome).failure.Some? ==> Run(a + (r + u), start, outcome) == Run(a, start, outcome)
    ensures Run(a, start, outcome).failure.None? && Run(r, mid, outcome).failure.Some? ==>
      Run(a + (r + u), start, outcome) == Trace(a + Run(r, mid, outcome).executed, Run(r, mid, outcome).failure)
    ensures Run(a, start, outcome).failure.None? && Run(r, mid, outcome).failure.None? ==>
      Run(a + (r + u), start, outcome) == Trace(a + (r + Run(u, last, outcome).executed), Run(u, last, outcome).failure)
  {
    RunAppend(a, r + u, start, mid, outcome);
    if Run(a, start, outcome).failure.None? {
      RunAppend(r, u, mid, last, outcome);
    }
  }

  /*
   * The three ways a commit's try block can end, for the add plan `a`, the
   * removal plan `r` and the update plan `u`. `before` is the dispatcher's log
   * when the commit starts, and each later log is the one a stage leaves; each
   * stage starts numbering its calls at the length of the log it finds.
   */

  /** The add stage raised: the removal and update stages never ran. */
  lemma AddStageFailed(a: seq<DispatchCall>, r: seq<DispatchCall>, u: seq<DispatchCall>,
                       outcome: nat -> Option<DispatchFailure>, before: seq<DispatchCall>, calls: seq<DispatchCall>,
                       start: nat)
    requires start == |before|
    requires Run(a, start, outcome).failure.Some? && calls == before + Run(a, start, outcome).executed
    ensures var t := Run(a + (r + u), start, outcome);
      calls == before + t.executed && t.failure == Run(a, start, outcome).failure
  {
    RunInStages(a, r, u, start, start + |a|, start + |a| + |r|, outcome);
  }

  /** The removal stage raised: the update stage never ran. */
  lemma RemovalStageFailed(a: seq<DispatchCall>, r: seq<DispatchCall>, u: seq<DispatchCall>,
                           outcome: nat -> Option<DispatchFailure>,
                           before: seq<DispatchCall>, afterAdds: seq<DispatchCall>, calls: seq<DispatchCall>,
                           start: nat, mid: nat)
    requires start == |before| && mid == |afterAdds|
    requires Run(a, start, outcome).failure.None? && afterAdds == before + Run(a, start, outcome).executed
    requires Run(r, mid, outcome).failure.Some? && calls == afterAdds + Run(r, mid, outcome).executed
    ensures var t := Run(a + (r + u), start, outcome);
      calls == before + t.executed && t.failure == Run(r, mid, outcome).failure
  {
    RunInStages(a, r, u, start, mid, mid + |r|, outcome);
    AppendAssoc(before, a, Run(r, mid, outcome).executed);
  }

  /** Neither the add nor the removal stage raised: the update stage ran. */
  lemma UpdateStageRan(a: seq<DispatchCall>, r: seq<DispatchCall>, u: seq<DispatchCall>,
                       outcome: nat -> Option<DispatchFailure>, before: seq<DispatchCall>,
                       afterAdds: seq<DispatchCall>, afterRemovals: seq<DispatchCall>, calls: seq<DispatchCall>,
                       start: nat, mid: nat, last: nat)
    requires start == |before| && mid == |afterAdds| && last == |afterRemovals|
    requires Run(a, start, outcome).failure.None? && afterAdds == before + Run(a, start, outcome).executed
    requires Run(r, mid, outcome).failure.None? && afterRemovals == afterAdds + Run(r, mid, outcome).executed
    requires calls == afterRemovals + Run(u, last, outcome).executed
    ensures var t := Run(a + (r + u), start, outcome);
      calls == before + t.executed && t.failure == Run(u, last, outcome).failure
  {
    RunInStages(a, r, u, start, mid, last, outcome);
    var tu := Run(u, last, outcome).executed;
    assert calls == before + a + r + tu;
    AppendAssoc(before, a, r);
    AppendAssoc(before, a + r, tu);
    AppendAssoc(a, r, tu);
  }
}
