/**
 * The CloudSearch indexer: three staging registries filled by the staging
 * calls and drained by commit, which dispatches adds, then removals, then
 * updates in batches, translates the first failure, and always clears the
 * registries.
 */
module Indexer {
  import opened Types
  import opened Batching
  import opened Documents
  import opened Dispatch
  import opened Errors
  import opened Registry
  import opened Commit

  /** The grouping loop for adds and updates: a new batch whenever the counter is a multiple of the size. */
  method GroupAddDocuments(items: seq<SearchIndexData>, indexBatchSize: nat) returns (groupedDocuments: seq<DocumentBatch>)
    requires indexBatchSize > 0
    ensures groupedDocuments == Batches(InputDocuments(items), indexBatchSize)
  {
    groupedDocuments := [];
    var i := 0;
    while i < |items|
      invariant 0 <= i <= |items|
      invariant groupedDocuments == Batches(InputDocuments(items[..i]), indexBatchSize)
    {
      ghost var docs, before := InputDocuments(items[..i]), groupedDocuments;
      if i % indexBatchSize == 0 {
        groupedDocuments := groupedDocuments + [[]];
      }
      ghost var started := groupedDocuments;
      var document := ConstructInputDocument(items[i]);
      groupedDocuments := groupedDocuments[..|groupedDocuments| - 1] + [groupedDocuments[|groupedDocuments| - 1] + [document]];
      GroupStep(before, started, docs, document, indexBatchSize);
      InputDocumentsSnoc(items, i);
      i := i + 1;
    }
    assert items[..i] == items;
  }

  /** The grouping loop for removals; it also opens a batch while none is open yet. */
  method GroupDeleteDocuments(items: seq<BaseIndexData>, indexBatchSize: nat) returns (groupedDocuments: seq<DocumentBatch>)
    requires indexBatchSize > 0
    ensures groupedDocuments == Batches(DeleteDocuments(items), indexBatchSize)
  {
    groupedDocuments := [];
    var batchOpen := false;
    var i := 0;
    while i < |items|
      invariant 0 <= i <= |items|
      invariant batchOpen <==> i > 0
      invariant groupedDocuments == Batches(DeleteDocuments(items[..i]), indexBatchSize)
    {
      ghost var docs, before := DeleteDocuments(items[..i]), groupedDocuments;
      if i % indexBatchSize == 0 || !batchOpen {
        groupedDocuments := groupedDocuments + [[]];
        batchOpen := true;
      }
      ghost var started := groupedDocuments;
      var document := Delete(items[i].uniqueIndexId);
      groupedDocuments := groupedDocuments[..|groupedDocuments| - 1] + [groupedDocuments[|groupedDocuments| - 1] + [document]];
      GroupStep(before, started, docs, document, indexBatchSize);
      DeleteDocumentsSnoc(items, i);
      i := i + 1;
    }
    assert items[..i] == items;
  }

  class CloudSearchIndexer {
    var itemRemovals: map<string, BaseIndexData>
    var itemAdds: map<string, SearchIndexData>
    var binaryAdds: map<string, BinaryIndexData>
    var itemUpdates: map<string, SearchIndexData>

    const documentEndpoint: string
    const authentication: string
    const secretAccessKey: string
    const accessKeyId: string
    const indexBatchSize: nat
    const activePublicationIds: seq<string>
    const dispatcher: Dispatcher

    /** A positive batch size, and every registry entry stored under its item's own non-empty id. */
    ghost predicate Valid()
      reads this
    {
      && indexBatchSize > 0
      && ItemsKeyed(itemAdds)
      && RemovalsKeyed(itemRemovals)
      && ItemsKeyed(itemUpdates)
    }

    /** The configured indexer, with empty registries. */
    constructor (documentEndpoint: string, authentication: string, accessKeyId: string, secretAccessKey: string,
                 indexBatchSize: nat, activePublicationIds: seq<string>, dispatcher: Dispatcher)
      requires indexBatchSize > 0
      ensures Valid()
      ensures itemAdds == map[] && itemRemovals == map[] && itemUpdates == map[] && binaryAdds == map[]
      ensures this.documentEndpoint == documentEndpoint && this.authentication == authentication
      ensures this.accessKeyId == accessKeyId && this.secretAccessKey == secretAccessKey
      ensures this.indexBatchSize == indexBatchSize && this.activePublicationIds == activePublicationIds
      ensures this.dispatcher == dispatcher
    {
      this.documentEndpoint := documentEndpoint;
      this.authentication := authentication;
      this.accessKeyId := accessKeyId;
      this.secretAccessKey := secretAccessKey;
      this.indexBatchSize := indexBatchSize;
      this.activePublicationIds := activePublicationIds;
      this.dispatcher := dispatcher;
      itemRemovals, itemAdds, binaryAdds, itemUpdates := map[], map[], map[], map[];
    }

    /** The request every package carries. */
    function Request(): ClientRequest
    {
      ClientRequest(documentEndpoint, authentication, accessKeyId, secretAccessKey)
    }

    /** Stages an add; first write wins, and only the add registry can change. */
    method AddItemToIndex(data: SearchIndexData)
      requires Valid()
      modifies this
      ensures Valid()
      ensures itemAdds == StageAdd(old(itemAdds), activePublicationIds, data)
      ensures itemRemovals == old(itemRemovals) && itemUpdates == old(itemUpdates) && binaryAdds == old(binaryAdds)
    {
      var publicationId := data.base.publicationItemId;
      if !(|activePublicationIds| == 0 || publicationId in activePublicationIds) {
        return;
      }
      if data.base.uniqueIndexId == "" {
        return;
      }
      // An item without fields is only logged, and still staged.
      if data.base.uniqueIndexId !in itemAdds {
        itemAdds := itemAdds[data.base.uniqueIndexId := data];
      }
    }

    /** Stages a removal; last write wins, and only the removal registry can change. */
    method RemoveItemFromIndex(data: BaseIndexData)
      requires Valid()
      modifies this
      ensures Valid()
      ensures itemRemovals == StageLastWrite(old(itemRemovals), activePublicationIds, data, data)
      ensures itemAdds == old(itemAdds) && itemUpdates == old(itemUpdates) && binaryAdds == old(binaryAdds)
    {
      var publicationId := data.publicationItemId;
      if !(|activePublicationIds| == 0 || publicationId in activePublicationIds) {
        return;
      }
      if data.uniqueIndexId == "" {
        return;
      }
      itemRemovals := itemRemovals[data.uniqueIndexId := data];
    }

    /** Stages an update; last write wins, and only the update registry can change. */
    method UpdateItemInIndex(data: SearchIndexData)
      requires Valid()
      modifies this
      ensures Valid()
      ensures itemUpdates == StageLastWrite(old(itemUpdates), activePublicationIds, data.base, data)
      ensures itemAdds == old(itemAdds) && itemRemovals == old(itemRemovals) && binaryAdds == old(binaryAdds)
    {
      var publicationId := data.base.publicationItemId;
      if !(|activePublicationIds| == 0 || publicationId in activePublicationIds) {
        return;
      }
      if data.base.uniqueIndexId == "" {
        return;
      }
      itemUpdates := itemUpdates[data.base.uniqueIndexId := data];
    }

    /**
     * Commits the staged mutations. A filtered publication changes nothing and
     * dispatches nothing. Otherwise the calls made are those of the commit plan
     * over the registries, in some iteration order of each, up to and including
     * the first failing call; that failure comes back translated; and every
     * registry is empty afterwards, whatever the outcome.
     */
    method Commit(publicationId: string)
      returns (result: Option<IndexingException>, ghost addOrder: seq<string>,
               ghost removalOrder: seq<string>, ghost updateOrder: seq<string>)
      requires Valid()
      modifies this, dispatcher
      ensures Valid()
      ensures !Admits(activePublicationIds, publicationId) ==>
        && result == None && dispatcher.calls == old(dispatcher.calls)
        && itemAdds == old(itemAdds) && itemRemovals == old(itemRemovals)
        && itemUpdates == old(itemUpdates) && binaryAdds == old(binaryAdds)
      ensures Admits(activePublicationIds, publicationId) ==>
        itemAdds == map[] && itemRemovals == map[] && itemUpdates == map[] && binaryAdds == map[]
      ensures Admits(activePublicationIds, publicationId) ==>
        && IsEnumeration(addOrder, old(itemAdds).Keys)
        && IsEnumeration(removalOrder, old(itemRemovals).Keys)
        && IsEnumeration(updateOrder, old(itemUpdates).Keys)
        && var trace := Run(CommitPlan(Request(), ValuesInOrder(old(itemAdds), addOrder),
                                       ValuesInOrder(old(itemRemovals), removalOrder),
                                       ValuesInOrder(old(itemUpdates), updateOrder), indexBatchSize),
                            |old(dispatcher.calls)|, dispatcher.outcome);
           dispatcher.calls == old(dispatcher.calls) + trace.executed && result == Translated(trace.failure)
    {
      addOrder, removalOrder, updateOrder := [], [], [];
      if !(|activePublicationIds| == 0 || publicationId in activePublicationIds) {
        result := None;
        return;
      }
      var failure: Option<DispatchFailure>;
      failure, addOrder, removalOrder, updateOrder := CommitStages();
      // The catch ladder: each exception kind becomes an IndexingException with its own prefix.
      result := Translated(failure);
      // The finally block.
      ClearRegisters();
    }

    /**
     * The body of commit's try block: the add stage, then the removal stage,
     * then the update stage, each run only when the stages before it raised
     * nothing. The registries are untouched; the calls made are the commit
     * plan's, up to and including the first failing one.
     */
    method CommitStages()
      returns (failure: Option<DispatchFailure>, ghost addOrder: seq<string>,
               ghost removalOrder: seq<string>, ghost updateOrder: seq<string>)
      requires indexBatchSize > 0
      modifies dispatcher
      ensures IsEnumeration(addOrder, itemAdds.Keys)
      ensures IsEnumeration(removalOrder, itemRemovals.Keys)
      ensures IsEnumeration(updateOrder, itemUpdates.Keys)
      ensures var trace := Run(CommitPlan(Request(), ValuesInOrder(itemAdds, addOrder),
                                          ValuesInOrder(itemRemovals, removalOrder),
                                          ValuesInOrder(itemUpdates, updateOrder), indexBatchSize),
                               |old(dispatcher.calls)|, dispatcher.outcome);
        dispatcher.calls == old(dispatcher.calls) + trace.executed && failure == trace.failure
    {
      ghost var before := dispatcher.calls;
      failure, addOrder := CommitAddContentToCloudSearch(itemAdds);
      ghost var a := AddPlan(Request(), ValuesInOrder(itemAdds, addOrder), indexBatchSize);
      if failure.None? {
        ghost var afterAdds := dispatcher.calls;
        failure, removalOrder := RemoveItemsFromCloudSearch(itemRemovals);
        ghost var r := RemovalPlan(Request(), ValuesInOrder(itemRemovals, removalOrder), indexBatchSize);
        if failure.None? {
          ghost var afterRemovals := dispatcher.calls;
          failure, updateOrder := ProcessItemUpdates();
          ghost var u := AddPlan(Request(), ValuesInOrder(itemUpdates, updateOrder), indexBatchSize);
          UpdateStageRan(a, r, u, dispatcher.outcome, before, afterAdds, afterRemovals, dispatcher.calls,
                         |before|, |afterAdds|, |afterRemovals|);
        } else {
          updateOrder := Enumerate(itemUpdates.Keys);
          ghost var u := AddPlan(Request(), ValuesInOrder(itemUpdates, updateOrder), indexBatchSize);
          RemovalStageFailed(a, r, u, dispatcher.outcome, before, afterAdds, dispatcher.calls, |before|, |afterAdds|);
        }
      } else {
        removalOrder := Enumerate(itemRemovals.Keys);
        updateOrder := Enumerate(itemUpdates.Keys);
        ghost var r := RemovalPlan(Request(), ValuesInOrder(itemRemovals, removalOrder), indexBatchSize);
        ghost var u := AddPlan(Request(), ValuesInOrder(itemUpdates, updateOrder), indexBatchSize);
        AddStageFailed(a, r, u, dispatcher.outcome, before, dispatcher.calls, |before|);
      }
    }

    /** Groups and dispatches the entries of an add (or update) registry; nothing when it is empty. */
    method CommitAddContentToCloudSearch(itemsToAdd: map<string, SearchIndexData>)
      returns (failure: Option<DispatchFailure>, ghost order: seq<string>)
      requires indexBatchSize > 0
      modifies dispatcher
      ensures IsEnumeration(order, itemsToAdd.Keys)
      ensures var trace := Run(AddPlan(Request(), ValuesInOrder(itemsToAdd, order), indexBatchSize),
                               |old(dispatcher.calls)|, dispatcher.outcome);
        dispatcher.calls == old(dispatcher.calls) + trace.executed && failure == trace.failure
    {
      if |itemsToAdd| > 0 {
        var keys := EntryOrder(itemsToAdd);
        order := keys;
        var groupedDocuments := GroupAddDocuments(ValuesInOrder(itemsToAdd, keys), indexBatchSize);
        failure := DispatchAddContentToCloudSearch(groupedDocuments);
      } else {
        order := [];
        failure := None;
        assert InputDocuments(ValuesInOrder(itemsToAdd, order)) == [];
      }
    }

    /** Groups and dispatches the entries of the removal registry; nothing when it is empty. */
    method RemoveItemsFromCloudSearch(itemsToRemove: map<string, BaseIndexData>)
      returns (failure: Option<DispatchFailure>, ghost order: seq<string>)
      requires indexBatchSize > 0
      modifies dispatcher
      ensures IsEnumeration(order, itemsToRemove.Keys)
      ensures var trace := Run(RemovalPlan(Request(), ValuesInOrder(itemsToRemove, order), indexBatchSize),
                               |old(dispatcher.calls)|, dispatcher.outcome);
        dispatcher.calls == old(dispatcher.calls) + trace.executed && failure == trace.failure
    {
      if |itemsToRemove| > 0 {
        var keys := EntryOrder(itemsToRemove);
        order := keys;
        var groupedDocuments := GroupDeleteDocuments(ValuesInOrder(itemsToRemove, keys), indexBatchSize);
        failure := DispatchRemoveItemsFromCloudSearch(groupedDocuments);
      } else {
        order := [];
        failure := None;
        assert DeleteDocuments(ValuesInOrder(itemsToRemove, order)) == [];
      }
    }

    /** Updates go through the add path. */
    method ProcessItemUpdates() returns (failure: Option<DispatchFailure>, ghost order: seq<string>)
      requires indexBatchSize > 0
      modifies dispatcher
      ensures IsEnumeration(order, itemUpdates.Keys)
      ensures var trace := Run(AddPlan(Request(), ValuesInOrder(itemUpdates, order), indexBatchSize),
                               |old(dispatcher.calls)|, dispatcher.outcome);
        dispatcher.calls == old(dispatcher.calls) + trace.executed && failure == trace.failure
    {
      failure, order := CommitAddContentToCloudSearch(itemUpdates);
    }

    /** Sends each non-empty batch to the add entry point, in order, stopping at the first failure. */
    method DispatchAddContentToCloudSearch(groupedDocuments: seq<DocumentBatch>) returns (failure: Option<DispatchFailure>)
      modifies dispatcher
      ensures dispatcher.calls == old(dispatcher.calls) +
        Run(Calls(AddDocuments, Request(), groupedDocuments), |old(dispatcher.calls)|, dispatcher.outcome).executed
      ensures failure == Run(Calls(AddDocuments, Request(), groupedDocuments), |old(dispatcher.calls)|, dispatcher.outcome).failure
    {
      ghost var start := |dispatcher.calls|;
      failure := None;
      var k := 0;
      while k < |groupedDocuments|
        invariant 0 <= k <= |groupedDocuments|
        invariant dispatcher.calls == old(dispatcher.calls) + Calls(AddDocuments, Request(), groupedDocuments[..k])
        invariant Run(Calls(AddDocuments, Request(), groupedDocuments[..k]), start, dispatcher.outcome).failure.None?
        invariant failure.None?
      {
        ghost var done := Calls(AddDocuments, Request(), groupedDocuments[..k]);
        DispatchStep(AddDocuments, Request(), groupedDocuments, k, start, |dispatcher.calls|, dispatcher.outcome);
        var documentBatch := groupedDocuments[k];
        if |documentBatch| > 0 {
          var dispatcherPackage := DispatcherPackage(Persist, Request(), documentBatch);
          ghost var call := DispatchCall(AddDocuments, dispatcherPackage);
          failure := dispatcher.AddDocuments(dispatcherPackage);
          if failure.Some? {
            assert dispatcher.calls == old(dispatcher.calls) + (done + [call]);
            assert Run(Calls(AddDocuments, Request(), groupedDocuments), start, dispatcher.outcome).executed == done + [call];
            return;
          }
        }
        k := k + 1;
      }
      assert groupedDocuments[..k] == groupedDocuments;
      DispatchDone(AddDocuments, Request(), groupedDocuments, start, dispatcher.outcome);
      assert Run(Calls(AddDocuments, Request(), groupedDocuments), start, dispatcher.outcome).executed ==
             Calls(AddDocuments, Request(), groupedDocuments);
    }

    /** Sends each non-empty batch to the removal entry point, in order, stopping at the first failure. */
    method DispatchRemoveItemsFromCloudSearch(groupedDocuments: seq<DocumentBatch>) returns (failure: Option<DispatchFailure>)
      modifies dispatcher
      ensures dispatcher.calls == old(dispatcher.calls) +
        Run(Calls(RemoveFromCloudSearch, Request(), groupedDocuments), |old(dispatcher.calls)|, dispatcher.outcome).executed
      ensures failure == Run(Calls(RemoveFromCloudSearch, Request(), groupedDocuments), |old(dispatcher.calls)|, dispatcher.outcome).failure
    {
      ghost var start := |dispatcher.calls|;
      failure := None;
      var k := 0;
      while k < |groupedDocuments|
        invariant 0 <= k <= |groupedDocuments|
        invariant dispatcher.calls == old(dispatcher.calls) + Calls(RemoveFromCloudSearch, Request(), groupedDocuments[..k])
        invariant Run(Calls(RemoveFromCloudSearch, Request(), groupedDocuments[..k]), start, dispatcher.outcome).failure.None?
        invariant failure.None?
      {
        ghost var done := Calls(RemoveFromCloudSearch, Request(), groupedDocuments[..k]);
        DispatchStep(RemoveFromCloudSearch, Request(), groupedDocuments, k, start, |dispatcher.calls|, dispatcher.outcome);
        var documentBatch := groupedDocuments[k];
        if |documentBatch| > 0 {
          var dispatcherPackage := DispatcherPackage(Persist, Request(), documentBatch);
          ghost var call := DispatchCall(RemoveFromCloudSearch, dispatcherPackage);
          failure := dispatcher.RemoveFromCloudSearch(dispatcherPackage);
          if failure.Some? {
            assert dispatcher.calls == old(dispatcher.calls) + (done + [call]);
            assert Run(Calls(RemoveFromCloudSearch, Request(), groupedDocuments), start, dispatcher.outcome).executed == done + [call];
            return;
          }
        }
        k := k + 1;
      }
      assert groupedDocuments[..k] == groupedDocuments;
      DispatchDone(RemoveFromCloudSearch, Request(), groupedDocuments, start, dispatcher.outcome);
      assert Run(Calls(RemoveFromCloudSearch, Request(), groupedDocuments), start, dispatcher.outcome).executed ==
             Calls(RemoveFromCloudSearch, Request(), groupedDocuments);
    }

    /** Empties all four registries. */
    method ClearRegisters()
      modifies this
      ensures itemAdds == map[] && binaryAdds == map[] && itemRemovals == map[] && itemUpdates == map[]
    {
      itemAdds := map[];
      binaryAdds := map[];
      itemRemovals := map[];
      itemUpdates := map[];
    }
  }
}
