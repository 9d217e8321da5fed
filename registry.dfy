/**
 * The staging registries: maps from unique index id to the staged item, the
 * publication filter that guards them, the overwrite policy of each, and the
 * order in which a registry's entries are visited at commit time.
 */
module Registry {
  import opened Types

  /** The publication filter: an empty active list admits every publication. */
  predicate Admits(activePublicationIds: seq<string>, publicationId: string)
  {
    |activePublicationIds| == 0 || publicationId in activePublicationIds
  }

  /** Every entry of an item registry is stored under the item's own, non-empty id. */
  predicate ItemsKeyed(m: map<string, SearchIndexData>)
  {
    forall k :: k in m ==> k != "" && m[k].base.uniqueIndexId == k
  }

  /** Every entry of the removal registry is stored under the item's own, non-empty id. */
  predicate RemovalsKeyed(m: map<string, BaseIndexData>)
  {
    forall k :: k in m ==> k != "" && m[k].uniqueIndexId == k
  }

  /**
   * The add registry after staging `data`: first write wins. Nothing already
   * staged is ever replaced; an admitted item with a non-empty id is present
   * afterwards; a filtered item or an empty id leaves the registry as it was.
   */
  function StageAdd(m: map<string, SearchIndexData>, active: seq<string>, data: SearchIndexData): (r: map<string, SearchIndexData>)
    ensures forall k :: k in m ==> k in r && r[k] == m[k]
    ensures r.Keys <= m.Keys + {data.base.uniqueIndexId}
    ensures Admits(active, data.base.publicationItemId) && data.base.uniqueIndexId != "" ==>
      data.base.uniqueIndexId in r && (data.base.uniqueIndexId !in m ==> r[data.base.uniqueIndexId] == data)
    ensures !(Admits(active, data.base.publicationItemId) && data.base.uniqueIndexId != "") ==> r == m
    ensures ItemsKeyed(m) ==> ItemsKeyed(r)
  {
    if Admits(active, data.base.publicationItemId) && data.base.uniqueIndexId != "" && data.base.uniqueIndexId !in m
    then m[data.base.uniqueIndexId := data]
    else m
  }

  /**
   * A removal or update registry after staging `value` for `item`: last write
   * wins. An admitted item with a non-empty id is stored, replacing what was
   * there; every other key keeps its entry; otherwise nothing changes.
   */
  function StageLastWrite<T>(m: map<string, T>, active: seq<string>, item: BaseIndexData, value: T): (r: map<string, T>)
    ensures Admits(active, item.publicationItemId) && item.uniqueIndexId != "" ==>
      r.Keys == m.Keys + {item.uniqueIndexId} && r[item.uniqueIndexId] == value
    ensures forall k :: k in m && k != item.uniqueIndexId ==> k in r && r[k] == m[k]
    ensures !(Admits(active, item.publicationItemId) && item.uniqueIndexId != "") ==> r == m
  {
    if Admits(active, item.publicationItemId) && item.uniqueIndexId != ""
    then m[item.uniqueIndexId := value]
    else m
  }

  /** The add registry after a sequence of staging calls. */
  function StageAdds(m: map<string, SearchIndexData>, active: seq<string>, ds: seq<SearchIndexData>): map<string, SearchIndexData>
    decreases |ds|
  {
    if ds == [] then m else StageAdds(StageAdd(m, active, ds[0]), active, ds[1..])
  }

  /** A removal or update registry after a sequence of staging calls; `base` gives each value's identity. */
  function StageLastWrites<T>(m: map<string, T>, active: seq<string>, ds: seq<T>, base: T -> BaseIndexData): map<string, T>
    decreases |ds|
  {
    if ds == [] then m else StageLastWrites(StageLastWrite(m, active, base(ds[0]), ds[0]), active, ds[1..], base)
  }

  /** Whether a staging call for `b` reaches the registry under key `k`. */
  predicate Lands(active: seq<string>, b: BaseIndexData, k: string)
  {
    k != "" && b.uniqueIndexId == k && Admits(active, b.publicationItemId)
  }

  /** Staging adds keeps the first admitted item for an id that was not staged before. */
  lemma {:induction false} FirstWriteWins(m: map<string, SearchIndexData>, active: seq<string>, ds: seq<SearchIndexData>, k: string, i: nat)
    requires k !in m && i < |ds| && Lands(active, ds[i].base, k)
    requires forall j :: 0 <= j < i ==> !Lands(active, ds[j].base, k)
    ensures k in StageAdds(m, active, ds) && StageAdds(m, active, ds)[k] == ds[i]
    decreases |ds|
  {
    var m' := StageAdd(m, active, ds[0]);
    if i == 0 {
      KeptOnceStaged(m', active, ds[1..], k);
    } else {
      assert !Lands(active, ds[0].base, k);
      assert k !in m';
      forall j | 0 <= j < i - 1 ensures !Lands(active, ds[1..][j].base, k) {
        assert ds[1..][j] == ds[j + 1];
      }
      FirstWriteWins(m', active, ds[1..], k, i - 1);
    }
  }

  /** Once an id is in the add registry, further staging never changes its entry. */
  lemma {:induction false} KeptOnceStaged(m: map<string, SearchIndexData>, active: seq<string>, ds: seq<SearchIndexData>, k: string)
    requires k in m
    ensures k in StageAdds(m, active, ds) && StageAdds(m, active, ds)[k] == m[k]
    decreases |ds|
  {
    if ds != [] {
      KeptOnceStaged(StageAdd(m, active, ds[0]), active, ds[1..], k);
    }
  }

  /** Staging removals or updates keeps the last admitted item for an id. */
  lemma {:induction false} LastWriteWins<T>(m: map<string, T>, active: seq<string>, ds: seq<T>, base: T -> BaseIndexData, k: string, i: nat)
    requires i < |ds| && Lands(active, base(ds[i]), k)
    requires forall j :: i < j < |ds| ==> !Lands(active, base(ds[j]), k)
    ensures k in StageLastWrites(m, active, ds, base) && StageLastWrites(m, active, ds, base)[k] == ds[i]
    decreases |ds|
  {
    var m' := StageLastWrite(m, active, base(ds[0]), ds[0]);
    if i == 0 {
      assert k in m' && m'[k] == ds[0];
      forall j | 0 <= j < |ds[1..]| ensures !Lands(active, base(ds[1..][j]), k) {
        assert ds[1..][j] == ds[j + 1];
      }
      UntouchedByOthers(m', active, ds[1..], base, k);
    } else {
      forall j | i - 1 < j < |ds[1..]| ensures !Lands(active, base(ds[1..][j]), k) {
        assert ds[1..][j] == ds[j + 1];
      }
      LastWriteWins(m', active, ds[1..], base, k, i - 1);
    }
  }

  /** Staging calls that do not land on `k` leave its entry, or its absence, as it was. */
  lemma {:induction false} UntouchedByOthers<T>(m: map<string, T>, active: seq<string>, ds: seq<T>, base: T -> BaseIndexData, k: string)
    requires forall j :: 0 <= j < |ds| ==> !Lands(active, base(ds[j]), k)
    ensures var r := StageLastWrites(m, active, ds, base);
      (k in r <==> k in m) && (k in m ==> r[k] == m[k])
    decreases |ds|
  {
    if ds != [] {
      var m' := StageLastWrite(m, active, base(ds[0]), ds[0]);
      assert !Lands(active, base(ds[0]), k);
      forall j | 0 <= j < |ds[1..]| ensures !Lands(active, base(ds[1..][j]), k) {
        assert ds[1..][j] == ds[j + 1];
      }
      UntouchedByOthers(m', active, ds[1..], base, k);
    }
  }

  /** `order` visits every key of `keys` exactly once. */
  ghost predicate IsEnumeration(order: seq<string>, keys: set<string>)
  {
    && |order| == |keys|
    && (forall i, j :: 0 <= i < j < |order| ==> order[i] != order[j])
    && (forall k :: k in keys <==> k in order)
  }

  /** Some order in which a set of keys can be visited. */
  ghost function Enumerate(keys: set<string>): (order: seq<string>)
    ensures IsEnumeration(order, keys)
    decreases |keys|
  {
    if keys == {} then []
    else
      var k :| k in keys;
      [k] + Enumerate(keys - {k})
  }

  /**
   * Iterates over the entries of a registry. The source's concurrent hash map
   * promises no order, so the model picks each next key arbitrarily and
   * promises only that every key is visited once.
   */
  method EntryOrder<T>(m: map<string, T>) returns (order: seq<string>)
    ensures IsEnumeration(order, m.Keys)
  {
    order := [];
    var rest := m.Keys;
    while rest != {}
      invariant rest <= m.Keys
      invariant forall k :: k in m.Keys <==> k in rest || k in order
      invariant forall k :: k in rest ==> k !in order
      invariant forall i, j :: 0 <= i < j < |order| ==> order[i] != order[j]
      invariant |order| + |rest| == |m.Keys|
      decreases rest
    {
      var k :| k in rest;
      order := order + [k];
      rest := rest - {k};
    }
  }

  /** The registry's values, visited in `order`. */
  function ValuesInOrder<T>(m: map<string, T>, order: seq<string>): (vs: seq<T>)
    requires forall k :: k in order ==> k in m
    ensures |vs| == |order|
  {
    seq(|order|, j requires 0 <= j < |order| => m[order[j]])
  }

  /** Visiting a keyed registry in an order yields items whose ids are exactly that order. */
  lemma ItemIdsInOrder(m: map<string, SearchIndexData>, order: seq<string>)
    requires ItemsKeyed(m) && forall k :: k in order ==> k in m
    ensures var vs := ValuesInOrder(m, order);
      forall j :: 0 <= j < |order| ==> vs[j].base.uniqueIndexId == order[j]
  {
  }
}
