/**
 * Document construction: an `add` operation carries the item's id and one
 * payload per field; a `delete` operation carries only the id.
 */
module Documents {
  import opened Types

  /** The values a payload stands for. */
  function PayloadValues(p: FieldPayload): seq<FieldValue>
  {
    match p
    case Scalar(v) => [v]
    case Multi(vs) => vs
  }

  /** Exactly one value is sent as a scalar; any other count, zero included, as the list. */
  function Payload(values: seq<FieldValue>): (p: FieldPayload)
    ensures p.Scalar? <==> |values| == 1
    ensures PayloadValues(p) == values
  {
    if |values| == 1 then Scalar(values[0]) else Multi(values)
  }

  /** The `add` operation built for a staged item. */
  function InputDocument(data: SearchIndexData): (d: DocumentData)
    ensures d.Add? && d.id == data.base.uniqueIndexId
    ensures d.fields.Keys == data.indexFields.Keys
    ensures forall f :: f in d.fields ==>
      PayloadValues(d.fields[f]) == data.indexFields[f] &&
      (d.fields[f].Scalar? <==> |data.indexFields[f]| == 1)
  {
    Add(data.base.uniqueIndexId, map f | f in data.indexFields :: Payload(data.indexFields[f]))
  }

  /** The `delete` operation built for a staged removal. */
  function DeleteDocument(data: BaseIndexData): DocumentData
  {
    Delete(data.uniqueIndexId)
  }

  function InputDocuments(items: seq<SearchIndexData>): (ds: seq<DocumentData>)
    ensures |ds| == |items|
  {
    seq(|items|, j requires 0 <= j < |items| => InputDocument(items[j]))
  }

  function DeleteDocuments(items: seq<BaseIndexData>): (ds: seq<DocumentData>)
    ensures |ds| == |items|
  {
    seq(|items|, j requires 0 <= j < |items| => DeleteDocument(items[j]))
  }

  /** Building the operations of one more item appends its `add` operation. */
  lemma InputDocumentsSnoc(items: seq<SearchIndexData>, i: nat)
    requires i < |items|
    ensures InputDocuments(items[..i + 1]) == InputDocuments(items[..i]) + [InputDocument(items[i])]
  {
  }

  /** Building the operations of one more removal appends its `delete` operation. */
  lemma DeleteDocumentsSnoc(items: seq<BaseIndexData>, i: nat)
    requires i < |items|
    ensures DeleteDocuments(items[..i + 1]) == DeleteDocuments(items[..i]) + [DeleteDocument(items[i])]
  {
  }

  /** The ids of a sequence of document operations, in order. */
  function Ids(docs: seq<DocumentData>): (r: seq<string>)
    ensures |r| == |docs|
  {
    seq(|docs|, j requires 0 <= j < |docs| => docs[j].id)
  }

  /** Building either kind of operation keeps each item's id, in order. */
  lemma DocumentIds(adds: seq<SearchIndexData>, removals: seq<BaseIndexData>)
    ensures Ids(InputDocuments(adds)) == seq(|adds|, j requires 0 <= j < |adds| => adds[j].base.uniqueIndexId)
    ensures Ids(DeleteDocuments(removals)) == seq(|removals|, j requires 0 <= j < |removals| => removals[j].uniqueIndexId)
  {
  }

  lemma IdsAppend(a: seq<DocumentData>, b: seq<DocumentData>)
    ensures Ids(a + b) == Ids(a) + Ids(b)
  {
  }

  /** Builds the `add` operation field by field, as the source's loop over the field map does. */
  method ConstructInputDocument(data: SearchIndexData) returns (document: DocumentData)
    ensures document == InputDocument(data)
  {
    var fieldList := data.indexFields;
    var fields: map<string, FieldPayload> := map[];
    var rest := fieldList.Keys;
    while rest != {}
      invariant rest <= fieldList.Keys
      invariant fields.Keys == fieldList.Keys - rest
      invariant forall f :: f in fields ==> fields[f] == Payload(fieldList[f])
      decreases rest
    {
      var fieldName :| fieldName in rest;
      var fieldValues := fieldList[fieldName];
      if |fieldValues| == 1 {
        fields := fields[fieldName := Scalar(fieldValues[0])];
      } else {
        fields := fields[fieldName := Multi(fieldValues)];
      }
      rest := rest - {fieldName};
    }
    document := Add(data.base.uniqueIndexId, fields);
  }
}
