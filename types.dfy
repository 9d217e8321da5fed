/**
 * Values exchanged by the CloudSearch indexer: the staged index items, the
 * documents built from them, and the packages handed to the dispatcher.
 */
module Types {

  datatype Option<+T> = None | Some(value: T)

  /** A field value; the source stores arbitrary objects, the model only keeps them apart. */
  type FieldValue = string

  /**
   * An item identified for indexing. A missing (null) unique id and an empty
   * one are rejected by the same test, so both are represented by "".
   */
  datatype BaseIndexData = BaseIndexData(uniqueIndexId: string, publicationItemId: string)

  /** An item with content: its base identity plus field name -> ordered values. */
  datatype SearchIndexData = SearchIndexData(base: BaseIndexData, indexFields: map<string, seq<FieldValue>>)

  /** A binary item; its registry exists but is never filled. */
  datatype BinaryIndexData = BinaryIndexData(base: BaseIndexData)

  /** How one field is sent on the wire: a lone value, or the whole list of values. */
  datatype FieldPayload = Scalar(value: FieldValue) | Multi(values: seq<FieldValue>)

  /** One document operation of a batch: `add` with fields, or `delete` with the id only. */
  datatype DocumentData = Add(id: string, fields: map<string, FieldPayload>) | Delete(id: string)

  type DocumentBatch = seq<DocumentData>

  /** Endpoint, authentication mode and credentials ("" where the source leaves them null). */
  datatype ClientRequest = ClientRequest(documentEndpoint: string, authentication: string,
                                         accessKeyId: string, secretAccessKey: string)

  /** The dispatcher action; the source uses PERSIST for adds and for removals alike. */
  datatype DispatcherAction = Persist

  datatype DispatcherPackage = DispatcherPackage(action: DispatcherAction, request: ClientRequest, batch: DocumentBatch)

  /** The two dispatcher entry points the core calls. */
  datatype CallKind = AddDocuments | RemoveFromCloudSearch

  /** One recorded call on the dispatcher. */
  datatype DispatchCall = DispatchCall(kind: CallKind, pkg: DispatcherPackage)

  /** The checked and unchecked exceptions a dispatch may raise, and that commit catches. */
  datatype ExceptionKind =
    | IOException
    | ParserConfigurationException
    | SAXException
    | DocumentServiceException
    | AmazonClientException

  datatype DispatchFailure = DispatchFailure(kind: ExceptionKind, message: string)

  /** The single error kind commit raises to its caller. */
  datatype IndexingException = IndexingException(message: string)
}
