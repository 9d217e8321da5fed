/**
 * Error translation at the commit boundary: each dispatch exception becomes one
 * IndexingException whose message is a kind-specific prefix followed by the
 * original message.
 */
module Errors {
  import opened Types

  /** The prefix commit puts in front of the message of each exception kind. */
  function Prefix(kind: ExceptionKind): string
  {
    match kind
    case IOException => "IO Exception: "
    case ParserConfigurationException => "ParserConfigurationException: "
    case SAXException => "SAXException:"
    case DocumentServiceException => "Configuration Exception:"
    case AmazonClientException => "AmazonClientException Exception:"
  }

  /** The exception commit rethrows for a dispatch failure. */
  function Translate(f: DispatchFailure): (e: IndexingException)
    ensures Prefix(f.kind) <= e.message
    ensures e.message[|Prefix(f.kind)|..] == f.message
  {
    IndexingException(Prefix(f.kind) + f.message)
  }

  /**
   * Commit's outcome: nothing on success; on failure an exception from whose
   * message the failure's kind and original message can be read back.
   */
  function Translated(failure: Option<DispatchFailure>): (r: Option<IndexingException>)
    ensures r.None? <==> failure.None?
    ensures r.Some? ==> Classify(r.value.message) == failure
  {
    match failure
    case None => None
    case Some(f) => ClassifyTranslate(f); Some(Translate(f))
  }

  /** Reads the kind and the original message back from a translated message. */
  function Classify(message: string): Option<DispatchFailure>
  {
    if Prefix(IOException) <= message then
      Some(DispatchFailure(IOException, message[|Prefix(IOException)|..]))
    else if Prefix(ParserConfigurationException) <= message then
      Some(DispatchFailure(ParserConfigurationException, message[|Prefix(ParserConfigurationException)|..]))
    else if Prefix(SAXException) <= message then
      Some(DispatchFailure(SAXException, message[|Prefix(SAXException)|..]))
    else if Prefix(DocumentServiceException) <= message then
      Some(DispatchFailure(DocumentServiceException, message[|Prefix(DocumentServiceException)|..]))
    else if Prefix(AmazonClientException) <= message then
      Some(DispatchFailure(AmazonClientException, message[|Prefix(AmazonClientException)|..]))
    else None
  }

  /** The prefixes start with different letters, so no translated message is lost. */
  lemma ClassifyTranslate(f: DispatchFailure)
    ensures Classify(Translate(f).message) == Some(f)
  {
    var m := Translate(f).message;
    assert m[0] == Prefix(f.kind)[0];
    match f.kind
    case IOException =>
    case ParserConfigurationException =>
      NotPrefix(Prefix(IOException), m);
    case SAXException =>
      NotPrefix(Prefix(IOException), m);
      NotPrefix(Prefix(ParserConfigurationException), m);
    case DocumentServiceException =>
      NotPrefix(Prefix(IOException), m);
      NotPrefix(Prefix(ParserConfigurationException), m);
      NotPrefix(Prefix(SAXException), m);
    case AmazonClientException =>
      NotPrefix(Prefix(IOException), m);
      NotPrefix(Prefix(ParserConfigurationException), m);
      NotPrefix(Prefix(SAXException), m);
      NotPrefix(Prefix(DocumentServiceException), m);
  }

  /** A string is not a prefix of a message that starts with another letter. */
  lemma NotPrefix(p: string, m: string)
    requires |p| > 0 && |m| > 0 && p[0] != m[0]
    ensures !(p <= m)
  {
  }

  /** Two failures translate to the same exception only when they are the same failure. */
  lemma TranslateInjective(f: DispatchFailure, g: DispatchFailure)
    ensures Translate(f) == Translate(g) ==> f == g
  {
    ClassifyTranslate(f);
    ClassifyTranslate(g);
  }
}
