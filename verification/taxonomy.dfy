/**
 * The closed set of Haystack error kinds (haystack/errors.py), the tree they form,
 * and the per-kind constructor signatures: which of `docs_link`,
 * `send_message_in_event` and `status_code` a kind lets the caller pass, and the
 * value each takes when it is not passed or cannot be.
 */
module Taxonomy {
  import opened Wrappers

  /** One constructor per Python class, in the order the file declares them. */
  datatype Kind =
    | HaystackError
    | ModelingError
    | PipelineError
    | PipelineSchemaError
    | PipelineConfigError
    | DocumentStoreError
    | FilterError
    | PineconeDocumentStoreError
    | DuplicateDocumentError
    | NodeError
    | AudioNodeError
    | OpenAIError
    | OpenAIRateLimitError
    | CohereError
    | ImageToTextError

  /** The class name, as `type(self).__name__` yields it. */
  function Name(k: Kind): string {
    match k
    case HaystackError => "HaystackError"
    case ModelingError => "ModelingError"
    case PipelineError => "PipelineError"
    case PipelineSchemaError => "PipelineSchemaError"
    case PipelineConfigError => "PipelineConfigError"
    case DocumentStoreError => "DocumentStoreError"
    case FilterError => "FilterError"
    case PineconeDocumentStoreError => "PineconeDocumentStoreError"
    case DuplicateDocumentError => "DuplicateDocumentError"
    case NodeError => "NodeError"
    case AudioNodeError => "AudioNodeError"
    case OpenAIError => "OpenAIError"
    case OpenAIRateLimitError => "OpenAIRateLimitError"
    case CohereError => "CohereError"
    case ImageToTextError => "ImageToTextError"
  }

  /**
   * Reads a class name back; the inverse of Name on the names it produces. It
   * looks at the length first, so each name is compared with few candidates.
   */
  function KindOfName(s: string): Option<Kind> {
    match |s|
    case 9 => if s == "NodeError" then Some(NodeError) else None
    case 11 =>
      if s == "FilterError" then Some(FilterError)
      else if s == "OpenAIError" then Some(OpenAIError)
      else if s == "CohereError" then Some(CohereError)
      else None
    case 13 =>
      if s == "HaystackError" then Some(HaystackError)
      else if s == "ModelingError" then Some(ModelingError)
      else if s == "PipelineError" then Some(PipelineError)
      else None
    case 14 => if s == "AudioNodeError" then Some(AudioNodeError) else None
    case 16 => if s == "ImageToTextError" then Some(ImageToTextError) else None
    case 18 => if s == "DocumentStoreError" then Some(DocumentStoreError) else None
    case 19 =>
      if s == "PipelineSchemaError" then Some(PipelineSchemaError)
      else if s == "PipelineConfigError" then Some(PipelineConfigError)
      else None
    case 20 => if s == "OpenAIRateLimitError" then Some(OpenAIRateLimitError) else None
    case 22 => if s == "DuplicateDocumentError" then Some(DuplicateDocumentError) else None
    case 26 => if s == "PineconeDocumentStoreError" then Some(PineconeDocumentStoreError) else None
    case _ => None
  }

  lemma NameRoundTrip(k: Kind)
    ensures KindOfName(Name(k)) == Some(k)
  {
  }

  /** Distance from the root HaystackError; the measure that makes IsA terminate. */
  function Depth(k: Kind): nat {
    match k
    case HaystackError => 0
    case ModelingError | PipelineError | DocumentStoreError | NodeError => 1
    case PipelineSchemaError | PipelineConfigError => 2
    case FilterError | PineconeDocumentStoreError | DuplicateDocumentError => 2
    case AudioNodeError | OpenAIError | CohereError | ImageToTextError => 2
    case OpenAIRateLimitError => 3
  }

  /** The single Haystack base class of each kind (the root has none). */
  function Parent(k: Kind): (p: Option<Kind>)
    ensures p.None? <==> k == HaystackError
    ensures p.Some? ==> Depth(p.value) + 1 == Depth(k)
  {
    match k
    case HaystackError => None
    case ModelingError | PipelineError | DocumentStoreError | NodeError => Some(HaystackError)
    case PipelineSchemaError | PipelineConfigError => Some(PipelineError)
    case FilterError | PineconeDocumentStoreError | DuplicateDocumentError => Some(DocumentStoreError)
    case AudioNodeError | OpenAIError | CohereError | ImageToTextError => Some(NodeError)
    case OpenAIRateLimitError => Some(OpenAIError)
  }

  /** `issubclass(k, a)` restricted to Haystack classes: `a` is `k` or one of its ancestors. */
  predicate IsA(k: Kind, a: Kind)
    decreases Depth(k)
    ensures IsA(k, a) ==> Depth(a) <= Depth(k)
  {
    if k == a then true
    else match Parent(k)
      case None => false
      case Some(p) => IsA(p, a)
  }

  /** The second base of DuplicateDocumentError: it is also a built-in ValueError. */
  predicate IsValueError(k: Kind) {
    k == DuplicateDocumentError
  }

  /** Every kind is a HaystackError, so `except HaystackError` catches all of them. */
  lemma {:induction false} EveryKindIsHaystackError(k: Kind)
    ensures IsA(k, HaystackError)
    decreases Depth(k)
  {
    if k != HaystackError {
      EveryKindIsHaystackError(Parent(k).value);
    }
  }

  /** Subclassing is transitive: catching a base catches the subclasses of its subclasses. */
  lemma {:induction false} IsATransitive(a: Kind, b: Kind, c: Kind)
    requires IsA(a, b) && IsA(b, c)
    ensures IsA(a, c)
    decreases Depth(a)
  {
    if a != b {
      IsATransitive(Parent(a).value, b, c);
    }
  }

  /** Two kinds that are each a subclass of the other are the same kind: the tree has no cycle. */
  lemma {:induction false} IsAAntisymmetric(a: Kind, b: Kind)
    requires IsA(a, b) && IsA(b, a)
    ensures a == b
  {
  }

  /**
   * DuplicateDocumentError answers both capability checks: it is caught by
   * `except DocumentStoreError` (and by its ancestors) and by `except ValueError`;
   * no other kind is a ValueError.
   */
  lemma DuplicateDocumentCapabilities(k: Kind)
    ensures IsA(DuplicateDocumentError, DocumentStoreError) && IsA(DuplicateDocumentError, HaystackError)
    ensures IsValueError(DuplicateDocumentError)
    ensures IsValueError(k) ==> IsA(k, DocumentStoreError)
  {
  }

  /** How a constructor parameter behaves: pinned by the class, or exposed with a default. */
  datatype Param<T> = Fixed(value: T) | Exposed(value: T)

  /** The documentation links the constructors default to. */
  const ModelingDocs := "https://haystack.deepset.ai/"
  const PipelinesDocs := "https://docs.haystack.deepset.ai/docs/pipelines"
  const PipelineYamlDocs := "https://docs.haystack.deepset.ai/docs/pipelines#yaml-file-definitions"

  /**
   * What a kind's `__init__` lets the caller pass and what it forwards otherwise.
   * `statusCode` is None for kinds that never assign a `status_code` attribute.
   */
  datatype Signature = Signature(
    docsLink: Param<Option<string>>,
    sendMessageInEvent: Param<bool>,
    statusCode: Option<Param<Option<int>>>)

  /** Remote-API kinds: the ones that wrap a provider's HTTP failure. */
  predicate IsRemoteApi(k: Kind) {
    IsA(k, OpenAIError) || IsA(k, CohereError)
  }

  /** The document-store family, read off the tree. */
  lemma {:induction false} DocumentStoreFamily(k: Kind)
    ensures IsA(k, DocumentStoreError) <==> k in {DocumentStoreError, FilterError, PineconeDocumentStoreError, DuplicateDocumentError}
  {
    match k
    case HaystackError =>
    case ModelingError =>
    case PipelineError =>
    case PipelineSchemaError =>
    case PipelineConfigError =>
    case DocumentStoreError =>
    case FilterError =>
    case PineconeDocumentStoreError =>
    case DuplicateDocumentError =>
    case NodeError =>
    case AudioNodeError =>
    case OpenAIError =>
    case OpenAIRateLimitError =>
    case CohereError =>
    case ImageToTextError =>
  }

  /** The remote-API kinds, read off the tree. */
  lemma {:induction false} RemoteApiFamily(k: Kind)
    ensures IsRemoteApi(k) <==> k in {OpenAIError, OpenAIRateLimitError, CohereError}
  {
    match k
    case HaystackError =>
    case ModelingError =>
    case PipelineError =>
    case PipelineSchemaError =>
    case PipelineConfigError =>
    case DocumentStoreError =>
    case FilterError =>
    case PineconeDocumentStoreError =>
    case DuplicateDocumentError =>
    case NodeError =>
    case AudioNodeError =>
    case OpenAIError =>
    case OpenAIRateLimitError =>
    case CohereError =>
    case ImageToTextError =>
  }

  /** The pipeline family, read off the tree. */
  lemma {:induction false} PipelineFamily(k: Kind)
    ensures IsA(k, PipelineError) <==> k in {PipelineError, PipelineSchemaError, PipelineConfigError}
  {
    match k
    case HaystackError =>
    case ModelingError =>
    case PipelineError =>
    case PipelineSchemaError =>
    case PipelineConfigError =>
    case DocumentStoreError =>
    case FilterError =>
    case PineconeDocumentStoreError =>
    case DuplicateDocumentError =>
    case NodeError =>
    case AudioNodeError =>
    case OpenAIError =>
    case OpenAIRateLimitError =>
    case CohereError =>
    case ImageToTextError =>
  }

  /**
   * The per-kind constructor table, one row per `__init__`; SignatureFollowsTree
   * relates it to the tree. A default docs link is only ever offered by a class
   * that also lets the caller replace it, except PipelineSchemaError, which
   * forwards its parent's; a pinned status code is 429; the root exposes every
   * parameter it has.
   */
  function SignatureOf(k: Kind): (s: Signature)
    ensures s.docsLink.value.Some? ==> s.docsLink.Exposed? || k == PipelineSchemaError
    ensures s.docsLink.Fixed? && k != PipelineSchemaError ==> s.docsLink.value == None
    ensures s.statusCode.Some? && s.statusCode.value.Fixed? ==> s.statusCode.value.value == Some(429)
    ensures k == HaystackError ==> s.docsLink.Exposed? && s.sendMessageInEvent.Exposed? && s.statusCode.None?
  {
    match k
    case HaystackError => Signature(Exposed(None), Exposed(true), None)
    case ModelingError => Signature(Exposed(Some(ModelingDocs)), Fixed(true), None)
    case PipelineError => Signature(Exposed(Some(PipelinesDocs)), Fixed(true), None)
    case PipelineSchemaError => Signature(Fixed(Some(PipelinesDocs)), Fixed(true), None)
    case PipelineConfigError => Signature(Exposed(Some(PipelineYamlDocs)), Fixed(true), None)
    case DocumentStoreError => Signature(Fixed(None), Exposed(false), None)
    case FilterError | PineconeDocumentStoreError | DuplicateDocumentError =>
      Signature(Fixed(None), Fixed(false), None)
    case NodeError => Signature(Fixed(None), Exposed(true), None)
    case AudioNodeError | ImageToTextError => Signature(Fixed(None), Fixed(true), None)
    case OpenAIError | CohereError => Signature(Fixed(None), Exposed(false), Some(Exposed(None)))
    case OpenAIRateLimitError => Signature(Fixed(None), Exposed(false), Some(Fixed(Some(429))))
  }

  /**
   * The constructor table follows the tree: the message is kept out of telemetry
   * by default exactly for the document-store and remote-API families,
   * `status_code` exists exactly on remote-API kinds and is pinned, to 429,
   * exactly on the rate-limit kind, and only the modeling and pipeline families
   * default to a documentation link.
   */
  lemma SignatureFollowsTree(k: Kind)
    ensures var s := SignatureOf(k);
      && (s.sendMessageInEvent.value <==> !(IsA(k, DocumentStoreError) || IsRemoteApi(k)))
      && (s.statusCode.Some? <==> IsRemoteApi(k))
      && (s.statusCode.Some? && s.statusCode.value.Fixed? <==> k == OpenAIRateLimitError)
      && (s.statusCode.Some? && s.statusCode.value.Fixed? ==> s.statusCode.value.value == Some(429))
      && (s.statusCode.Some? && s.statusCode.value.Exposed? ==> s.statusCode.value.value == None)
      && (s.docsLink.value.Some? ==> k == ModelingError || IsA(k, PipelineError))
  {
    DocumentStoreFamily(k);
    RemoteApiFamily(k);
    PipelineFamily(k);
  }
}
