/**
 * The response a service broker returns to a request to bind an application
 * to a service instance (CreateServiceInstanceAppBindingResponse): its eight
 * fields, its equality, and the HTTP status code its doc comments assign to
 * a binding status and the async flag, following the binding "Response"
 * section of the Open Service Broker API.
 */
module AppBindingResponse {
  import opened JavaLang

  /** Whether a binding is new or already existed with the same or with different parameters. */
  datatype BindingStatus = New | ExistsWithIdenticalParameters | ExistsWithDifferentParameters

  /** Binding metadata; only its expiry time is carried. */
  datatype BindingMetadata = BindingMetadata(expiresAt: Nullable<string>)

  /** A volume mount and an endpoint are carried as opaque values. */
  datatype VolumeMount = VolumeMount(descriptor: string)
  datatype Endpoint = Endpoint(descriptor: string)

  /**
   * The eight fields of a response, in the order of the all-arguments
   * constructor: the first four belong to the superclasses, the last four to
   * the app binding response itself.
   */
  datatype Response = Response(
    async: bool,
    operation: Nullable<string>,
    bindingStatus: Nullable<BindingStatus>,
    metadata: Nullable<BindingMetadata>,
    credentials: map<string, Object>,
    syslogDrainUrl: Nullable<string>,
    volumeMounts: seq<VolumeMount>,
    endpoints: seq<Endpoint>)

  /** The response the no-argument constructor builds. */
  function DefaultResponse(): Response
  {
    Response(false, Null, NonNull(New), Null, map[], Null, [], [])
  }

  /** The comparison the superclasses' equals makes: async, operation, binding status and metadata. */
  predicate SuperclassEquals(a: Response, b: Response)
  {
    a.async == b.async && a.operation == b.operation && a.bindingStatus == b.bindingStatus && a.metadata == b.metadata
  }

  /** equals: the superclass fields, then credentials, syslog drain URL, volume mounts and endpoints. */
  predicate Equals(a: Response, b: Response)
  {
    && SuperclassEquals(a, b)
    && a.credentials == b.credentials
    && a.syslogDrainUrl == b.syslogDrainUrl
    && a.volumeMounts == b.volumeMounts
    && a.endpoints == b.endpoints
  }

  /** Two responses are equal exactly when all eight fields are. */
  lemma EqualsIsStructural(a: Response, b: Response)
    ensures Equals(a, b) <==> a == b
  {
  }

  const Ok := 200
  const Created := 201
  const Accepted := 202
  const Conflict := 409

  /**
   * The HTTP status code the doc comments promise: an async response is
   * 202 ACCEPTED; otherwise NEW is 201 CREATED, EXISTS_WITH_IDENTICAL_PARAMETERS
   * is 200 OK and EXISTS_WITH_DIFFERENT_PARAMETERS is 409 CONFLICT. A
   * synchronous response with no binding status is given no code.
   */
  function ResponseCode(r: Response): (code: Option<int>)
    ensures code == Some(Accepted) <==> r.async
    ensures code == Some(Created) <==> !r.async && r.bindingStatus == NonNull(New)
    ensures code == Some(Ok) <==> !r.async && r.bindingStatus == NonNull(ExistsWithIdenticalParameters)
    ensures code == Some(Conflict) <==> !r.async && r.bindingStatus == NonNull(ExistsWithDifferentParameters)
    ensures code.Some? <==> r.async || r.bindingStatus.NonNull?
  {
    if r.async then Some(Accepted)
    else
      match r.bindingStatus
      case Null => None
      case NonNull(New) => Some(Created)
      case NonNull(ExistsWithIdenticalParameters) => Some(Ok)
      case NonNull(ExistsWithDifferentParameters) => Some(Conflict)
  }

  /** A NEW binding is 201 when synchronous and 202 when asynchronous. */
  lemma NewBindingCode(r: Response)
    requires r.bindingStatus == NonNull(New)
    ensures ResponseCode(r) == Some(if r.async then Accepted else Created)
  {
  }

  /** Equal responses get equal codes, and the code depends on nothing but async and the binding status. */
  lemma ResponseCodeDependsOnAsyncAndStatus(a: Response, b: Response)
    requires a.async == b.async && a.bindingStatus == b.bindingStatus
    ensures ResponseCode(a) == ResponseCode(b)
  {
  }

  /** The no-argument constructor's response is a new, synchronous binding: 201 CREATED. */
  lemma DefaultResponseIsCreated()
    ensures ResponseCode(DefaultResponse()) == Some(Created)
    ensures DefaultResponse().credentials == map[] && DefaultResponse().volumeMounts == [] && DefaultResponse().endpoints == []
  {
  }
}
