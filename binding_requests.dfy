/**
 * The values that reach the binding components: the platform context and the
 * create and delete binding requests. Only identifiers, context and
 * parameters are carried; their builders and validation are not modelled.
 */
module BindingRequests {
  import opened JavaLang

  /** Platform-specific context: the platform's name and a free-form property map. */
  datatype PlatformContext = PlatformContext(platform: Nullable<string>, properties: map<string, Object>)

  /** A request to create a service instance binding. */
  datatype CreateBindingRequest = CreateBindingRequest(
    serviceInstanceId: Nullable<string>,
    bindingId: Nullable<string>,
    context: Nullable<PlatformContext>,
    parameters: map<string, Object>)

  /** A request to delete a service instance binding. */
  datatype DeleteBindingRequest = DeleteBindingRequest(
    serviceInstanceId: Nullable<string>,
    bindingId: Nullable<string>)

  /** What CreateServiceInstanceBindingRequest.builder().build() yields: nothing set. */
  function EmptyCreateRequest(): CreateBindingRequest
  {
    CreateBindingRequest(Null, Null, Null, map[])
  }

  /** What DeleteServiceInstanceBindingRequest.builder().build() yields: nothing set. */
  function EmptyDeleteRequest(): DeleteBindingRequest
  {
    DeleteBindingRequest(Null, Null)
  }
}
