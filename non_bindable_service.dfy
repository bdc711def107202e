/**
 * The binding service a broker uses when its services are not bindable
 * (NonBindableServiceInstanceBindingService): it has no configuration, and
 * both binding operations fail with an UnsupportedOperationException instead
 * of producing a response.
 */
module NonBindableBindingService {
  import opened JavaLang
  import opened BindingRequests
  import AppBindingResponse

  /** The service holds no state. */
  datatype Service = NonBindableService

  /** The response to a successful binding deletion. */
  datatype DeleteBindingResponse = DeleteBindingResponse(async: bool, operation: Nullable<string>)

  /** The failure both operations report; its message text is not modelled. */
  const Unsupported := Throwable(UnsupportedOperationExceptionClass, Null)

  /** createServiceInstanceBinding(request): fails as unsupported, whatever the request. */
  function CreateServiceInstanceBinding(service: Service, request: CreateBindingRequest)
    : (r: Result<AppBindingResponse.Response, Throwable>)
    ensures r.Failure? && r.error.className == UnsupportedOperationExceptionClass
  {
    Failure(Unsupported)
  }

  /** deleteServiceInstanceBinding(request): fails as unsupported, whatever the request. */
  function DeleteServiceInstanceBinding(service: Service, request: DeleteBindingRequest)
    : (r: Result<DeleteBindingResponse, Throwable>)
    ensures r.Failure? && r.error.className == UnsupportedOperationExceptionClass
  {
    Failure(Unsupported)
  }

  /** No request, however it is built, makes either operation succeed, and both fail the same way. */
  lemma NoBindingOperationSucceeds(service: Service, create: CreateBindingRequest, delete: DeleteBindingRequest)
    ensures !CreateServiceInstanceBinding(service, create).Success?
    ensures !DeleteServiceInstanceBinding(service, delete).Success?
    ensures CreateServiceInstanceBinding(service, create).error == DeleteServiceInstanceBinding(service, delete).error
  {
  }

  /** A freshly constructed service already rejects the empty requests of both operations. */
  lemma FreshServiceRejectsEmptyRequests()
    ensures CreateServiceInstanceBinding(NonBindableService, EmptyCreateRequest()).Failure?
    ensures DeleteServiceInstanceBinding(NonBindableService, EmptyDeleteRequest()).Failure?
  {
  }
}
