# Spring Cloud Open Service Broker: binding components in Dafny

A model of seven small components of a Spring Cloud Open Service Broker
implementation, the server side of the Open Service Broker API, with proofs
of what their code and tests promise.

- **App binding response** (`app_binding_response.dfy`, `app_binding_builder.dfy`):
  - `CreateServiceInstanceAppBindingResponse` is a datatype of its eight fields.
  - Its `equals` is a field-by-field predicate.
  - The HTTP status code its doc comments promise is a function of `async` and the binding status.
  - Its builder is a class whose fields the calls update in place.
  - Every builder method is specified by a pure step function `Apply` on the state that `build()` would return.
  - Lemmas over any sequence of calls say what a chain of builder calls produces.
- **Map accumulation** (`map_updates.dfy`): `put` and `putAll` on a HashMap, shared by the credentials and route parameters.
- **Event flow registry** (`event_flow_registry.dfy`): three fixed lists of flows. Each `get*` is a fan-out to a multiset of flow invocations.
- **Update-not-supported error** (`update_not_supported.dfy`): the `ErrorMessage` of `ServiceInstanceUpdateNotSupportedException`.
- **Route binding response** (`route_binding_response.dfy`): the builder of `GetServiceInstanceRouteBindingResponse` as a class.
- **Parameter-to-bean mapping** (`parameter_bean_mapper.dfy`): `mapParametersToBean` for the `TestBean`/`NestedBean` shape. It is a loop over the map's entries that calls setters on mutable beans.
- **Non-bindable binding service** (`non_bindable_service.dfy`): both binding operations fail as unsupported.
- **Empty base path routing** (`base_path_routing.dfy`): which path prefixes reach a broker with no base path, and the platform id read from them.

Java references are `Nullable<T>`. `Map<String, Object>` values are `Object` (a boxed String, Integer, Boolean or null). `int` is `int32`.
The request values and `PlatformContext` are plain datatypes (`binding_requests.dfy`).

The response-code doc comments disagree when a response is async and already exists.
The `bindingStatus` comment (CreateServiceInstanceAppBindingResponse.java:318-322) gives 200 or 409 without mentioning `async`.
The `async` comment (lines 375-377) says `async=true` gives 202 and that only otherwise does the status decide.
`ResponseCode` gives `async` precedence, as the `async` comment states.

## Model

| member | source | states |
|---|---|---|
| AppBindingResponse.EqualsIsStructural | spring-cloud-open-service-broker-core/src/main/java/org/springframework/cloud/servicebroker/model/binding/CreateServiceInstanceAppBindingResponse.java:145-162 | two responses are equal exactly when the superclass fields, credentials, syslog drain URL, volume mounts and endpoints are all equal |
| AppBindingResponse.ResponseCode | spring-cloud-open-service-broker-core/src/main/java/org/springframework/cloud/servicebroker/model/binding/CreateServiceInstanceAppBindingResponse.java:314-387 | async gives 202; otherwise NEW gives 201, EXISTS_WITH_IDENTICAL_PARAMETERS 200, EXISTS_WITH_DIFFERENT_PARAMETERS 409; each code in both directions, so 409 only from different parameters and 202 only when async |
| AppBindingResponse.NewBindingCode | spring-cloud-open-service-broker-core/src/main/java/org/springframework/cloud/servicebroker/model/binding/CreateServiceInstanceAppBindingResponse.java:318-320 | a NEW binding is 201 when synchronous and 202 when async |
| AppBindingResponse.ResponseCodeDependsOnAsyncAndStatus | spring-cloud-open-service-broker-core/src/main/java/org/springframework/cloud/servicebroker/model/binding/CreateServiceInstanceAppBindingResponse.java:374-377 | the code depends on async and the binding status alone |
| AppBindingResponse.DefaultResponseIsCreated | spring-cloud-open-service-broker-core/src/main/java/org/springframework/cloud/servicebroker/model/binding/CreateServiceInstanceAppBindingResponse.java:53-55 | the no-argument constructor's response has empty credentials, volume mounts and endpoints and is 201 CREATED |
| MapUpdates.PutChangesOnlyItsKey | spring-cloud-open-service-broker-core/src/main/java/org/springframework/cloud/servicebroker/model/binding/CreateServiceInstanceAppBindingResponse.java:234-237 | put adds or overwrites exactly its key; every other key keeps its presence and value |
| MapUpdates.PutAllMerges | spring-cloud-open-service-broker-core/src/main/java/org/springframework/cloud/servicebroker/model/binding/CreateServiceInstanceAppBindingResponse.java:219-222 | putAll's keys are the union; keys in the argument take its values, the other keys keep theirs |
| MapUpdates.ApplyUpdatesKeys | spring-cloud-open-service-broker-core/src/main/java/org/springframework/cloud/servicebroker/model/binding/CreateServiceInstanceAppBindingResponse.java:219-237 | after any put/putAll sequence the keys are the original ones plus every key mentioned |
| MapUpdates.ApplyUpdatesLookup | spring-cloud-open-service-broker-core/src/main/java/org/springframework/cloud/servicebroker/model/binding/CreateServiceInstanceAppBindingResponse.java:219-237 | after any put/putAll sequence a key holds the value of the last call that wrote it, or its original value, and is absent otherwise |
| MapUpdates.LastAssignedIffMentioned | spring-cloud-open-service-broker-core/src/test/java/org/springframework/cloud/servicebroker/model/binding/GetServiceInstanceRouteBindingResponseTest.java:56-60 | some call determines a key's final value exactly when some call mentions that key |
| AppBindingResponseBuilder.Builder.constructor | spring-cloud-open-service-broker-core/src/main/java/org/springframework/cloud/servicebroker/model/binding/CreateServiceInstanceAppBindingResponse.java:188-207 | a fresh builder has empty collections, async false and a null binding status |
| AppBindingResponseBuilder.Builder.AddCredentials | spring-cloud-open-service-broker-core/src/main/java/org/springframework/cloud/servicebroker/model/binding/CreateServiceInstanceAppBindingResponse.java:219-222 | credentials(Map) merges every entry; other credentials unchanged; nothing else changes |
| AppBindingResponseBuilder.Builder.PutCredential | spring-cloud-open-service-broker-core/src/main/java/org/springframework/cloud/servicebroker/model/binding/CreateServiceInstanceAppBindingResponse.java:234-237 | credentials(key, value) adds or overwrites exactly that key; nothing else changes |
| AppBindingResponseBuilder.Builder.SetSyslogDrainUrl | spring-cloud-open-service-broker-core/src/main/java/org/springframework/cloud/servicebroker/model/binding/CreateServiceInstanceAppBindingResponse.java:249-252 | sets the syslog drain URL (null allowed) and nothing else |
| AppBindingResponseBuilder.Builder.AddVolumeMounts | spring-cloud-open-service-broker-core/src/main/java/org/springframework/cloud/servicebroker/model/binding/CreateServiceInstanceAppBindingResponse.java:264-282 | both volumeMounts forms append in argument order; nothing else changes |
| AppBindingResponseBuilder.Builder.AddEndpoints | spring-cloud-open-service-broker-core/src/main/java/org/springframework/cloud/servicebroker/model/binding/CreateServiceInstanceAppBindingResponse.java:294-312 | both endpoints forms append in argument order; nothing else changes |
| AppBindingResponseBuilder.Builder.SetBindingStatus | spring-cloud-open-service-broker-core/src/main/java/org/springframework/cloud/servicebroker/model/binding/CreateServiceInstanceAppBindingResponse.java:327-330 | sets the binding status and nothing else |
| AppBindingResponseBuilder.Builder.SetBindingExisted | spring-cloud-open-service-broker-core/src/main/java/org/springframework/cloud/servicebroker/model/binding/CreateServiceInstanceAppBindingResponse.java:346-354 | true sets EXISTS_WITH_IDENTICAL_PARAMETERS, false sets NEW, nothing else changes |
| AppBindingResponseBuilder.Builder.SetMetadata | spring-cloud-open-service-broker-core/src/main/java/org/springframework/cloud/servicebroker/model/binding/CreateServiceInstanceAppBindingResponse.java:365-368 | sets the metadata and nothing else |
| AppBindingResponseBuilder.Builder.SetAsync | spring-cloud-open-service-broker-core/src/main/java/org/springframework/cloud/servicebroker/model/binding/CreateServiceInstanceAppBindingResponse.java:384-387 | sets async and nothing else |
| AppBindingResponseBuilder.Builder.SetOperation | spring-cloud-open-service-broker-core/src/main/java/org/springframework/cloud/servicebroker/model/binding/CreateServiceInstanceAppBindingResponse.java:400-403 | sets the operation and nothing else |
| AppBindingResponseBuilder.Builder.Build | spring-cloud-open-service-broker-core/src/main/java/org/springframework/cloud/servicebroker/model/binding/CreateServiceInstanceAppBindingResponse.java:410-413 | the response's eight fields are the builder's current ones |
| AppBindingResponseBuilder.LastStatusCallWins | spring-cloud-open-service-broker-core/src/main/java/org/springframework/cloud/servicebroker/model/binding/CreateServiceInstanceAppBindingResponse.java:327-354 | over any chain of calls, whichever of bindingStatus/bindingExisted is called last decides the status; with neither, it is unchanged |
| AppBindingResponseBuilder.VolumeMountsAppend | spring-cloud-open-service-broker-core/src/main/java/org/springframework/cloud/servicebroker/model/binding/CreateServiceInstanceAppBindingResponse.java:264-282 | over any chain of calls, the volume mounts are the original ones followed by every added mount in call order |
| AppBindingResponseBuilder.EndpointsAppend | spring-cloud-open-service-broker-core/src/main/java/org/springframework/cloud/servicebroker/model/binding/CreateServiceInstanceAppBindingResponse.java:294-312 | over any chain of calls, the endpoints are the original ones followed by every added endpoint in call order |
| AppBindingResponseBuilder.CredentialsAccumulate | spring-cloud-open-service-broker-core/src/main/java/org/springframework/cloud/servicebroker/model/binding/CreateServiceInstanceAppBindingResponse.java:219-237 | over any chain of calls, the credentials are the original map updated by every credentials call in order |
| AppBindingResponseBuilder.CredentialAfterCalls | spring-cloud-open-service-broker-core/src/main/java/org/springframework/cloud/servicebroker/model/binding/CreateServiceInstanceAppBindingResponse.java:190 | from a fresh builder, a credential is present exactly when some call wrote it, with the last value written |
| AppBindingResponseBuilder.BindingExistedIsStatus | spring-cloud-open-service-broker-core/src/main/java/org/springframework/cloud/servicebroker/model/binding/CreateServiceInstanceAppBindingResponse.java:346-354 | bindingExisted(b) has the same effect as bindingStatus(EXISTS_WITH_IDENTICAL_PARAMETERS or NEW) |
| AppBindingResponseBuilder.BindingExistedCode | spring-cloud-open-service-broker-core/src/main/java/org/springframework/cloud/servicebroker/model/binding/CreateServiceInstanceAppBindingResponse.java:338-340 | bindingExisted(true) gives 200 and false gives 201 when synchronous; async gives 202 either way |
| AppBindingResponseBuilder.EmptyBuilderDiffersFromDefaultResponse | spring-cloud-open-service-broker-core/src/main/java/org/springframework/cloud/servicebroker/model/binding/CreateServiceInstanceAppBindingResponse.java:198 | a builder never given a status builds a null status (no code), unlike the no-argument constructor's NEW; bindingExisted(false) alone makes them equal |
| AppBindingResponseBuilder.BuildConflictingBinding | spring-cloud-open-service-broker-core/src/main/java/org/springframework/cloud/servicebroker/model/binding/CreateServiceInstanceAppBindingResponse.java:327-330 | bindingExisted(true) then bindingStatus(EXISTS_WITH_DIFFERENT_PARAMETERS) builds a 409 response holding the one credential put |
| BindingEventFlowRegistry.InitializeEach | spring-cloud-open-service-broker-core/src/main/java/org/springframework/cloud/servicebroker/service/events/CreateServiceInstanceBindingEventFlowRegistry.java:62-65 | each flow of the list is invoked with initialize(request) as many times as it is listed, and nothing else is invoked |
| BindingEventFlowRegistry.CompleteEach | spring-cloud-open-service-broker-core/src/main/java/org/springframework/cloud/servicebroker/service/events/CreateServiceInstanceBindingEventFlowRegistry.java:67-72 | each flow of the list is invoked with complete(request, response) as many times as it is listed, and nothing else is invoked |
| BindingEventFlowRegistry.ErrorEach | spring-cloud-open-service-broker-core/src/main/java/org/springframework/cloud/servicebroker/service/events/CreateServiceInstanceBindingEventFlowRegistry.java:74-78 | each flow of the list is invoked with error(request, t) as many times as it is listed, and nothing else is invoked |
| BindingEventFlowRegistry.GetInitializationFlows | spring-cloud-open-service-broker-core/src/main/java/org/springframework/cloud/servicebroker/service/events/CreateServiceInstanceBindingEventFlowRegistry.java:61-65 | initialize(request) once per registered initialization flow, only initialization flows, all with the same request |
| BindingEventFlowRegistry.GetCompletionFlows | spring-cloud-open-service-broker-core/src/main/java/org/springframework/cloud/servicebroker/service/events/CreateServiceInstanceBindingEventFlowRegistry.java:67-72 | complete once per completion flow, all with the same request and response, no other role |
| BindingEventFlowRegistry.GetErrorFlows | spring-cloud-open-service-broker-core/src/main/java/org/springframework/cloud/servicebroker/service/events/CreateServiceInstanceBindingEventFlowRegistry.java:74-78 | error once per error flow, all with the same request and throwable, no other role |
| BindingEventFlowRegistry.FanOutSize | spring-cloud-open-service-broker-core/src/main/java/org/springframework/cloud/servicebroker/service/events/CreateServiceInstanceBindingEventFlowRegistry.java:62-78 | a fan-out makes exactly as many invocations as there are flows of its role |
| BindingEventFlowRegistry.EmptyRolesInvokeNothing | spring-cloud-open-service-broker-core/src/main/java/org/springframework/cloud/servicebroker/service/events/CreateServiceInstanceBindingEventFlowRegistry.java:63-77 | a role with no flows yields zero invocations |
| BindingEventFlowRegistry.FanOutReadsOnlyItsRole | spring-cloud-open-service-broker-core/src/main/java/org/springframework/cloud/servicebroker/service/events/CreateServiceInstanceBindingEventFlowRegistry.java:54-78 | each fan-out depends only on its own role's list, which the constructor fixes |
| BindingEventFlowRegistry.RolesAreDisjoint | spring-cloud-open-service-broker-core/src/main/java/org/springframework/cloud/servicebroker/service/events/CreateServiceInstanceBindingEventFlowRegistry.java:61-78 | the three fan-outs never share an invocation |
| BindingEventFlowRegistry.AppendedFlowAddsOneInvocation | spring-cloud-open-service-broker-core/src/main/java/org/springframework/cloud/servicebroker/service/events/CreateServiceInstanceBindingEventFlowRegistry.java:62-65 | registering one more initialization flow adds exactly one invocation of it |
| UpdateNotSupported.UpdateNotSupportedException | spring-cloud-open-service-broker-core/src/test/java/org/springframework/cloud/servicebroker/exception/ServiceInstanceUpdateNotSupportedExceptionTest.java:27-52 | the message is the prefix followed by the rendered message; error code, instanceUsable, updateRepeatable and cause pass through unchanged, null included |
| UpdateNotSupported.MessageRoundTrip | spring-cloud-open-service-broker-core/src/test/java/org/springframework/cloud/servicebroker/exception/ServiceInstanceUpdateNotSupportedExceptionTest.java:42-47 | the supplied message is recovered from the error message by stripping the prefix |
| UpdateNotSupported.DistinctMessagesStayDistinct | spring-cloud-open-service-broker-core/src/test/java/org/springframework/cloud/servicebroker/exception/ServiceInstanceUpdateNotSupportedExceptionTest.java:42-47 | different non-null messages give different error messages |
| UpdateNotSupported.NullMessageReadsAsTextNull | spring-cloud-open-service-broker-core/src/test/java/org/springframework/cloud/servicebroker/exception/ServiceInstanceUpdateNotSupportedExceptionTest.java:29-33 | a null message renders exactly as the message "null" |
| UpdateNotSupported.AllNullArguments | spring-cloud-open-service-broker-core/src/test/java/org/springframework/cloud/servicebroker/exception/ServiceInstanceUpdateNotSupportedExceptionTest.java:28-36 | all-null arguments give "Service instance update not supported: null" and null elsewhere |
| UpdateNotSupported.AllArgumentsSet | spring-cloud-open-service-broker-core/src/test/java/org/springframework/cloud/servicebroker/exception/ServiceInstanceUpdateNotSupportedExceptionTest.java:40-51 | "helloError", "hello", true, false and a RuntimeException("can't run") come through as the test asserts |
| RouteBindingResponse.EqualsIsStructural | spring-cloud-open-service-broker-core/src/test/java/org/springframework/cloud/servicebroker/model/binding/GetServiceInstanceRouteBindingResponseTest.java:102-107 | two responses are equal exactly when all fields, superclass ones included, are equal |
| RouteBindingResponse.ParametersAfterCalls | spring-cloud-open-service-broker-core/src/test/java/org/springframework/cloud/servicebroker/model/binding/GetServiceInstanceRouteBindingResponseTest.java:56-72 | after parameters calls on a fresh builder there is one entry per distinct key, each with the last value supplied |
| RouteBindingResponse.Builder.constructor | spring-cloud-open-service-broker-core/src/test/java/org/springframework/cloud/servicebroker/model/binding/GetServiceInstanceRouteBindingResponseTest.java:35-41 | a fresh builder has no parameters, null metadata and null route service URL |
| RouteBindingResponse.Builder.PutParameter | spring-cloud-open-service-broker-core/src/test/java/org/springframework/cloud/servicebroker/model/binding/GetServiceInstanceRouteBindingResponseTest.java:57-59 | parameters(key, value) adds or overwrites that key only |
| RouteBindingResponse.Builder.AddParameters | spring-cloud-open-service-broker-core/src/test/java/org/springframework/cloud/servicebroker/model/binding/GetServiceInstanceRouteBindingResponseTest.java:60 | parameters(Map) merges every entry |
| RouteBindingResponse.Builder.SetMetadata | spring-cloud-open-service-broker-core/src/test/java/org/springframework/cloud/servicebroker/model/binding/GetServiceInstanceRouteBindingResponseTest.java:61-63 | sets the metadata only |
| RouteBindingResponse.Builder.SetRouteServiceUrl | spring-cloud-open-service-broker-core/src/test/java/org/springframework/cloud/servicebroker/model/binding/GetServiceInstanceRouteBindingResponseTest.java:64 | sets the route service URL only |
| RouteBindingResponse.Builder.Build | spring-cloud-open-service-broker-core/src/test/java/org/springframework/cloud/servicebroker/model/binding/GetServiceInstanceRouteBindingResponseTest.java:65-74 | the response carries the builder's parameters, metadata and route service URL unchanged |
| RouteBindingResponse.BuildWithDefaults | spring-cloud-open-service-broker-core/src/test/java/org/springframework/cloud/servicebroker/model/binding/GetServiceInstanceRouteBindingResponseTest.java:34-41 | a builder given nothing builds empty parameters, null metadata and null route service URL |
| RouteBindingResponse.BuildWithValues | spring-cloud-open-service-broker-core/src/test/java/org/springframework/cloud/servicebroker/model/binding/GetServiceInstanceRouteBindingResponseTest.java:50-74 | three single parameters plus a two-entry map give exactly five entries with the supplied string, int and boolean values |
| ParameterBeanMapper.PropertyNamed | spring-cloud-open-service-broker-core/src/test/java/org/springframework/cloud/servicebroker/model/util/ParameterBeanMapperUtilsTest.java:44-100 | a key names a property exactly when it is that property's name, the dotted nested name included |
| ParameterBeanMapper.Mapped | spring-cloud-open-service-broker-core/src/test/java/org/springframework/cloud/servicebroker/model/util/ParameterBeanMapperUtilsTest.java:28-42 | succeeds exactly when every key naming a property holds a value of its type; then each named property takes its key's value and the others keep their defaults |
| ParameterBeanMapper.UnknownKeyIgnored | spring-cloud-open-service-broker-core/src/test/java/org/springframework/cloud/servicebroker/model/util/ParameterBeanMapperUtilsTest.java:33-36 | adding a key that names no property changes neither success nor the bean |
| ParameterBeanMapper.TestBeanExample | spring-cloud-open-service-broker-core/src/test/java/org/springframework/cloud/servicebroker/model/util/ParameterBeanMapperUtilsTest.java:28-42 | the test's map gives "value1", 2, a null unused property and a true nested boolean |
| ParameterBeanMapper.NestedBean.constructor | spring-cloud-open-service-broker-core/src/test/java/org/springframework/cloud/servicebroker/model/util/ParameterBeanMapperUtilsTest.java:88-100 | a new nested bean's boolean property is false |
| ParameterBeanMapper.NestedBean.SetBooleanProperty | spring-cloud-open-service-broker-core/src/test/java/org/springframework/cloud/servicebroker/model/util/ParameterBeanMapperUtilsTest.java:96-98 | sets the nested boolean |
| ParameterBeanMapper.TestBean.constructor | spring-cloud-open-service-broker-core/src/test/java/org/springframework/cloud/servicebroker/model/util/ParameterBeanMapperUtilsTest.java:54-56 | a new bean has default properties and a freshly created nested bean |
| ParameterBeanMapper.TestBean.SetStringProperty | spring-cloud-open-service-broker-core/src/test/java/org/springframework/cloud/servicebroker/model/util/ParameterBeanMapperUtilsTest.java:62-64 | sets stringProperty only |
| ParameterBeanMapper.TestBean.SetIntProperty | spring-cloud-open-service-broker-core/src/test/java/org/springframework/cloud/servicebroker/model/util/ParameterBeanMapperUtilsTest.java:70-72 | sets intProperty only |
| ParameterBeanMapper.TestBean.SetUnusedProperty | spring-cloud-open-service-broker-core/src/test/java/org/springframework/cloud/servicebroker/model/util/ParameterBeanMapperUtilsTest.java:78-80 | sets unusedProperty only |
| ParameterBeanMapper.SetProperty | spring-cloud-open-service-broker-core/src/test/java/org/springframework/cloud/servicebroker/model/util/ParameterBeanMapperUtilsTest.java:62-98 | calls the setter of the named property, reaching the nested bean through its getter for the dotted key |
| ParameterBeanMapper.MapParametersToBean | spring-cloud-open-service-broker-core/src/test/java/org/springframework/cloud/servicebroker/model/util/ParameterBeanMapperUtilsTest.java:36 | walking the entries and calling setters yields a fresh bean, with a fresh nested bean of its own, whose properties are those Mapped describes, and fails exactly when Mapped fails |
| NonBindableBindingService.CreateServiceInstanceBinding | spring-cloud-open-service-broker-core/src/test/java/org/springframework/cloud/servicebroker/service/NonBindableServiceInstanceBindingServiceTest.java:36-41 | creating a binding always fails with UnsupportedOperationException, never a response |
| NonBindableBindingService.DeleteServiceInstanceBinding | spring-cloud-open-service-broker-core/src/test/java/org/springframework/cloud/servicebroker/service/NonBindableServiceInstanceBindingServiceTest.java:43-48 | deleting a binding always fails with UnsupportedOperationException, never a success |
| NonBindableBindingService.NoBindingOperationSucceeds | spring-cloud-open-service-broker-core/src/test/java/org/springframework/cloud/servicebroker/service/NonBindableServiceInstanceBindingServiceTest.java:36-48 | no request makes either operation succeed, and both fail with the same error |
| NonBindableBindingService.FreshServiceRejectsEmptyRequests | spring-cloud-open-service-broker-core/src/test/java/org/springframework/cloud/servicebroker/service/NonBindableServiceInstanceBindingServiceTest.java:31-48 | a fresh service rejects the empty requests the test builds |
| EmptyBasePathRouting.Route | spring-cloud-open-service-broker-autoconfigure/src/test/java/org/springframework/cloud/servicebroker/autoconfigure/web/reactive/BasePathEmptyIntegrationTest.java:23-46 | the empty prefix, and only it, is found with no platform id; a prefix found with a platform id is "/" followed by that non-empty, slash-free id |
| EmptyBasePathRouting.SingleSegmentIsPlatformId | spring-cloud-open-service-broker-autoconfigure/src/test/java/org/springframework/cloud/servicebroker/autoconfigure/web/reactive/BasePathEmptyIntegrationTest.java:28-31 | every single non-empty segment prefix is found with that segment as platform id |
| EmptyBasePathRouting.FoundIffAtMostOneSegment | spring-cloud-open-service-broker-autoconfigure/src/test/java/org/springframework/cloud/servicebroker/autoconfigure/web/reactive/BasePathEmptyIntegrationTest.java:33-46 | a prefix of non-empty segments is found exactly when it has one segment |
| EmptyBasePathRouting.SplitJoin | spring-cloud-open-service-broker-autoconfigure/src/test/java/org/springframework/cloud/servicebroker/autoconfigure/web/reactive/BasePathEmptyIntegrationTest.java:33-46 | splitting joined segments gives the segments back |
| EmptyBasePathRouting.JoinSplit | spring-cloud-open-service-broker-autoconfigure/src/test/java/org/springframework/cloud/servicebroker/autoconfigure/web/reactive/BasePathEmptyIntegrationTest.java:33-46 | joining a path's segments gives the path back |
| EmptyBasePathRouting.EmptyPrefixFound | spring-cloud-open-service-broker-autoconfigure/src/test/java/org/springframework/cloud/servicebroker/autoconfigure/web/reactive/BasePathEmptyIntegrationTest.java:23-26 | "" is found and its platform id reads "null" |
| EmptyBasePathRouting.PlatformIdPrefixFound | spring-cloud-open-service-broker-autoconfigure/src/test/java/org/springframework/cloud/servicebroker/autoconfigure/web/reactive/BasePathEmptyIntegrationTest.java:28-31 | "/123" is found with platform id "123" |
| EmptyBasePathRouting.MultiSegmentPrefixesNotFound | spring-cloud-open-service-broker-autoconfigure/src/test/java/org/springframework/cloud/servicebroker/autoconfigure/web/reactive/BasePathEmptyIntegrationTest.java:33-46 | "/api/broker", "/api/broker/123" and "/api/broker/123/456" are not found |

## Left out

- AppBindingResponseBuilder.Builder.Build: returns a value snapshot. In Java, build() hands the builder's own HashMap and ArrayLists to the response (CreateServiceInstanceAppBindingResponse.java:411-412). Later builder calls would then change a response already built. The model does not capture this aliasing.
- `hashCode`, `toString` and the `canEqual` protocol: only structural equality is modelled.
- The deprecated boolean constructor of the response (CreateServiceInstanceAppBindingResponse.java:89-98). It delegates to a superclass that is not part of this model.
- The superclasses `CreateServiceInstanceBindingResponse` and `AsyncServiceBrokerResponse` are not part of this model. Their `equals` is taken to compare async, operation, binding status and metadata.
- `VolumeMount`, `Endpoint`, `BindingMetadata` and the request classes are not part of this model. They are carried as opaque values with a few fields.
- Null collections: the all-arguments constructor accepts null collections, and the builder throws NullPointerException on a null collection argument. The model's collection fields and arguments are never null, and map keys are never null.
- AppBindingResponse.ResponseCode: gives no code for a synchronous response whose status was never set. The doc comments do not say what happens then.
- AppBindingResponse.ResponseCode: an async response with status EXISTS_WITH_IDENTICAL_PARAMETERS or EXISTS_WITH_DIFFERENT_PARAMETERS gets 202, not the 200/409 that CreateServiceInstanceAppBindingResponse.java:320-322 state without mentioning async. The model follows the async comment at lines 375-377, which says async=true gives 202.
- AppBindingResponseBuilder.BindingExistedCode: bindingExisted(true) on an async response gives 202, not the 200 that CreateServiceInstanceAppBindingResponse.java:338-339 state. It follows the same async precedence as ResponseCode.
- The request orchestration around these components is not part of this model. Nothing shown selects a response status, so only the doc-comment mapping is modelled.
- The deprecated no-argument registry constructor (CreateServiceInstanceBindingEventFlowRegistry.java:42-45): the `EventFlowRegistry` base class is not part of this model.
- Reactor scheduling: `flatMap` concurrency, the ordering of flow results, and how an error from one flow ends the `Flux`. The fan-out is the multiset of invocations it makes.
- The completion flows receive an app binding response; other subclasses of the create-binding response are not modelled.
- JSON (de)serialisation and Jackson annotations of the responses and of `PlatformContext`.
- NonBindableBindingService: the exception's message text and the deferred (Mono) delivery of the failure are not modelled, only its class.
- ParameterBeanMapper.Mapped: Spring's type conversion (for example the string "2" to an int) and reflection beyond the `TestBean`/`NestedBean` shape are not modelled. A value of the wrong type is a `TypeMismatch` failure. HashMap iteration order is an arbitrary choice of the next key.
- EmptyBasePathRouting.Route: the Spring web stack and autoconfiguration behind routing are not modelled. A non-empty prefix that does not start with '/', or that has an empty segment, is taken as not found; the test does not try such prefixes.
- UpdateNotSupported: the exception class hierarchy and the exception's own getMessage are not modelled, only its ErrorMessage and cause.
