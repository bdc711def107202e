/**
 * The event flow registry for create-binding requests
 * (CreateServiceInstanceBindingEventFlowRegistry). It holds three lists of
 * flows, fixed when it is constructed: initialization, completion and error
 * flows. Each get* operation fans out over one list, invoking every flow of
 * that role once with the same arguments. The invocations are reported as a
 * multiset: the fan-out promises which calls happen, not their order.
 */
module BindingEventFlowRegistry {
  import opened JavaLang
  import opened BindingRequests
  import AppBindingResponse

  /** A registered flow, identified by name; one object may serve in several roles. */
  datatype Flow = Flow(name: string)

  /** The registry as its constructor leaves it: three immutable lists of flows. */
  datatype Registry = Registry(initializationFlows: seq<Flow>, completionFlows: seq<Flow>, errorFlows: seq<Flow>)

  /** One call of a flow's method: initialize(request), complete(request, response) or error(request, t). */
  datatype Invocation =
    | Initialize(flow: Flow, request: CreateBindingRequest)
    | Complete(flow: Flow, request: CreateBindingRequest, response: AppBindingResponse.Response)
    | Error(flow: Flow, request: CreateBindingRequest, error: Throwable)

  /** initialize(request) on each flow of the list. */
  function InitializeEach(flows: seq<Flow>, request: CreateBindingRequest): (calls: multiset<Invocation>)
    ensures forall inv :: calls[inv] == if inv.Initialize? && inv.request == request then multiset(flows)[inv.flow] else 0
    decreases |flows|
  {
    if flows == [] then multiset{}
    else
      assert flows == [flows[0]] + flows[1..];
      multiset{Initialize(flows[0], request)} + InitializeEach(flows[1..], request)
  }

  /** complete(request, response) on each flow of the list. */
  function CompleteEach(flows: seq<Flow>, request: CreateBindingRequest, response: AppBindingResponse.Response): (calls: multiset<Invocation>)
    ensures forall inv :: calls[inv] ==
              if inv.Complete? && inv.request == request && inv.response == response then multiset(flows)[inv.flow] else 0
    decreases |flows|
  {
    if flows == [] then multiset{}
    else
      assert flows == [flows[0]] + flows[1..];
      multiset{Complete(flows[0], request, response)} + CompleteEach(flows[1..], request, response)
  }

  /** error(request, t) on each flow of the list. */
  function ErrorEach(flows: seq<Flow>, request: CreateBindingRequest, t: Throwable): (calls: multiset<Invocation>)
    ensures forall inv :: calls[inv] == if inv.Error? && inv.request == request && inv.error == t then multiset(flows)[inv.flow] else 0
    decreases |flows|
  {
    if flows == [] then multiset{}
    else
      assert flows == [flows[0]] + flows[1..];
      multiset{Error(flows[0], request, t)} + ErrorEach(flows[1..], request, t)
  }

  /** The number of invocations a fan-out makes is the number of flows it runs over. */
  lemma {:induction false} FanOutSize(flows: seq<Flow>, request: CreateBindingRequest, response: AppBindingResponse.Response, t: Throwable)
    ensures |InitializeEach(flows, request)| == |flows|
    ensures |CompleteEach(flows, request, response)| == |flows|
    ensures |ErrorEach(flows, request, t)| == |flows|
    decreases |flows|
  {
    if flows != [] {
      FanOutSize(flows[1..], request, response, t);
    }
  }

  /**
   * getInitializationFlows(request): initialize(request) exactly once per
   * registered initialization flow, and nothing else.
   */
  function GetInitializationFlows(reg: Registry, request: CreateBindingRequest): (calls: multiset<Invocation>)
    ensures forall f :: calls[Initialize(f, request)] == multiset(reg.initializationFlows)[f]
    ensures forall inv :: inv in calls ==> inv.Initialize? && inv.request == request && inv.flow in reg.initializationFlows
  {
    InitializeEach(reg.initializationFlows, request)
  }

  /**
   * getCompletionFlows(request, response): complete(request, response)
   * exactly once per registered completion flow, and nothing else.
   */
  function GetCompletionFlows(reg: Registry, request: CreateBindingRequest, response: AppBindingResponse.Response): (calls: multiset<Invocation>)
    ensures forall f :: calls[Complete(f, request, response)] == multiset(reg.completionFlows)[f]
    ensures forall inv :: inv in calls ==>
              inv.Complete? && inv.request == request && inv.response == response && inv.flow in reg.completionFlows
  {
    CompleteEach(reg.completionFlows, request, response)
  }

  /** getErrorFlows(request, t): error(request, t) exactly once per registered error flow, and nothing else. */
  function GetErrorFlows(reg: Registry, request: CreateBindingRequest, t: Throwable): (calls: multiset<Invocation>)
    ensures forall f :: calls[Error(f, request, t)] == multiset(reg.errorFlows)[f]
    ensures forall inv :: inv in calls ==> inv.Error? && inv.request == request && inv.error == t && inv.flow in reg.errorFlows
  {
    ErrorEach(reg.errorFlows, request, t)
  }

  /** A role with no registered flows makes no invocation at all. */
  lemma EmptyRolesInvokeNothing(reg: Registry, request: CreateBindingRequest, response: AppBindingResponse.Response, t: Throwable)
    ensures reg.initializationFlows == [] ==> GetInitializationFlows(reg, request) == multiset{}
    ensures reg.completionFlows == [] ==> GetCompletionFlows(reg, request, response) == multiset{}
    ensures reg.errorFlows == [] ==> GetErrorFlows(reg, request, t) == multiset{}
  {
  }

  /** Each fan-out reads only its own role's list: changing the other two lists changes nothing. */
  lemma FanOutReadsOnlyItsRole(reg: Registry, other: Registry, request: CreateBindingRequest,
                               response: AppBindingResponse.Response, t: Throwable)
    ensures reg.initializationFlows == other.initializationFlows ==>
              GetInitializationFlows(reg, request) == GetInitializationFlows(other, request)
    ensures reg.completionFlows == other.completionFlows ==>
              GetCompletionFlows(reg, request, response) == GetCompletionFlows(other, request, response)
    ensures reg.errorFlows == other.errorFlows ==>
              GetErrorFlows(reg, request, t) == GetErrorFlows(other, request, t)
  {
  }

  /** The three fan-outs never share an invocation: each role's calls are disjoint from the others'. */
  lemma RolesAreDisjoint(reg: Registry, request: CreateBindingRequest, response: AppBindingResponse.Response, t: Throwable)
    ensures GetInitializationFlows(reg, request) !! GetCompletionFlows(reg, request, response)
    ensures GetInitializationFlows(reg, request) !! GetErrorFlows(reg, request, t)
    ensures GetCompletionFlows(reg, request, response) !! GetErrorFlows(reg, request, t)
  {
  }

  /** Registering one more flow of a role adds exactly one invocation of it to that role's fan-out. */
  lemma {:induction false} AppendedFlowAddsOneInvocation(flows: seq<Flow>, f: Flow, request: CreateBindingRequest)
    ensures InitializeEach(flows + [f], request) == InitializeEach(flows, request) + multiset{Initialize(f, request)}
  {
    var lhs, rhs := InitializeEach(flows + [f], request), InitializeEach(flows, request) + multiset{Initialize(f, request)};
    assert multiset(flows + [f]) == multiset(flows) + multiset{f};
    forall inv ensures lhs[inv] == rhs[inv] {
    }
  }
}
