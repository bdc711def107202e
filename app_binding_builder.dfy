/**
 * The fluent builder of an app binding response
 * (CreateServiceInstanceAppBindingResponseBuilder). The builder is a class
 * whose fields the calls update in place; `Built()` is the response build()
 * would return in the current state. Each call is also described as a value
 * of `Call`, and `Apply`/`ApplyAll` give the state after one call or a
 * sequence of calls, so that the lemmas can say what any chain of builder
 * calls produces.
 */
module AppBindingResponseBuilder {
  import opened JavaLang
  import opened MapUpdates
  import opened AppBindingResponse

  /** One builder call, named after the builder method it stands for. */
  datatype Call =
    | Credentials(update: Update<string, Object>)
    | SyslogDrainUrl(url: Nullable<string>)
    | VolumeMounts(mounts: seq<VolumeMount>)
    | Endpoints(added: seq<Endpoint>)
    | Status(status: Nullable<BindingStatus>)
    | BindingExisted(existed: bool)
    | Metadata(meta: Nullable<BindingMetadata>)
    | Async(isAsync: bool)
    | Operation(op: Nullable<string>)

  /**
   * The state of a fresh builder: empty collections, async false and every
   * reference field, the binding status included, null (the status field has
   * no initializer).
   */
  function Initial(): Response
  {
    Response(false, Null, Null, Null, map[], Null, [], [])
  }

  /** The state after one call. */
  function Apply(s: Response, c: Call): Response
  {
    match c
    case Credentials(u) => s.(credentials := ApplyUpdate(s.credentials, u))
    case SyslogDrainUrl(url) => s.(syslogDrainUrl := url)
    case VolumeMounts(ms) => s.(volumeMounts := s.volumeMounts + ms)
    case Endpoints(es) => s.(endpoints := s.endpoints + es)
    case Status(st) => s.(bindingStatus := st)
    case BindingExisted(b) => s.(bindingStatus := NonNull(if b then ExistsWithIdenticalParameters else New))
    case Metadata(m) => s.(metadata := m)
    case Async(b) => s.(async := b)
    case Operation(op) => s.(operation := op)
  }

  /** The state after the calls of `calls`, first to last. */
  function ApplyAll(s: Response, calls: seq<Call>): Response
    decreases |calls|
  {
    if calls == [] then s else ApplyAll(Apply(s, calls[0]), calls[1..])
  }

  /** The binding status a call sets, if it sets one. */
  function StatusSetBy(c: Call): Option<Nullable<BindingStatus>>
  {
    match c
    case Status(st) => Some(st)
    case BindingExisted(true) => Some(NonNull(ExistsWithIdenticalParameters))
    case BindingExisted(false) => Some(NonNull(New))
    case _ => None
  }

  /** The status set by the last call of `calls` that sets one, found by scanning from the end. */
  function LastStatusSet(calls: seq<Call>): Option<Nullable<BindingStatus>>
    decreases |calls|
  {
    if calls == [] then None
    else if StatusSetBy(calls[|calls| - 1]).Some? then StatusSetBy(calls[|calls| - 1])
    else LastStatusSet(calls[..|calls| - 1])
  }

  /** The volume mounts the calls add, in call order. */
  function AddedVolumeMounts(calls: seq<Call>): seq<VolumeMount>
    decreases |calls|
  {
    if calls == [] then []
    else (if calls[0].VolumeMounts? then calls[0].mounts else []) + AddedVolumeMounts(calls[1..])
  }

  /** The endpoints the calls add, in call order. */
  function AddedEndpoints(calls: seq<Call>): seq<Endpoint>
    decreases |calls|
  {
    if calls == [] then []
    else (if calls[0].Endpoints? then calls[0].added else []) + AddedEndpoints(calls[1..])
  }

  /** The credential mutations among the calls, in call order. */
  function CredentialUpdates(calls: seq<Call>): seq<Update<string, Object>>
    decreases |calls|
  {
    if calls == [] then []
    else (if calls[0].Credentials? then [calls[0].update] else []) + CredentialUpdates(calls[1..])
  }

  lemma {:induction false} ApplyAllSnoc(s: Response, calls: seq<Call>, c: Call)
    ensures ApplyAll(s, calls + [c]) == Apply(ApplyAll(s, calls), c)
    decreases |calls|
  {
    if calls == [] {
      assert [c][1..] == [];
    } else {
      assert (calls + [c])[1..] == calls[1..] + [c];
      ApplyAllSnoc(Apply(s, calls[0]), calls[1..], c);
    }
  }

  /**
   * Whichever of bindingStatus(..) and bindingExisted(..) is called last
   * decides the binding status; with neither called, the status is unchanged.
   */
  lemma {:induction false} LastStatusCallWins(s: Response, calls: seq<Call>)
    ensures ApplyAll(s, calls).bindingStatus == (if LastStatusSet(calls).Some? then LastStatusSet(calls).value else s.bindingStatus)
    decreases |calls|
  {
    if calls != [] {
      var init, c := calls[..|calls| - 1], calls[|calls| - 1];
      assert calls == init + [c];
      ApplyAllSnoc(s, init, c);
      LastStatusCallWins(s, init);
    }
  }

  /** Both volumeMounts(..) forms append their arguments, in order, after the mounts already there. */
  lemma {:induction false} VolumeMountsAppend(s: Response, calls: seq<Call>)
    ensures ApplyAll(s, calls).volumeMounts == s.volumeMounts + AddedVolumeMounts(calls)
    decreases |calls|
  {
    if calls != [] {
      VolumeMountsAppend(Apply(s, calls[0]), calls[1..]);
    }
  }

  /** Both endpoints(..) forms append their arguments, in order, after the endpoints already there. */
  lemma {:induction false} EndpointsAppend(s: Response, calls: seq<Call>)
    ensures ApplyAll(s, calls).endpoints == s.endpoints + AddedEndpoints(calls)
    decreases |calls|
  {
    if calls != [] {
      EndpointsAppend(Apply(s, calls[0]), calls[1..]);
    }
  }

  /** The credentials accumulate through every credentials(..) call, in call order. */
  lemma {:induction false} CredentialsAccumulate(s: Response, calls: seq<Call>)
    ensures ApplyAll(s, calls).credentials == ApplyUpdates(s.credentials, CredentialUpdates(calls))
    decreases |calls|
  {
    if calls != [] {
      CredentialsAccumulate(Apply(s, calls[0]), calls[1..]);
      if calls[0].Credentials? {
        assert CredentialUpdates(calls)[1..] == CredentialUpdates(calls[1..]);
      } else {
        assert CredentialUpdates(calls) == CredentialUpdates(calls[1..]);
      }
    }
  }

  /**
   * After any chain of calls, a credential key holds the value of the last
   * credentials(..) call that wrote it and is present only if some call wrote it.
   */
  lemma CredentialAfterCalls(calls: seq<Call>, key: string)
    ensures key in ApplyAll(Initial(), calls).credentials <==> LastAssigned(CredentialUpdates(calls), key).Some?
    ensures key in ApplyAll(Initial(), calls).credentials ==>
              ApplyAll(Initial(), calls).credentials[key] == LastAssigned(CredentialUpdates(calls), key).value
  {
    CredentialsAccumulate(Initial(), calls);
    ApplyUpdatesLookup(map[], CredentialUpdates(calls), key);
  }

  /** bindingExisted(b) is bindingStatus(EXISTS_WITH_IDENTICAL_PARAMETERS) when b holds and bindingStatus(NEW) otherwise. */
  lemma BindingExistedIsStatus(s: Response, existed: bool)
    ensures Apply(s, BindingExisted(existed)) == Apply(s, Status(NonNull(if existed then ExistsWithIdenticalParameters else New)))
  {
  }

  /**
   * The deprecated flag's codes: when synchronous, true gives 200 OK and
   * false 201 CREATED; when async, 202 ACCEPTED either way, since async
   * takes precedence over the binding status.
   */
  lemma BindingExistedCode(s: Response, existed: bool)
    ensures ResponseCode(Apply(s, BindingExisted(existed))) ==
              Some(if s.async then Accepted else if existed then Ok else Created)
  {
  }

  /**
   * A builder that never sets the status leaves it null, unlike the
   * no-argument constructor, which sets NEW; bindingExisted(false) alone makes
   * the two agree.
   */
  lemma EmptyBuilderDiffersFromDefaultResponse()
    ensures Initial() != DefaultResponse()
    ensures Initial() == DefaultResponse().(bindingStatus := Null)
    ensures ResponseCode(Initial()) == None
    ensures ApplyAll(Initial(), [BindingExisted(false)]) == DefaultResponse()
  {
    assert ApplyAll(Initial(), [BindingExisted(false)]) == ApplyAll(Apply(Initial(), BindingExisted(false)), []);
  }

  /** The builder object: the eight fields that build() copies into a response. */
  class Builder {
    var credentials: map<string, Object>
    var syslogDrainUrl: Nullable<string>
    var volumeMounts: seq<VolumeMount>
    var endpoints: seq<Endpoint>
    var bindingStatus: Nullable<BindingStatus>
    var metadata: Nullable<BindingMetadata>
    var async: bool
    var operation: Nullable<string>

    /** The response build() would return now. */
    function Built(): Response
      reads this
    {
      Response(async, operation, bindingStatus, metadata, credentials, syslogDrainUrl, volumeMounts, endpoints)
    }

    /** builder(): a fresh builder. */
    constructor ()
      ensures Built() == Initial()
      ensures bindingStatus == Null && !async && credentials == map[] && volumeMounts == [] && endpoints == []
    {
      credentials := map[];
      syslogDrainUrl := Null;
      volumeMounts := [];
      endpoints := [];
      bindingStatus := Null;
      metadata := Null;
      async := false;
      operation := Null;
    }

    /** credentials(Map): merges every entry into the credentials. */
    method AddCredentials(entries: map<string, Object>) returns (self: Builder)
      modifies this
      ensures self == this
      ensures Built() == Apply(old(Built()), Credentials(PutAll(entries)))
      ensures credentials.Keys == old(credentials).Keys + entries.Keys
      ensures forall k :: k in entries ==> credentials[k] == entries[k]
      ensures forall k :: k in old(credentials) && k !in entries ==> credentials[k] == old(credentials)[k]
    {
      credentials := credentials + entries;
      self := this;
    }

    /** credentials(key, value): adds or overwrites exactly one credential. */
    method PutCredential(key: string, value: Object) returns (self: Builder)
      modifies this
      ensures self == this
      ensures Built() == Apply(old(Built()), Credentials(Put(key, value)))
      ensures credentials.Keys == old(credentials).Keys + {key} && credentials[key] == value
      ensures forall k :: k in old(credentials) && k != key ==> credentials[k] == old(credentials)[k]
    {
      credentials := credentials[key := value];
      self := this;
    }

    /** syslogDrainUrl(..): null means the binding does not support syslog drains. */
    method SetSyslogDrainUrl(url: Nullable<string>) returns (self: Builder)
      modifies this
      ensures self == this
      ensures Built() == Apply(old(Built()), SyslogDrainUrl(url))
    {
      syslogDrainUrl := url;
      self := this;
    }

    /** volumeMounts(List) and volumeMounts(VolumeMount...): append after the existing mounts. */
    method AddVolumeMounts(mounts: seq<VolumeMount>) returns (self: Builder)
      modifies this
      ensures self == this
      ensures Built() == Apply(old(Built()), VolumeMounts(mounts))
      ensures volumeMounts == old(volumeMounts) + mounts
    {
      volumeMounts := volumeMounts + mounts;
      self := this;
    }

    /** endpoints(List) and endpoints(Endpoint...): append after the existing endpoints. */
    method AddEndpoints(added: seq<Endpoint>) returns (self: Builder)
      modifies this
      ensures self == this
      ensures Built() == Apply(old(Built()), Endpoints(added))
      ensures endpoints == old(endpoints) + added
    {
      endpoints := endpoints + added;
      self := this;
    }

    /** bindingStatus(..) */
    method SetBindingStatus(status: Nullable<BindingStatus>) returns (self: Builder)
      modifies this
      ensures self == this
      ensures Built() == Apply(old(Built()), Status(status))
    {
      bindingStatus := status;
      self := this;
    }

    /** bindingExisted(..): true sets EXISTS_WITH_IDENTICAL_PARAMETERS, false sets NEW. */
    method SetBindingExisted(existed: bool) returns (self: Builder)
      modifies this
      ensures self == this
      ensures Built() == Apply(old(Built()), BindingExisted(existed))
      ensures bindingStatus == NonNull(if existed then ExistsWithIdenticalParameters else New)
    {
      if existed {
        bindingStatus := NonNull(ExistsWithIdenticalParameters);
      } else {
        bindingStatus := NonNull(New);
      }
      self := this;
    }

    /** metadata(..) */
    method SetMetadata(meta: Nullable<BindingMetadata>) returns (self: Builder)
      modifies this
      ensures self == this
      ensures Built() == Apply(old(Built()), Metadata(meta))
    {
      metadata := meta;
      self := this;
    }

    /** async(..) */
    method SetAsync(isAsync: bool) returns (self: Builder)
      modifies this
      ensures self == this
      ensures Built() == Apply(old(Built()), Async(isAsync))
    {
      async := isAsync;
      self := this;
    }

    /** operation(..) */
    method SetOperation(op: Nullable<string>) returns (self: Builder)
      modifies this
      ensures self == this
      ensures Built() == Apply(old(Built()), Operation(op))
    {
      operation := op;
      self := this;
    }

    /** build(): a response whose eight fields are the builder's current ones. */
    method Build() returns (r: Response)
      ensures r == Built()
    {
      r := Response(async, operation, bindingStatus, metadata, credentials, syslogDrainUrl, volumeMounts, endpoints);
    }
  }

  /**
   * A client of the builder: bindingExisted(true) followed by
   * bindingStatus(EXISTS_WITH_DIFFERENT_PARAMETERS) builds a conflicting
   * binding, and the credentials hold the one entry put.
   */
  method BuildConflictingBinding(key: string, value: Object) returns (r: Response)
    ensures r.bindingStatus == NonNull(ExistsWithDifferentParameters)
    ensures ResponseCode(r) == Some(Conflict)
    ensures r.credentials == map[key := value]
    ensures r.volumeMounts == [] && r.endpoints == []
  {
    var b := new Builder();
    var _ := b.SetBindingExisted(true);
    var _ := b.PutCredential(key, value);
    var _ := b.SetBindingStatus(NonNull(ExistsWithDifferentParameters));
    r := b.Build();
  }
}
