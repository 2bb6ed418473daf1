/**
 * The stack controller of cftdeploy/stack.py: the `CFStack` class, whose
 * `get` copies what the provider says about the stack into the object, and
 * the projections, event filter and payload handling around it. Provider
 * calls are parameters: a `describe` function from the name (or id) asked
 * for to the reply, a resource listing whose pages end by construction, the
 * event list of a stack, and the reply to a create or update request.
 */
module Stack {

  import opened Wrappers
  import opened Strings
  import opened Faults
  import opened PyDict
  import opened PyValue
  import opened Status
  import opened Template

  // ------------------------------------------------------------ provider records

  /** One entry of a stack's `Parameters`; either value may be missing. */
  datatype StackParameter = StackParameter(key: string, value: Option<string>, resolvedValue: Option<string>)

  /** One entry of a stack's `Outputs`. */
  datatype StackOutput = StackOutput(key: string, value: Option<string>)

  /** The first element of `describe_stacks`' `Stacks`: `Parameters` and `Outputs` may be absent. */
  datatype StackRecord = StackRecord(
    stackId: string,
    status: string,
    parameters: Option<seq<StackParameter>>,
    outputs: Option<seq<StackOutput>>)

  /** `describe_stacks`: the stacks found (none when `Stacks` is missing or empty), or a ClientError. */
  datatype DescribeReply = Described(stacks: seq<StackRecord>) | DescribeFailed(code: string, message: string)

  datatype ResourceSummary = ResourceSummary(logicalId: string, physicalId: Option<string>, status: string)

  /** The pages of `list_stack_resources`: a page with a `NextToken` has a next page. */
  datatype Listing = LastPage(summaries: seq<ResourceSummary>) | Page(summaries: seq<ResourceSummary>, next: Listing)

  datatype StackEvent = StackEvent(
    eventId: string,
    logicalId: string,
    resourceType: string,
    status: string,
    reason: Option<string>,
    timestamp: string)

  /** The reply to `create_stack` or `update_stack`: a response (with or without `StackId`), or a ClientError. */
  datatype ApiReply = Replied(stackId: Option<string>) | Raised(code: string, message: string)

  /** What `update` is handed as `payload`: nothing, the False of a payload that could not be built, or a payload. */
  datatype PayloadArg = NoPayload | NotBuilt | Built(payload: Dict<string, Value>)

  /** `update`'s return: the stack id, True for "nothing to do", or None. */
  datatype UpdateOutcome = UpdatedStack(stackId: string) | NoUpdates | UpdateFailed

  /** `create`'s return: the stack id, False when no template was given, or None. */
  datatype CreateOutcome = Created(stackId: string) | NoTemplate | CreateFailed

  // ------------------------------------------------------------ get

  /** The attributes of a `CFStack` that `get` sets; `None` is an attribute never set. */
  datatype StackView = StackView(
    stackId: Option<string>,
    stackData: Option<StackRecord>,
    parameters: Option<seq<StackParameter>>,
    outputs: Option<seq<StackOutput>>)

  /** `get` asks by StackId once one is stored, by the stack's name before. */
  function QueryName(v: StackView, stackName: string): string {
    if v.stackId.Some? then v.stackId.value else stackName
  }

  /**
   * `get`: its return value (the StackId, or None when no stack came back)
   * and the attributes afterwards. `__dict__.update` overwrites only the
   * attributes the record carries, so an absent `Parameters` or `Outputs`
   * keeps the earlier one.
   */
  function Refresh(v: StackView, stackName: string, describe: string -> DescribeReply)
    : (r: (Result<Option<string>, Fault>, StackView))
    ensures r.0.Err? || r.0 == Ok(None) ==> r.1 == v
    ensures r.0.Ok? && r.0.value.Some? ==>
      && r.1.stackId == r.0.value
      && r.1.stackData.Some? && r.1.stackData.value.stackId == r.0.value.value
  {
    match describe(QueryName(v, stackName))
    case DescribeFailed(code, message) =>
      (Err(if code == "ValidationError" then StackDoesNotExist(stackName) else ClientError(code, message)), v)
    case Described(stacks) =>
      if stacks == [] then (Ok(None), v)
      else
        var rec := stacks[0];
        (Ok(Some(rec.stackId)),
         StackView(Some(rec.stackId), Some(rec),
                   if rec.parameters.Some? then rec.parameters else v.parameters,
                   if rec.outputs.Some? then rec.outputs else v.outputs))
  }

  /** How `get` turns the provider's answer into its result. */
  lemma RefreshResult(v: StackView, stackName: string, describe: string -> DescribeReply)
    ensures var r := Refresh(v, stackName, describe).0;
      match describe(QueryName(v, stackName))
      case DescribeFailed(code, message) =>
        r == Err(if code == "ValidationError" then StackDoesNotExist(stackName) else ClientError(code, message))
      case Described(stacks) =>
        r == if stacks == [] then Ok(None) else Ok(Some(stacks[0].stackId))
  {
  }

  /** Once a stack was found, every later `get` asks by its id, whatever the name. */
  lemma RefreshThenById(v: StackView, stackName: string, otherName: string, describe: string -> DescribeReply)
    requires Refresh(v, stackName, describe).0.Ok? && Refresh(v, stackName, describe).0.value.Some?
    ensures QueryName(Refresh(v, stackName, describe).1, otherName) == Refresh(v, stackName, describe).0.value.value
  {
  }

  /** `get_status`: refresh, then read `StackStatus` from `stackData`, which may be left over from an earlier `get`. */
  function StatusAfter(v: StackView, stackName: string, describe: string -> DescribeReply): Result<string, Fault> {
    var (r, v') := Refresh(v, stackName, describe);
    if r.Err? then Err(r.error)
    else if v'.stackData.None? then Err(AttributeError("stackData"))
    else Ok(v'.stackData.value.status)
  }

  /** A stack that is found reports its current status; one that vanished reports the last status seen. */
  lemma StatusFreshOrStale(v: StackView, stackName: string, describe: string -> DescribeReply)
    ensures describe(QueryName(v, stackName)).Described? && describe(QueryName(v, stackName)).stacks != [] ==>
      StatusAfter(v, stackName, describe) == Ok(describe(QueryName(v, stackName)).stacks[0].status)
    ensures describe(QueryName(v, stackName)) == Described([]) ==>
      StatusAfter(v, stackName, describe) == if v.stackData.Some? then Ok(v.stackData.value.status)
                                             else Err(AttributeError("stackData"))
  {
  }

  // ------------------------------------------------------------ projections

  /**
   * The dict the loops of `get_parameters`, `get_outputs` and `get_resources`
   * build: each record that has a value sets its key, a later record
   * overwriting an earlier one.
   */
  function Collect<R>(rs: seq<R>, key: R -> string, val: R -> Option<string>): Dict<string, string> {
    if rs == [] then []
    else
      var d := Collect(rs[..|rs| - 1], key, val);
      var last := rs[|rs| - 1];
      if val(last).Some? then Put(d, key(last), val(last).value) else d
  }

  /** The loop itself. */
  method Gather<R>(rs: seq<R>, key: R -> string, val: R -> Option<string>) returns (d: Dict<string, string>)
    ensures d == Collect(rs, key, val)
  {
    d := [];
    var i := 0;
    while i < |rs|
      invariant 0 <= i <= |rs|
      invariant d == Collect(rs[..i], key, val)
    {
      assert rs[..i + 1][..i] == rs[..i];
      var v := val(rs[i]);
      if v.Some? {
        d := Put(d, key(rs[i]), v.value);
      }
      i := i + 1;
    }
    assert rs[..|rs|] == rs;
  }

  lemma {:induction false} CollectUnique<R>(rs: seq<R>, key: R -> string, val: R -> Option<string>)
    ensures UniqueKeys(Collect(rs, key, val))
  {
    if rs != [] {
      var last := rs[|rs| - 1];
      CollectUnique(rs[..|rs| - 1], key, val);
      if val(last).Some? {
        PutUnique(Collect(rs[..|rs| - 1], key, val), key(last), val(last).value);
      }
    }
  }

  /** A key is in the dict exactly when some record with that key has a value. */
  lemma {:induction false} CollectHasKey<R>(rs: seq<R>, key: R -> string, val: R -> Option<string>, k: string)
    ensures Get(Collect(rs, key, val), k).Some? <==> exists i :: 0 <= i < |rs| && key(rs[i]) == k && val(rs[i]).Some?
  {
    if rs != [] {
      var n := |rs| - 1;
      var pre, last := rs[..n], rs[n];
      var d := Collect(pre, key, val);
      CollectHasKey(pre, key, val, k);
      if val(last).Some? && key(last) == k {
        PutGet(d, k, val(last).value);
        assert key(rs[n]) == k && val(rs[n]).Some?;
      } else {
        if val(last).Some? {
          PutOther(d, key(last), val(last).value, k);
        }
        if exists i :: 0 <= i < |rs| && key(rs[i]) == k && val(rs[i]).Some? {
          var i :| 0 <= i < |rs| && key(rs[i]) == k && val(rs[i]).Some?;
          assert pre[i] == rs[i];
        }
        if exists i :: 0 <= i < |pre| && key(pre[i]) == k && val(pre[i]).Some? {
          var i :| 0 <= i < |pre| && key(pre[i]) == k && val(pre[i]).Some?;
          assert rs[i] == pre[i];
        }
      }
    }
  }

  /** The value a key gets is that of the last record with that key and a value. */
  lemma {:induction false} CollectGetLast<R>(rs: seq<R>, key: R -> string, val: R -> Option<string>, i: nat)
    requires i < |rs| && val(rs[i]).Some?
    requires forall j :: i < j < |rs| && key(rs[j]) == key(rs[i]) ==> val(rs[j]).None?
    ensures Get(Collect(rs, key, val), key(rs[i])) == val(rs[i])
  {
    var n := |rs| - 1;
    var pre, last := rs[..n], rs[n];
    var d := Collect(pre, key, val);
    if i == n {
      PutGet(d, key(last), val(last).value);
    } else {
      assert pre[i] == rs[i];
      forall j | i < j < |pre| && key(pre[j]) == key(pre[i])
        ensures val(pre[j]).None?
      {
        assert pre[j] == rs[j];
      }
      CollectGetLast(pre, key, val, i);
      if val(last).Some? {
        PutOther(d, key(last), val(last).value, key(rs[i]));
      }
    }
  }

  /** `get_parameters` prefers `ResolvedValue`, then `ParameterValue`; a parameter with neither is logged and left out. */
  function ParameterValue(p: StackParameter): Option<string> {
    if p.resolvedValue.Some? then p.resolvedValue else p.value
  }

  function ParameterKey(p: StackParameter): string {
    p.key
  }

  function OutputKey(o: StackOutput): string {
    o.key
  }

  function OutputValue(o: StackOutput): Option<string> {
    o.value
  }

  function ResourceKey(s: ResourceSummary): string {
    s.logicalId
  }

  /** `get_resources` keeps the physical id of a resource in a good status; the others are logged and skipped. */
  function ResourceValue(s: ResourceSummary): Option<string> {
    if s.physicalId.None? then None
    else if s.status in ResourceGoodStatus then s.physicalId
    else None
  }

  /** A parameter's resolved value wins over its plain value. */
  lemma ParametersPreferResolved(ps: seq<StackParameter>, i: nat)
    requires i < |ps|
    requires forall j :: i < j < |ps| && ps[j].key == ps[i].key ==> ParameterValue(ps[j]).None?
    ensures ps[i].resolvedValue.Some? ==> Get(Collect(ps, ParameterKey, ParameterValue), ps[i].key) == ps[i].resolvedValue
    ensures ps[i].resolvedValue.None? && ps[i].value.Some? ==>
      Get(Collect(ps, ParameterKey, ParameterValue), ps[i].key) == ps[i].value
  {
    if ParameterValue(ps[i]).Some? {
      CollectGetLast(ps, ParameterKey, ParameterValue, i);
    }
  }

  /** A key whose parameters all lack both values is not in `get_parameters`' dict. */
  lemma ParametersWithoutValueOmitted(ps: seq<StackParameter>, k: string)
    requires forall i :: 0 <= i < |ps| && ps[i].key == k ==> ps[i].resolvedValue.None? && ps[i].value.None?
    ensures !HasKey(Collect(ps, ParameterKey, ParameterValue), k)
  {
    CollectHasKey(ps, ParameterKey, ParameterValue, k);
  }

  /** An output is in `get_outputs`' dict exactly when some output of that name has a value. */
  lemma OutputsWithValue(os: seq<StackOutput>, k: string)
    ensures HasKey(Collect(os, OutputKey, OutputValue), k) <==>
      exists i :: 0 <= i < |os| && os[i].key == k && os[i].value.Some?
  {
    CollectHasKey(os, OutputKey, OutputValue, k);
  }

  /** A logical id is in `get_resources`' dict exactly when it has a physical id and a good status. */
  lemma ResourcesOnlyGood(rs: seq<ResourceSummary>, k: string)
    ensures HasKey(Collect(rs, ResourceKey, ResourceValue), k) <==>
      exists i :: 0 <= i < |rs| && rs[i].logicalId == k && rs[i].physicalId.Some? && rs[i].status in ResourceGoodStatus
  {
    CollectHasKey(rs, ResourceKey, ResourceValue, k);
  }

  /** The dicts these projections give have each key once, as a Python dict does. */
  lemma ProjectionsUnique(ps: seq<StackParameter>, os: seq<StackOutput>, rs: seq<ResourceSummary>)
    ensures UniqueKeys(Collect(ps, ParameterKey, ParameterValue))
    ensures UniqueKeys(Collect(os, OutputKey, OutputValue))
    ensures UniqueKeys(Collect(rs, ResourceKey, ResourceValue))
  {
    CollectUnique(ps, ParameterKey, ParameterValue);
    CollectUnique(os, OutputKey, OutputValue);
    CollectUnique(rs, ResourceKey, ResourceValue);
  }

  /** `get_parameters`: refresh, then project `self.Parameters`, which raises AttributeError if never set. */
  function ParametersAfter(v: StackView, stackName: string, describe: string -> DescribeReply)
    : Result<Dict<string, string>, Fault>
  {
    var (r, v') := Refresh(v, stackName, describe);
    if r.Err? then Err(r.error)
    else if v'.parameters.None? then Err(AttributeError("Parameters"))
    else Ok(Collect(v'.parameters.value, ParameterKey, ParameterValue))
  }

  /** `get_outputs`, in the same way over `self.Outputs`. */
  function OutputsAfter(v: StackView, stackName: string, describe: string -> DescribeReply)
    : Result<Dict<string, string>, Fault>
  {
    var (r, v') := Refresh(v, stackName, describe);
    if r.Err? then Err(r.error)
    else if v'.outputs.None? then Err(AttributeError("Outputs"))
    else Ok(Collect(v'.outputs.value, OutputKey, OutputValue))
  }

  /** All resource summaries, page after page, as `get_resources` extends `self.resources`. */
  function AllPages(l: Listing): seq<ResourceSummary> {
    match l
    case LastPage(s) => s
    case Page(s, next) => s + AllPages(next)
  }

  // ------------------------------------------------------------ events

  /** `list.reverse()`. */
  function Reverse<T>(s: seq<T>): (r: seq<T>)
    ensures |r| == |s|
    ensures forall i :: 0 <= i < |s| ==> r[i] == s[|s| - 1 - i]
  {
    if s == [] then [] else Reverse(s[1..]) + [s[0]]
  }

  /** Where `get_stack_events` stops: the first event carrying the cursor's id, or the end. */
  function FirstMatch(raw: seq<StackEvent>, cursor: Option<string>): (n: nat)
    ensures n <= |raw|
    ensures forall i :: 0 <= i < n ==> cursor.None? || raw[i].eventId != cursor.value
    ensures n < |raw| ==> cursor.Some? && raw[n].eventId == cursor.value
  {
    if raw == [] || cursor.None? then |raw|
    else if raw[0].eventId == cursor.value then 0
    else 1 + FirstMatch(raw[1..], cursor)
  }

  /** `get_stack_events`: the events (newest first, as the provider lists them) before the cursor, oldest first. */
  function EventsSince(raw: seq<StackEvent>, cursor: Option<string>): seq<StackEvent> {
    Reverse(raw[..FirstMatch(raw, cursor)])
  }

  /** Without a cursor, or with one that is not in the list, every event comes back, oldest first. */
  lemma EventsSinceAll(raw: seq<StackEvent>, cursor: Option<string>)
    requires cursor.Some? ==> forall i :: 0 <= i < |raw| ==> raw[i].eventId != cursor.value
    ensures EventsSince(raw, cursor) == Reverse(raw)
  {
    assert raw[..|raw|] == raw;
  }

  /** The event the cursor names, and everything listed after it, is left out; the rest keeps its order, reversed. */
  lemma EventsSinceBeforeCursor(raw: seq<StackEvent>, c: string, n: nat)
    requires n < |raw| && raw[n].eventId == c
    requires forall i :: 0 <= i < n ==> raw[i].eventId != c
    ensures EventsSince(raw, Some(c)) == Reverse(raw[..n])
    ensures forall e :: e in EventsSince(raw, Some(c)) ==> e.eventId != c
  {
    var m := FirstMatch(raw, Some(c));
    assert m == n;
    var r := Reverse(raw[..n]);
    forall e | e in r
      ensures e.eventId != c
    {
      var j :| 0 <= j < |r| && r[j] == e;
      assert e == raw[..n][n - 1 - j];
    }
  }

  /**
   * Polling with the newest event seen as cursor: when the provider lists
   * `newer` new events ahead of the old ones, exactly those come back, oldest
   * first.
   */
  lemma EventsSinceTail(newer: seq<StackEvent>, seen: seq<StackEvent>)
    requires seen != []
    requires forall i :: 0 <= i < |newer| ==> newer[i].eventId != seen[0].eventId
    ensures EventsSince(newer + seen, Some(seen[0].eventId)) == Reverse(newer)
  {
    var raw := newer + seen;
    assert raw[|newer|] == seen[0];
    forall i | 0 <= i < |newer|
      ensures raw[i].eventId != seen[0].eventId
    {
      assert raw[i] == newer[i];
    }
    EventsSinceBeforeCursor(raw, seen[0].eventId, |newer|);
    assert raw[..|newer|] == newer;
  }

  // ------------------------------------------------------------ update

  /** The keys only `create_stack` accepts, which `update` deletes from the payload. */
  const CreateOnlyKeys: seq<string> := ["TimeoutInMinutes", "OnFailure", "EnableTerminationProtection"]

  /** The payload `update` sends: the given one without the create-only keys. */
  function StripCreateOnly(p: Dict<string, Value>): Dict<string, Value> {
    Remove(Remove(Remove(p, "TimeoutInMinutes"), "OnFailure"), "EnableTerminationProtection")
  }

  /** The create-only keys are gone; every other key keeps its value. */
  lemma StripCreateOnlyGet(p: Dict<string, Value>, k: string)
    ensures Get(StripCreateOnly(p), k) == if k in CreateOnlyKeys then None else Get(p, k)
  {
    var p1 := Remove(p, "TimeoutInMinutes");
    var p2 := Remove(p1, "OnFailure");
    RemoveGet(p, "TimeoutInMinutes", k);
    RemoveGet(p1, "OnFailure", k);
    RemoveGet(p2, "EnableTerminationProtection", k);
  }

  /** The text of a botocore ClientError, which `update` searches. */
  function ErrorText(code: string, operation: string, message: string): string {
    "An error occurred (" + code + ") when calling the " + operation + " operation: " + message
  }

  const NoUpdatesMessage: string := "No updates are to be performed."

  /** How `update` reads the reply to `update_stack`. */
  function ClassifyUpdate(reply: ApiReply): (r: UpdateOutcome)
    ensures r.UpdatedStack? <==> reply.Replied? && reply.stackId.Some?
    ensures r.UpdatedStack? ==> r.stackId == reply.stackId.value
    ensures r.NoUpdates? <==>
      reply.Raised? && reply.code == "ValidationError"
      && Contains(ErrorText(reply.code, "UpdateStack", reply.message), NoUpdatesMessage)
  {
    match reply
    case Replied(id) => if id.Some? then UpdatedStack(id.value) else UpdateFailed
    case Raised(code, message) =>
      if code == "ValidationError" && Contains(ErrorText(code, "UpdateStack", message), NoUpdatesMessage) then NoUpdates
      else UpdateFailed
  }

  /** "No updates are to be performed." anywhere in a ValidationError counts as success. */
  lemma NoUpdatesIsSuccess(before: string, after: string)
    ensures ClassifyUpdate(Raised("ValidationError", before + NoUpdatesMessage + after)) == NoUpdates
  {
    var prefix := "An error occurred (" + "ValidationError" + ") when calling the " + "UpdateStack" + " operation: ";
    assert ErrorText("ValidationError", "UpdateStack", before + NoUpdatesMessage + after)
        == (prefix + before) + NoUpdatesMessage + after;
    ContainsInfix(prefix + before, NoUpdatesMessage, after);
  }

  // ------------------------------------------------------------ create

  const Capabilities: Value := List([Str("CAPABILITY_NAMED_IAM"), Str("CAPABILITY_AUTO_EXPAND")])

  /** `{'ParameterKey': str(key), 'ParameterValue': str(value)}`. */
  function ParameterEntry(key: string, value: Value): Value {
    Map([("ParameterKey", Str(key)), ("ParameterValue", Str(PyStr(value)))])
  }

  /** The `Parameters` list `create` builds from `params`, in its order. */
  function ParameterEntries(params: Dict<string, Value>): (es: seq<Value>)
    ensures |es| == |params|
    ensures forall i :: 0 <= i < |params| ==> es[i] == ParameterEntry(params[i].0, params[i].1)
  {
    seq(|params|, i requires 0 <= i < |params| => ParameterEntry(params[i].0, params[i].1))
  }

  /**
   * The assignments `create` makes to its payload, in its order: the fixed
   * keys, then each optional argument, then the template, its body when one
   * was given, else its URL.
   */
  function CreateEntries(stackName: string, body: Option<string>, s3Template: Option<string>,
                         params: Option<Dict<string, Value>>, tags: Option<Value>, onFailure: Option<Value>,
                         stackPolicyBody: Option<Value>, terminationProtection: Option<Value>,
                         timeoutInMinutes: Option<Value>)
    : seq<(string, Option<Value>)>
  {
    [("StackName", Some(Str(stackName))),
     ("Capabilities", Some(Capabilities)),
     ("Tags", tags),
     ("Parameters", if params.Some? then Some(List(ParameterEntries(params.value))) else None),
     ("StackPolicyBody", if stackPolicyBody.Some? then Some(Str(Dumps(stackPolicyBody.value))) else None),
     ("EnableTerminationProtection", terminationProtection),
     ("TimeoutInMinutes", timeoutInMinutes),
     ("OnFailure", onFailure),
     if body.Some? then ("TemplateBody", Some(Str(body.value)))
     else ("TemplateURL", if s3Template.Some? then Some(Str(s3Template.value)) else None)]
  }

  /** The payload `create` sends; None for the False it returns when neither a template nor an S3 URL was given. */
  function CreatePayload(stackName: string, body: Option<string>, s3Template: Option<string>,
                         params: Option<Dict<string, Value>>, tags: Option<Value>, onFailure: Option<Value>,
                         stackPolicyBody: Option<Value>, terminationProtection: Option<Value>,
                         timeoutInMinutes: Option<Value>)
    : Option<Dict<string, Value>>
  {
    if body.None? && s3Template.None? then None
    else Some(PutAll([], CreateEntries(stackName, body, s3Template, params, tags, onFailure, stackPolicyBody,
                                       terminationProtection, timeoutInMinutes)))
  }

  /** Each assignment of `create` is read back from the payload, and the other template key is absent. */
  lemma CreateEntriesLookup(stackName: string, body: Option<string>, s3Template: Option<string>,
                            params: Option<Dict<string, Value>>, tags: Option<Value>, onFailure: Option<Value>,
                            stackPolicyBody: Option<Value>, terminationProtection: Option<Value>,
                            timeoutInMinutes: Option<Value>)
    ensures var es := CreateEntries(stackName, body, s3Template, params, tags, onFailure, stackPolicyBody,
                                    terminationProtection, timeoutInMinutes);
      var p := PutAll([], es);
      && UniqueKeys(p)
      && (forall i :: 0 <= i < |es| ==> Get(p, es[i].0) == es[i].1)
      && Get(p, if body.Some? then "TemplateURL" else "TemplateBody") == None
  {
    var es := CreateEntries(stackName, body, s3Template, params, tags, onFailure, stackPolicyBody,
                            terminationProtection, timeoutInMinutes);
    CreateKeysDistinct(stackName, body, s3Template, params, tags, onFailure, stackPolicyBody,
                       terminationProtection, timeoutInMinutes);
    EntriesLookup(es, PutAll([], es));
    PutAllOther([], es, if body.Some? then "TemplateURL" else "TemplateBody");
  }

  /**
   * What `create` promises about its payload: False exactly without a
   * template; the body wins over the URL; the fixed name and capabilities.
   */
  lemma CreatePayloadFields(stackName: string, body: Option<string>, s3Template: Option<string>,
                            params: Option<Dict<string, Value>>, tags: Option<Value>, onFailure: Option<Value>,
                            stackPolicyBody: Option<Value>, terminationProtection: Option<Value>,
                            timeoutInMinutes: Option<Value>)
    ensures var r := CreatePayload(stackName, body, s3Template, params, tags, onFailure, stackPolicyBody,
                                   terminationProtection, timeoutInMinutes);
      && (r.None? <==> body.None? && s3Template.None?)
      && (r.Some? ==>
        && UniqueKeys(r.value)
        && Get(r.value, "StackName") == Some(Str(stackName))
        && Get(r.value, "Capabilities") == Some(Capabilities)
        && (body.Some? ==> Get(r.value, "TemplateBody") == Some(Str(body.value)) && !HasKey(r.value, "TemplateURL"))
        && (body.None? ==> Get(r.value, "TemplateURL") == Some(Str(s3Template.value)) && !HasKey(r.value, "TemplateBody")))
  {
    if body.Some? || s3Template.Some? {
      var es := CreateEntries(stackName, body, s3Template, params, tags, onFailure, stackPolicyBody,
                              terminationProtection, timeoutInMinutes);
      var p := PutAll([], es);
      CreateEntriesLookup(stackName, body, s3Template, params, tags, onFailure, stackPolicyBody,
                          terminationProtection, timeoutInMinutes);
      assert Get(p, es[0].0) == es[0].1 && Get(p, es[1].0) == es[1].1 && Get(p, es[8].0) == es[8].1;
    }
  }

  /**
   * The optional arguments: each parameter as its str() pair, a policy as
   * its JSON text, the others as given, and each key present exactly when
   * its argument was given.
   */
  lemma CreatePayloadOptional(stackName: string, body: Option<string>, s3Template: Option<string>,
                              params: Option<Dict<string, Value>>, tags: Option<Value>, onFailure: Option<Value>,
                              stackPolicyBody: Option<Value>, terminationProtection: Option<Value>,
                              timeoutInMinutes: Option<Value>)
    requires body.Some? || s3Template.Some?
    ensures var p := CreatePayload(stackName, body, s3Template, params, tags, onFailure, stackPolicyBody,
                                   terminationProtection, timeoutInMinutes).value;
      && Get(p, "Parameters") == (if params.Some? then Some(List(ParameterEntries(params.value))) else None)
      && Get(p, "StackPolicyBody") == (if stackPolicyBody.Some? then Some(Str(Dumps(stackPolicyBody.value))) else None)
      && Get(p, "Tags") == tags
      && Get(p, "EnableTerminationProtection") == terminationProtection
      && Get(p, "TimeoutInMinutes") == timeoutInMinutes
      && Get(p, "OnFailure") == onFailure
  {
    var es := CreateEntries(stackName, body, s3Template, params, tags, onFailure, stackPolicyBody,
                            terminationProtection, timeoutInMinutes);
    var p := PutAll([], es);
    CreateEntriesLookup(stackName, body, s3Template, params, tags, onFailure, stackPolicyBody,
                        terminationProtection, timeoutInMinutes);
    assert Get(p, es[2].0) == es[2].1 && Get(p, es[3].0) == es[3].1 && Get(p, es[4].0) == es[4].1;
    assert Get(p, es[5].0) == es[5].1 && Get(p, es[6].0) == es[6].1 && Get(p, es[7].0) == es[7].1;
  }

  /** The nine assignments of `create` name nine different keys, none of them the template key not chosen. */
  lemma CreateKeysDistinct(stackName: string, body: Option<string>, s3Template: Option<string>,
                           params: Option<Dict<string, Value>>, tags: Option<Value>, onFailure: Option<Value>,
                           stackPolicyBody: Option<Value>, terminationProtection: Option<Value>,
                           timeoutInMinutes: Option<Value>)
    ensures var es := CreateEntries(stackName, body, s3Template, params, tags, onFailure, stackPolicyBody,
                                    terminationProtection, timeoutInMinutes);
      && DistinctKeys(es)
      && forall i :: 0 <= i < |es| ==> es[i].0 != if body.Some? then "TemplateURL" else "TemplateBody"
  {
    var es := CreateEntries(stackName, body, s3Template, params, tags, onFailure, stackPolicyBody,
                            terminationProtection, timeoutInMinutes);
    assert es[0].0 == "StackName" && es[1].0 == "Capabilities" && es[2].0 == "Tags" && es[3].0 == "Parameters";
    assert es[4].0 == "StackPolicyBody" && es[5].0 == "EnableTerminationProtection";
    assert es[6].0 == "TimeoutInMinutes" && es[7].0 == "OnFailure";
    assert es[8].0 == if body.Some? then "TemplateBody" else "TemplateURL";
    // Keys of equal length differ in their first letter.
    assert |es[0].0| == 9 && |es[1].0| == 12 && |es[2].0| == 4 && |es[3].0| == 10 && |es[4].0| == 15;
    assert |es[5].0| == 27 && |es[6].0| == 16 && |es[7].0| == 9 && (|es[8].0| == 12 || |es[8].0| == 11);
    assert es[0].0[0] == 'S' && es[7].0[0] == 'O' && es[1].0[0] == 'C' && es[8].0[0] == 'T';
    assert "TemplateURL"[0] == 'T' && "TemplateBody"[0] == 'T';
  }

  /** One step of `PutAll` taken from the `k`-th assignment on. */
  lemma PutAllStep(d: Dict<string, Value>, es: seq<(string, Option<Value>)>, k: nat)
    requires k < |es|
    ensures PutAll(d, es[k..]) == PutAll(PutIf(d, es[k].0, es[k].1), es[k + 1..])
  {
    assert es[k..][0] == es[k];
    assert es[k..][1..] == es[k + 1..];
  }

  /** Three steps of `PutAll` taken from the `k`-th assignment on. */
  lemma PutAllThree(d: Dict<string, Value>, es: seq<(string, Option<Value>)>, k: nat)
    requires k + 3 <= |es|
    ensures PutAll(d, es[k..]) ==
      PutAll(PutIf(PutIf(PutIf(d, es[k].0, es[k].1), es[k + 1].0, es[k + 1].1), es[k + 2].0, es[k + 2].1), es[k + 3..])
  {
    var d1 := PutIf(d, es[k].0, es[k].1);
    var d2 := PutIf(d1, es[k + 1].0, es[k + 1].1);
    PutAllStep(d, es, k);
    PutAllStep(d1, es, k + 1);
    PutAllStep(d2, es, k + 2);
  }

  /** Nine assignments are the nine steps of `create`, one after the other. */
  lemma PutAllNine(d: Dict<string, Value>, es: seq<(string, Option<Value>)>)
    requires |es| == 9
    ensures PutAll(d, es) ==
      PutIf(PutIf(PutIf(PutIf(PutIf(PutIf(PutIf(PutIf(PutIf(d, es[0].0, es[0].1), es[1].0, es[1].1), es[2].0, es[2].1),
                                                  es[3].0, es[3].1), es[4].0, es[4].1), es[5].0, es[5].1),
                          es[6].0, es[6].1), es[7].0, es[7].1), es[8].0, es[8].1)
  {
    var d3 := PutIf(PutIf(PutIf(d, es[0].0, es[0].1), es[1].0, es[1].1), es[2].0, es[2].1);
    var d6 := PutIf(PutIf(PutIf(d3, es[3].0, es[3].1), es[4].0, es[4].1), es[5].0, es[5].1);
    assert es[0..] == es;
    PutAllThree(d, es, 0);
    PutAllThree(d3, es, 3);
    PutAllThree(d6, es, 6);
    assert es[9..] == [];
  }

  /** `create`'s return once its payload is built: False without a payload, the id, or None. */
  function CreateResult(payload: Option<Dict<string, Value>>, createApi: Dict<string, Value> -> ApiReply): CreateOutcome {
    if payload.None? then NoTemplate
    else match createApi(payload.value)
      case Replied(Some(id)) => Created(id)
      case _ => CreateFailed
  }

  /** The loop of `create` that turns `params` into its `Parameters` list. */
  method BuildParameterEntries(ps: Dict<string, Value>) returns (list: seq<Value>)
    ensures list == ParameterEntries(ps)
  {
    list := [];
    var i := 0;
    while i < |ps|
      invariant 0 <= i <= |ps|
      invariant list == ParameterEntries(ps[..i])
    {
      list := list + [ParameterEntry(ps[i].0, ps[i].1)];
      i := i + 1;
    }
    assert ps[..|ps|] == ps;
  }

  /** The payload `create` builds, key by key. */
  method BuildCreatePayload(stackName: string, body: Option<string>, s3Template: Option<string>,
                            params: Option<Dict<string, Value>>, tags: Option<Value>, onFailure: Option<Value>,
                            stackPolicyBody: Option<Value>, terminationProtection: Option<Value>,
                            timeoutInMinutes: Option<Value>)
    returns (r: Option<Dict<string, Value>>)
    ensures r == CreatePayload(stackName, body, s3Template, params, tags, onFailure, stackPolicyBody,
                               terminationProtection, timeoutInMinutes)
  {
    var payload: Dict<string, Value> := [];
    payload := Put(payload, "StackName", Str(stackName));
    payload := Put(payload, "Capabilities", Capabilities);
    payload := PutIf(payload, "Tags", tags);
    var parameters: Option<Value> := None;
    if params.Some? {
      var list := BuildParameterEntries(params.value);
      parameters := Some(List(list));
    }
    payload := PutIf(payload, "Parameters", parameters);
    var policy := if stackPolicyBody.Some? then Some(Str(Dumps(stackPolicyBody.value))) else None;
    payload := PutIf(payload, "StackPolicyBody", policy);
    payload := PutIf(payload, "EnableTerminationProtection", terminationProtection);
    payload := PutIf(payload, "TimeoutInMinutes", timeoutInMinutes);
    payload := PutIf(payload, "OnFailure", onFailure);
    var source: (string, Option<Value>);
    if body.Some? {
      source := ("TemplateBody", Some(Str(body.value)));
    } else if s3Template.Some? {
      source := ("TemplateURL", Some(Str(s3Template.value)));
    } else {
      return None;
    }
    payload := PutIf(payload, source.0, source.1);
    ghost var es := CreateEntries(stackName, body, s3Template, params, tags, onFailure, stackPolicyBody,
                                  terminationProtection, timeoutInMinutes);
    assert es[3].1 == parameters && es[4].1 == policy && es[8] == source;
    CreatePayloadSteps(stackName, body, s3Template, params, tags, onFailure, stackPolicyBody,
                       terminationProtection, timeoutInMinutes);
    return Some(payload);
  }

  /** A payload that is built is the nine assignments of `create` made one after the other. */
  lemma CreatePayloadSteps(stackName: string, body: Option<string>, s3Template: Option<string>,
                           params: Option<Dict<string, Value>>, tags: Option<Value>, onFailure: Option<Value>,
                           stackPolicyBody: Option<Value>, terminationProtection: Option<Value>,
                           timeoutInMinutes: Option<Value>)
    requires body.Some? || s3Template.Some?
    ensures var es := CreateEntries(stackName, body, s3Template, params, tags, onFailure, stackPolicyBody,
                                    terminationProtection, timeoutInMinutes);
      CreatePayload(stackName, body, s3Template, params, tags, onFailure, stackPolicyBody,
                    terminationProtection, timeoutInMinutes)
      == Some(PutIf(PutIf(PutIf(PutIf(PutIf(PutIf(PutIf(Put(Put([], "StackName", Str(stackName)), "Capabilities", Capabilities),
                                                          "Tags", tags), "Parameters", es[3].1), "StackPolicyBody", es[4].1),
                                        "EnableTerminationProtection", terminationProtection), "TimeoutInMinutes", timeoutInMinutes),
                          "OnFailure", onFailure), es[8].0, es[8].1))
  {
    PutAllNine([], CreateEntries(stackName, body, s3Template, params, tags, onFailure, stackPolicyBody,
                                 terminationProtection, timeoutInMinutes));
  }

  /** With distinct keys, the payload holds exactly the given entries. */
  lemma EntriesLookup(es: seq<(string, Option<Value>)>, p: Dict<string, Value>)
    requires DistinctKeys(es) && p == PutAll([], es)
    ensures UniqueKeys(p)
    ensures forall i :: 0 <= i < |es| ==> Get(p, es[i].0) == es[i].1
  {
    PutAllUnique([], es);
    forall i | 0 <= i < |es|
      ensures Get(p, es[i].0) == es[i].1
    {
      PutAllLookup(es, i);
    }
  }

  /** Each `Parameters` entry gives back the parameter's key and the str() of its value. */
  lemma ParameterEntriesReadBack(params: Dict<string, Value>, i: nat)
    requires i < |params|
    ensures ParameterEntries(params)[i].Map?
    ensures Get(ParameterEntries(params)[i].entries, "ParameterKey") == Some(Str(params[i].0))
    ensures Get(ParameterEntries(params)[i].entries, "ParameterValue") == Some(Str(PyStr(params[i].1)))
    ensures !HasKey(ParameterEntries(params)[i].entries, "UsePreviousValue")
  {
    var e := ParameterEntries(params)[i].entries;
    assert e == [("ParameterKey", Str(params[i].0)), ("ParameterValue", Str(PyStr(params[i].1)))];
    assert Keys(e) == ["ParameterKey", "ParameterValue"];
  }

  // ------------------------------------------------------------ the class

  class CFStack {
    const stackName: string
    const region: string
    var stackId: Option<string>
    var stackData: Option<StackRecord>
    var parameters: Option<seq<StackParameter>>
    var outputs: Option<seq<StackOutput>>
    var resources: Option<seq<ResourceSummary>>
    var template: Option<CFTemplate>
    var s3Template: Option<string>

    /** A handle on a stack by name; nothing is asked of the provider yet. */
    constructor (stackName: string, region: string)
      ensures this.stackName == stackName && this.region == region
      ensures View() == StackView(None, None, None, None)
      ensures resources == None && template == None && s3Template == None
    {
      this.stackName := stackName;
      this.region := region;
      stackId := None;
      stackData := None;
      parameters := None;
      outputs := None;
      resources := None;
      template := None;
      s3Template := None;
    }

    function View(): StackView
      reads this
    {
      StackView(stackId, stackData, parameters, outputs)
    }

    /** `get`. */
    method Get(describe: string -> DescribeReply) returns (r: Result<Option<string>, Fault>)
      modifies this`stackId, this`stackData, this`parameters, this`outputs
      ensures (r, View()) == Refresh(old(View()), stackName, describe)
    {
      var query := if stackId.Some? then stackId.value else stackName;
      var reply := describe(query);
      if reply.DescribeFailed? {
        if reply.code == "ValidationError" {
          return Err(StackDoesNotExist(stackName));
        }
        return Err(ClientError(reply.code, reply.message));
      }
      if reply.stacks == [] {
        return Ok(None);
      }
      var rec := reply.stacks[0];
      stackData := Some(rec);
      stackId := Some(rec.stackId);
      if rec.parameters.Some? {
        parameters := rec.parameters;
      }
      if rec.outputs.Some? {
        outputs := rec.outputs;
      }
      return Ok(Some(rec.stackId));
    }

    /** `get_status`. */
    method GetStatus(describe: string -> DescribeReply) returns (r: Result<string, Fault>)
      modifies this`stackId, this`stackData, this`parameters, this`outputs
      ensures View() == Refresh(old(View()), stackName, describe).1
      ensures r == StatusAfter(old(View()), stackName, describe)
    {
      var g := Get(describe);
      if g.Err? {
        return Err(g.error);
      }
      if stackData.None? {
        return Err(AttributeError("stackData"));
      }
      return Ok(stackData.value.status);
    }

    /** `get_parameters`. */
    method GetParameters(describe: string -> DescribeReply) returns (r: Result<Dict<string, string>, Fault>)
      modifies this`stackId, this`stackData, this`parameters, this`outputs
      ensures View() == Refresh(old(View()), stackName, describe).1
      ensures r == ParametersAfter(old(View()), stackName, describe)
    {
      var g := Get(describe);
      if g.Err? {
        return Err(g.error);
      }
      if parameters.None? {
        return Err(AttributeError("Parameters"));
      }
      var d := Gather(parameters.value, ParameterKey, ParameterValue);
      return Ok(d);
    }

    /** `get_outputs`. */
    method GetOutputs(describe: string -> DescribeReply) returns (r: Result<Dict<string, string>, Fault>)
      modifies this`stackId, this`stackData, this`parameters, this`outputs
      ensures View() == Refresh(old(View()), stackName, describe).1
      ensures r == OutputsAfter(old(View()), stackName, describe)
    {
      var g := Get(describe);
      if g.Err? {
        return Err(g.error);
      }
      if outputs.None? {
        return Err(AttributeError("Outputs"));
      }
      var d := Gather(outputs.value, OutputKey, OutputValue);
      return Ok(d);
    }

    /**
     * `get_resources`: every page of the listing for the stored StackId
     * (AttributeError before one is stored), then the good resources.
     */
    method GetResources(listing: string -> Listing) returns (r: Result<Dict<string, string>, Fault>)
      modifies this`resources
      ensures stackId.None? ==> r == Err(AttributeError("StackId")) && resources == old(resources)
      ensures stackId.Some? ==>
        && resources == Some(AllPages(listing(stackId.value)))
        && r == Ok(Collect(resources.value, ResourceKey, ResourceValue))
    {
      if stackId.None? {
        return Err(AttributeError("StackId"));
      }
      var start := listing(stackId.value);
      var page := start;
      var all := page.summaries;
      while page.Page?
        invariant all + (if page.Page? then AllPages(page.next) else []) == AllPages(start)
        decreases page
      {
        page := page.next;
        all := all + page.summaries;
      }
      assert all == AllPages(start);
      resources := Some(all);
      var d := Gather(all, ResourceKey, ResourceValue);
      return Ok(d);
    }

    /** `get_stack_events`: the events of the stored StackId since the cursor. */
    method GetStackEvents(lastEventId: Option<string>, describeEvents: string -> seq<StackEvent>)
      returns (r: Result<seq<StackEvent>, Fault>)
      ensures stackId.None? ==> r == Err(AttributeError("StackId"))
      ensures stackId.Some? ==> r == Ok(EventsSince(describeEvents(stackId.value), lastEventId))
    {
      if stackId.None? {
        return Err(AttributeError("StackId"));
      }
      var raw := describeEvents(stackId.value);
      var events: seq<StackEvent> := [];
      var i := 0;
      while i < |raw|
        invariant 0 <= i <= |raw|
        invariant events == raw[..i]
        invariant forall j :: 0 <= j < i ==> lastEventId.None? || raw[j].eventId != lastEventId.value
      {
        if lastEventId.Some? && raw[i].eventId == lastEventId.value {
          return Ok(Reverse(events));
        }
        events := events + [raw[i]];
        i := i + 1;
      }
      assert raw[..|raw|] == raw;
      return Ok(Reverse(events));
    }

    /**
     * `update` given a payload (the manifest branch is where a manifest is
     * at hand, in EntryPoints). False as payload fails at the first `in`
     * with TypeError, which nothing catches.
     */
    method Update(payload: PayloadArg, updateApi: Dict<string, Value> -> ApiReply) returns (r: Result<UpdateOutcome, Fault>)
      ensures payload.NoPayload? ==> r == Ok(UpdateFailed)
      ensures payload.NotBuilt? ==> r == Err(TypeError("argument of type 'bool' is not iterable"))
      ensures payload.Built? ==> r == Ok(ClassifyUpdate(updateApi(StripCreateOnly(payload.payload))))
    {
      if payload.NoPayload? {
        return Ok(UpdateFailed);
      }
      if payload.NotBuilt? {
        return Err(TypeError("argument of type 'bool' is not iterable"));
      }
      var p := payload.payload;
      if HasKey(p, "TimeoutInMinutes") {
        p := Remove(p, "TimeoutInMinutes");
      } else {
        RemoveAbsent(p, "TimeoutInMinutes");
      }
      if HasKey(p, "OnFailure") {
        p := Remove(p, "OnFailure");
      } else {
        RemoveAbsent(p, "OnFailure");
      }
      if HasKey(p, "EnableTerminationProtection") {
        p := Remove(p, "EnableTerminationProtection");
      } else {
        RemoveAbsent(p, "EnableTerminationProtection");
      }
      var reply := updateApi(p);
      if reply.Replied? {
        if reply.stackId.None? {
          return Ok(UpdateFailed);
        }
        return Ok(UpdatedStack(reply.stackId.value));
      }
      if reply.code == "ValidationError" {
        if Contains(ErrorText(reply.code, "UpdateStack", reply.message), NoUpdatesMessage) {
          return Ok(NoUpdates);
        }
        return Ok(UpdateFailed);
      }
      return Ok(UpdateFailed);
    }

    /**
     * `create`: remember the template given, and send the payload built by
     * `BuildCreatePayload`; False (no template) without sending anything.
     */
    method Create(template: Option<CFTemplate>, s3Template: Option<string>, params: Option<Dict<string, Value>>,
                  tags: Option<Value>, onFailure: Option<Value>, stackPolicyBody: Option<Value>,
                  terminationProtection: Option<Value>, timeoutInMinutes: Option<Value>,
                  createApi: Dict<string, Value> -> ApiReply)
      returns (r: CreateOutcome)
      modifies this`template, this`s3Template
      ensures r == CreateResult(CreatePayload(stackName, if template.Some? then Some(template.value.templateBody) else None,
                                              s3Template, params, tags, onFailure, stackPolicyBody,
                                              terminationProtection, timeoutInMinutes), createApi)
      ensures template.Some? ==> this.template == template && this.s3Template == old(this.s3Template)
      ensures template.None? && s3Template.Some? ==> this.template == old(this.template) && this.s3Template == s3Template
      ensures template.None? && s3Template.None? ==> this.template == old(this.template) && this.s3Template == old(this.s3Template)
    {
      var body := if template.Some? then Some(template.value.templateBody) else None;
      var payload := BuildCreatePayload(stackName, body, s3Template, params, tags, onFailure, stackPolicyBody,
                                        terminationProtection, timeoutInMinutes);
      if template.Some? {
        this.template := template;
      } else if s3Template.Some? {
        this.s3Template := s3Template;
      }
      if payload.None? {
        return NoTemplate;
      }
      var reply := createApi(payload.value);
      if reply.Replied? && reply.stackId.Some? {
        return Created(reply.stackId.value);
      }
      return CreateFailed;
    }

    /** `delete`: the stack is named by its stored StackId; `failure` is the ClientError `delete_stack` raised, if any. */
    method Delete(failure: Option<Fault>) returns (r: Result<string, Fault>)
      ensures stackId.None? ==> r == Err(AttributeError("StackId"))
      ensures stackId.Some? && failure.Some? ==> r == Err(failure.value)
      ensures stackId.Some? && failure.None? ==> r == Ok(stackId.value)
    {
      if stackId.None? {
        return Err(AttributeError("StackId"));
      }
      if failure.Some? {
        return Err(failure.value);
      }
      return Ok(stackId.value);
    }

    /** `detect_drift`, `create_changeset`, `describe_changeset` and `list_changesets` are not implemented. */
    function DetectDrift(): (r: Result<(), Fault>)
      ensures r == Err(NotImplemented)
    {
      Err(NotImplemented)
    }

    function CreateChangeset(changesetName: string): (r: Result<(), Fault>)
      ensures r == Err(NotImplemented)
    {
      Err(NotImplemented)
    }

    function DescribeChangeset(changesetName: string): (r: Result<(), Fault>)
      ensures r == Err(NotImplemented)
    {
      Err(NotImplemented)
    }

    function ListChangesets(): (r: Result<(), Fault>)
      ensures r == Err(NotImplemented)
    {
      Err(NotImplemented)
    }
  }
}
