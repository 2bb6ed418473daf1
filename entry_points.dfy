/**
 * The decisions of the command-line entry points in cftdeploy/entry_points.py:
 * the `k=v` override arguments, the event display of `print_events`, the
 * create / update / abort decision of `cft_deploy`, the poll loop that
 * follows it, and the success test of `cft_delete`.
 *
 * The poll loops ask the provider for the stack's events and status again
 * and again; here those answers are a finite trace: `raw[i]` is the i-th
 * reply of `describe_stack_events` (newest first) and `statuses[i]` the
 * i-th status `get_status` returns.
 */
module EntryPoints {

  import opened Wrappers
  import opened Strings
  import opened Faults
  import opened PyDict
  import opened PyValue
  import opened Status
  import opened Stack
  import opened Manifest

  // ------------------------------------------------------------ process_override_params

  function UnpackPairError(n: nat): Fault {
    if n > 2 then ValueError("too many values to unpack (expected 2)")
    else ValueError("not enough values to unpack (expected 2, got 1)")
  }

  /** The loop of `process_override_params`: `k, v = p.split("=")`, then `params[k] = v`. */
  function ParseOverrides(args: seq<string>): Result<Dict<string, string>, Fault> {
    if args == [] then Ok([])
    else
      var d :- ParseOverrides(args[..|args| - 1]);
      var parts := Split(args[|args| - 1], '=');
      if |parts| != 2 then Err(UnpackPairError(|parts|)) else Ok(Put(d, parts[0], parts[1]))
  }

  /** `process_override_params`: None without override arguments. */
  function OverrideParams(args: seq<string>): Result<Option<Dict<string, string>>, Fault> {
    if args == [] then Ok(None)
    else
      var d :- ParseOverrides(args);
      Ok(Some(d))
  }

  method ProcessOverrideParams(args: seq<string>) returns (r: Result<Option<Dict<string, string>>, Fault>)
    ensures r == OverrideParams(args)
  {
    if args == [] {
      return Ok(None);
    }
    var params: Dict<string, string> := [];
    var i := 0;
    while i < |args|
      invariant 0 <= i <= |args|
      invariant ParseOverrides(args[..i]) == Ok(params)
    {
      assert args[..i + 1][..i] == args[..i];
      var parts := Split(args[i], '=');
      if |parts| != 2 {
        OverridesStuck(args, i + 1);
        return Err(UnpackPairError(|parts|));
      }
      params := Put(params, parts[0], parts[1]);
      i := i + 1;
    }
    assert args[..|args|] == args;
    return Ok(Some(params));
  }

  lemma {:induction false} OverridesStuck(args: seq<string>, i: nat)
    requires i <= |args| && ParseOverrides(args[..i]).Err?
    ensures ParseOverrides(args) == ParseOverrides(args[..i])
    decreases |args|
  {
    if i < |args| {
      var pre := args[..|args| - 1];
      assert pre[..i] == args[..i];
      OverridesStuck(pre, i);
    } else {
      assert args[..i] == args;
    }
  }

  /** `k=v` with no '=' in `k` or `v` splits back into `k` and `v`. */
  lemma OverrideArgParts(k: string, v: string)
    requires '=' !in k && '=' !in v
    ensures Split(k + "=" + v, '=') == [k, v]
  {
    SplitJoin([k, v], '=');
    assert Join([k, v], '=') == k + "=" + v by {
      assert Join([v], '=') == v;
    }
  }

  predicate WellFormed(p: string) {
    |Split(p, '=')| == 2
  }

  function ArgKey(p: string): string {
    Split(p, '=')[0]
  }

  function ArgValue(p: string): Option<string> {
    if WellFormed(p) then Some(Split(p, '=')[1]) else None
  }

  /** With every argument of the form `k=v`, the overrides are the pairs, a later key overwriting an earlier one. */
  lemma {:induction false} OverridesCollect(args: seq<string>)
    requires forall i :: 0 <= i < |args| ==> WellFormed(args[i])
    ensures ParseOverrides(args) == Ok(Collect(args, ArgKey, ArgValue))
  {
    if args != [] {
      var pre := args[..|args| - 1];
      assert forall i :: 0 <= i < |pre| ==> pre[i] == args[i];
      OverridesCollect(pre);
    }
  }

  /** The last argument for a key gives its value, and each key appears once. */
  lemma OverridesLastWins(args: seq<string>, i: nat)
    requires forall j :: 0 <= j < |args| ==> WellFormed(args[j])
    requires i < |args| && forall j :: i < j < |args| ==> ArgKey(args[j]) != ArgKey(args[i])
    ensures OverrideParams(args).Ok? && OverrideParams(args).value.Some?
    ensures UniqueKeys(OverrideParams(args).value.value)
    ensures Get(OverrideParams(args).value.value, ArgKey(args[i])) == ArgValue(args[i])
  {
    OverridesCollect(args);
    CollectUnique(args, ArgKey, ArgValue);
    CollectGetLast(args, ArgKey, ArgValue, i);
  }

  /** The first argument without exactly one '=' ends the loop with ValueError. */
  lemma OverrideMalformed(args: seq<string>, i: nat)
    requires i < |args| && !WellFormed(args[i])
    requires forall j :: 0 <= j < i ==> WellFormed(args[j])
    ensures OverrideParams(args).Err? && OverrideParams(args).error.ValueError?
  {
    var pre := args[..i];
    assert forall j :: 0 <= j < |pre| ==> pre[j] == args[j];
    OverridesCollect(pre);
    assert args[..i + 1][..i] == pre;
    OverridesStuck(args, i + 1);
  }

  // ------------------------------------------------------------ print_events

  const Yellow: string := "\U{1B}[93m"
  const Red: string := "\U{1B}[91m"
  const Green: string := "\U{1B}[92m"
  const Reset: string := "\U{1B}[0m"

  /** The status as shown: coloured by its table, tested Temp, then Bad, then Good. */
  function Coloured(status: string): string {
    match ResourceBucket(status)
    case Temp => Yellow + status + Reset
    case Bad => Red + status + Reset
    case Good => Green + status + Reset
    case Plain => status
  }

  /** Each status gets the colour of the one table that holds it; a status in none is shown as it is. */
  lemma ColouredCases(status: string)
    ensures status in ResourceTempStatus ==> Coloured(status) == Yellow + status + Reset
    ensures status in ResourceBadStatus ==> Coloured(status) == Red + status + Reset
    ensures status in ResourceGoodStatus ==> Coloured(status) == Green + status + Reset
    ensures status !in ResourceTempStatus && status !in ResourceBadStatus && status !in ResourceGoodStatus ==>
      Coloured(status) == status
  {
    BucketIsMembership(status);
  }

  /** A reason is shown after ": " when present and not empty. */
  function ReasonText(reason: Option<string>): string {
    if reason.Some? && reason.value != "" then ": " + reason.value else ""
  }

  /** The line printed for an event; the timestamp is taken as already formatted. */
  function EventLine(e: StackEvent): string {
    e.timestamp + " " + e.logicalId + " (" + e.resourceType + "): " + Coloured(e.status) + " " + ReasonText(e.reason)
  }

  function EventLines(events: seq<StackEvent>): (lines: seq<string>)
    ensures |lines| == |events|
    ensures forall i :: 0 <= i < |events| ==> lines[i] == EventLine(events[i])
  {
    seq(|events|, i requires 0 <= i < |events| => EventLine(events[i]))
  }

  /** Printing two runs of events one after the other prints the lines of both, in order. */
  lemma EventLinesAppend(a: seq<StackEvent>, b: seq<StackEvent>)
    ensures EventLines(a + b) == EventLines(a) + EventLines(b)
  {
    var l := EventLines(a + b);
    var r := EventLines(a) + EventLines(b);
    forall i | 0 <= i < |l|
      ensures l[i] == r[i]
    {
      if i < |a| {
        assert (a + b)[i] == a[i];
      } else {
        assert (a + b)[i] == b[i - |a|];
      }
    }
  }

  /** The cursor `print_events` returns: the one given for no events, else the last event's id. */
  function NextCursor(events: seq<StackEvent>, last: Option<string>): Option<string> {
    if events == [] then last else Some(events[|events| - 1].eventId)
  }

  /** `print_events`: one line per event, in the given order, and the new cursor. */
  method PrintEvents(events: seq<StackEvent>, last: Option<string>) returns (cursor: Option<string>, lines: seq<string>)
    ensures cursor == NextCursor(events, last)
    ensures lines == EventLines(events)
  {
    if |events| == 0 {
      return last, [];
    }
    lines := [];
    var i := 0;
    while i < |events|
      invariant 0 <= i <= |events|
      invariant lines == EventLines(events[..i])
    {
      lines := lines + [EventLine(events[i])];
      i := i + 1;
    }
    assert events[..|events|] == events;
    cursor := Some(events[|events| - 1].eventId);
  }

  /**
   * Printing what `get_stack_events` returns moves the cursor to the newest
   * event listed before the old cursor, and leaves it when there is none.
   */
  lemma CursorAfterSince(raw: seq<StackEvent>, c: Option<string>)
    ensures NextCursor(EventsSince(raw, c), c) == if FirstMatch(raw, c) == 0 then c else Some(raw[0].eventId)
  {
    var n := FirstMatch(raw, c);
    if n > 0 {
      assert EventsSince(raw, c)[n - 1] == raw[..n][0];
    }
  }

  // ------------------------------------------------------------ the poll loop

  /**
   * How a poll loop ends: the number of status checks that found the stack
   * still moving, the status of the final `get_status`, the exit code, the
   * cursor and every event shown, in order.
   */
  datatype PollEnd = PollEnd(checks: nat, status: string, exitCode: int, cursor: Option<string>, shown: seq<StackEvent>)

  /**
   * The loop from status check `i` on, with the cursor and the events shown
   * so far; None when the trace ends first. While the status is in
   * StackTempStatus, the next events since the cursor are shown; then one
   * more `get_status` decides the exit code: 0 exactly when it is in `goal`.
   */
  function PollFrom(raw: seq<seq<StackEvent>>, statuses: seq<string>, goal: seq<string>, i: nat,
                    cursor: Option<string>, shown: seq<StackEvent>)
    : Option<PollEnd>
    decreases |statuses| - i
  {
    if i >= |statuses| then None
    else if statuses[i] in StackTempStatus then
      if i + 1 >= |raw| then None
      else
        var batch := EventsSince(raw[i + 1], cursor);
        PollFrom(raw, statuses, goal, i + 1, NextCursor(batch, cursor), shown + batch)
    else if i + 1 >= |statuses| then None
    else Some(PollEnd(i, statuses[i + 1], if statuses[i + 1] in goal then 0 else 1, cursor, shown))
  }

  /** The whole loop: all events first, with no cursor. */
  function Poll(raw: seq<seq<StackEvent>>, statuses: seq<string>, goal: seq<string>): Option<PollEnd> {
    if raw == [] then None
    else
      var first := EventsSince(raw[0], None);
      PollFrom(raw, statuses, goal, 0, NextCursor(first, None), first)
  }

  /** The loop itself, printing as it goes. */
  method PollStack(raw: seq<seq<StackEvent>>, statuses: seq<string>, goal: seq<string>)
    returns (r: Option<PollEnd>, printed: seq<string>)
    ensures r == Poll(raw, statuses, goal)
    ensures r.Some? ==> printed == EventLines(r.value.shown)
  {
    if raw == [] {
      return None, [];
    }
    var events := EventsSince(raw[0], None);
    var shown := events;
    var lastEvent, lines := PrintEvents(events, None);
    printed := lines;
    var i := 0;
    while i < |statuses| && statuses[i] in StackTempStatus && i + 1 < |raw|
      invariant PollFrom(raw, statuses, goal, i, lastEvent, shown) == Poll(raw, statuses, goal)
      invariant printed == EventLines(shown)
      decreases |statuses| - i
    {
      events := EventsSince(raw[i + 1], lastEvent);
      EventLinesAppend(shown, events);
      shown := shown + events;
      lastEvent, lines := PrintEvents(events, lastEvent);
      printed := printed + lines;
      i := i + 1;
    }
    if i >= |statuses| || statuses[i] in StackTempStatus || i + 1 >= |statuses| {
      return None, printed;
    }
    var status := statuses[i + 1];
    r := Some(PollEnd(i, status, if status in goal then 0 else 1, lastEvent, shown));
  }

  /**
   * The loop runs exactly while the status is in StackTempStatus, and the
   * exit code is 0 exactly when the final status is in `goal`.
   */
  lemma {:induction false} PollFromShape(raw: seq<seq<StackEvent>>, statuses: seq<string>, goal: seq<string>, i: nat,
                                         cursor: Option<string>, shown: seq<StackEvent>)
    requires PollFrom(raw, statuses, goal, i, cursor, shown).Some?
    ensures var p := PollFrom(raw, statuses, goal, i, cursor, shown).value;
      && i <= p.checks && p.checks + 1 < |statuses|
      && (forall j :: i <= j < p.checks ==> statuses[j] in StackTempStatus)
      && statuses[p.checks] !in StackTempStatus
      && p.status == statuses[p.checks + 1]
      && (p.exitCode == 0 <==> p.status in goal)
    decreases |statuses| - i
  {
    if statuses[i] in StackTempStatus {
      var batch := EventsSince(raw[i + 1], cursor);
      PollFromShape(raw, statuses, goal, i + 1, NextCursor(batch, cursor), shown + batch);
    }
  }

  lemma PollShape(raw: seq<seq<StackEvent>>, statuses: seq<string>, goal: seq<string>)
    requires Poll(raw, statuses, goal).Some?
    ensures var p := Poll(raw, statuses, goal).value;
      && p.checks + 1 < |statuses|
      && (forall j :: 0 <= j < p.checks ==> statuses[j] in StackTempStatus)
      && statuses[p.checks] !in StackTempStatus
      && p.status == statuses[p.checks + 1]
      && (p.exitCode == 0 <==> p.status in goal)
  {
    var first := EventsSince(raw[0], None);
    PollFromShape(raw, statuses, goal, 0, NextCursor(first, None), first);
  }

  /** No two events of a reply share an id. */
  predicate DistinctIds(events: seq<StackEvent>) {
    forall i, j :: 0 <= i < j < |events| ==> events[i].eventId != events[j].eventId
  }

  /** Each reply lists the previous one's events after the new ones, and ids are distinct. */
  predicate OnlyPrepends(raw: seq<seq<StackEvent>>) {
    && (forall k :: 0 <= k < |raw| ==> DistinctIds(raw[k]))
    && (forall k :: 0 <= k < |raw| - 1 ==>
          |raw[k]| <= |raw[k + 1]| && raw[k + 1][|raw[k + 1]| - |raw[k]|..] == raw[k])
  }

  lemma ReverseAppend<T>(a: seq<T>, b: seq<T>)
    ensures Reverse(a + b) == Reverse(b) + Reverse(a)
  {
    var l, r := Reverse(a + b), Reverse(b) + Reverse(a);
    assert |l| == |r|;
    forall i | 0 <= i < |l|
      ensures l[i] == r[i]
    {
      if i < |b| {
        assert l[i] == (a + b)[|a| + |b| - 1 - i];
      } else {
        assert l[i] == (a + b)[|a| + |b| - 1 - i];
      }
    }
  }

  /** The cursor names the newest event of the last reply, or is None while no event was listed. */
  predicate CursorOf(cursor: Option<string>, events: seq<StackEvent>) {
    cursor == if events == [] then None else Some(events[0].eventId)
  }

  /** One more reply: the events shown grow to the whole reply, oldest first, and the cursor follows. */
  lemma NextBatch(prev: seq<StackEvent>, next: seq<StackEvent>, cursor: Option<string>)
    requires CursorOf(cursor, prev) && DistinctIds(next)
    requires |prev| <= |next| && next[|next| - |prev|..] == prev
    ensures Reverse(prev) + EventsSince(next, cursor) == Reverse(next)
    ensures CursorOf(NextCursor(EventsSince(next, cursor), cursor), next)
  {
    var newer := next[..|next| - |prev|];
    assert next == newer + prev;
    if prev == [] {
      EventsSinceAll(next, cursor);
      assert Reverse(prev) == [];
      if next != [] {
        assert Reverse(next)[|next| - 1] == next[0];
      }
    } else {
      forall i | 0 <= i < |newer|
        ensures newer[i].eventId != prev[0].eventId
      {
        assert next[i] == newer[i] && next[|newer|] == prev[0];
      }
      EventsSinceTail(newer, prev);
      ReverseAppend(newer, prev);
      if newer != [] {
        assert Reverse(newer)[|newer| - 1] == newer[0] == next[0];
      } else {
        assert next[0] == prev[0];
      }
    }
  }

  lemma {:induction false} PollFromShowsAll(raw: seq<seq<StackEvent>>, statuses: seq<string>, goal: seq<string>, i: nat,
                                            cursor: Option<string>, shown: seq<StackEvent>)
    requires OnlyPrepends(raw) && i < |raw|
    requires shown == Reverse(raw[i]) && CursorOf(cursor, raw[i])
    requires PollFrom(raw, statuses, goal, i, cursor, shown).Some?
    ensures var p := PollFrom(raw, statuses, goal, i, cursor, shown).value;
      p.checks < |raw| && p.shown == Reverse(raw[p.checks])
    decreases |statuses| - i
  {
    if statuses[i] in StackTempStatus {
      var batch := EventsSince(raw[i + 1], cursor);
      NextBatch(raw[i], raw[i + 1], cursor);
      PollFromShowsAll(raw, statuses, goal, i + 1, NextCursor(batch, cursor), shown + batch);
    }
  }

  /**
   * When the provider only adds events ahead of the ones it listed before,
   * the loop shows every event of the last reply exactly once, oldest first.
   */
  lemma PollShowsEachEventOnce(raw: seq<seq<StackEvent>>, statuses: seq<string>, goal: seq<string>)
    requires OnlyPrepends(raw) && Poll(raw, statuses, goal).Some?
    ensures var p := Poll(raw, statuses, goal).value;
      p.checks < |raw| && p.shown == Reverse(raw[p.checks])
  {
    var first := EventsSince(raw[0], None);
    NextBatch([], raw[0], None);
    assert Reverse<StackEvent>([]) + first == first;
    PollFromShowsAll(raw, statuses, goal, 0, NextCursor(first, None), first);
  }

  // ------------------------------------------------------------ cft_deploy

  /**
   * `params` of the manifest after a branch that may resolve the parameters:
   * left as it was, or the list resolved from the document, and never
   * changed when the resolution fails.
   */
  predicate ParamsKeptOrResolved(before: Option<seq<Value>>, after: Option<seq<Value>>,
                                 res: Result<Dict<string, string>, Fault>)
  {
    after == before || (res.Ok? && after == Some(ParameterList(res.value)))
  }

  /** Where `cft_deploy` goes before the poll loop: exit 1, or watch the stack with this StackId. */
  datatype Route = Abort | WatchStack(stackId: Option<string>)

  /**
   * `update(manifest=..., override=...)`: the parameters are resolved and
   * the payload built outside the method's own `try`, so their exceptions
   * escape it; a False payload fails at the first `in`.
   */
  function UpdateWithManifest(doc: Dict<string, Value>, override: Option<Dict<string, string>>, body: Option<string>,
                              describe: string -> DescribeReply, listing: string -> Listing,
                              updateApi: Dict<string, Value> -> ApiReply)
    : Result<UpdateOutcome, Fault>
  {
    var d :- Resolve(doc, override, describe, listing);
    var payload :- CftPayload(doc, Some(ParameterList(d)), body);
    if payload.None? then Err(TypeError("argument of type 'bool' is not iterable"))
    else Ok(ClassifyUpdate(updateApi(StripCreateOnly(payload.value))))
  }

  /** The update branch with the manifest at hand. */
  method UpdateFromManifest(stack: CFStack, m: CFManifest, override: Option<Dict<string, string>>,
                            describe: string -> DescribeReply, listing: string -> Listing,
                            updateApi: Dict<string, Value> -> ApiReply)
    returns (r: Result<UpdateOutcome, Fault>)
    modifies m`params
    ensures r == UpdateWithManifest(m.document, override, BodyOf(m.template), describe, listing, updateApi)
    ensures var res := Resolve(m.document, override, describe, listing);
      m.params == if res.Ok? then Some(ParameterList(res.value)) else old(m.params)
  {
    var fetched := m.FetchParameters(override, describe, listing);
    if fetched.Err? {
      return Err(fetched.error);
    }
    var payload := m.BuildCftPayload();
    if payload.Err? {
      return Err(payload.error);
    }
    var arg := if payload.value.None? then NotBuilt else Built(payload.value.value);
    r := stack.Update(arg, updateApi);
  }

  /**
   * The `except CFStackDoesNotExistError` branch: create the stack and `get`
   * it; any exception there, or no stack, is exit 1.
   */
  function CreateRoute(doc: Dict<string, Value>, override: Option<Dict<string, string>>, body: Option<string>,
                       describe: string -> DescribeReply, listing: string -> Listing,
                       createApi: Dict<string, Value> -> ApiReply)
    : Route
  {
    match CreateStackOutcome(doc, override, body, describe, listing, createApi)
    case Ok(Some(name)) =>
      var (g, v) := Refresh(Unfetched, name, describe);
      if g.Err? then Abort else WatchStack(v.stackId)
    case _ => Abort
  }

  method CreateAndGet(m: CFManifest, override: Option<Dict<string, string>>, describe: string -> DescribeReply,
                      listing: string -> Listing, createApi: Dict<string, Value> -> ApiReply)
    returns (route: Route)
    modifies m`params
    ensures route == CreateRoute(m.document, override, BodyOf(m.template), describe, listing, createApi)
    ensures var res := Resolve(m.document, override, describe, listing);
      m.params == if res.Ok? then Some(ParameterList(res.value)) else old(m.params)
  {
    var created := m.CreateStack(override, describe, listing, createApi);
    if created.Err? || created.value.None? {
      return Abort;
    }
    var stack := created.value.value;
    var g := stack.Get(describe);
    if g.Err? {
      return Abort;
    }
    return WatchStack(stack.stackId);
  }

  /** CFStackDoesNotExistError turns to the create branch; every other exception escapes. */
  function OrCreate(e: Fault, create: Route): Result<Route, Fault> {
    if e.StackDoesNotExist? then Ok(create) else Err(e)
  }

  /**
   * The `try` of `cft_deploy`: `get` the stack (not found: create; no stack
   * in the reply: exit 1), check its status (not in StackGoodStatus without
   * `force`: exit 1), then update (None: exit 1). CFStackDoesNotExistError
   * raised anywhere in it, including while the update resolves a dependent
   * stack, leads to the create branch.
   */
  function DeployRoute(doc: Dict<string, Value>, stackName: Value, override: Option<Dict<string, string>>,
                       body: Option<string>, force: bool, describe: string -> DescribeReply, listing: string -> Listing,
                       updateApi: Dict<string, Value> -> ApiReply, createApi: Dict<string, Value> -> ApiReply)
    : Result<Route, Fault>
  {
    if !stackName.Str? then Err(ParamValidation("StackName"))
    else
      var create := CreateRoute(doc, override, body, describe, listing, createApi);
      var (g, v) := Refresh(Unfetched, stackName.s, describe);
      if g.Err? then OrCreate(g.error, create)
      else if g.value.None? then Ok(Abort)
      else
        var status := StatusAfter(v, stackName.s, describe);
        if status.Err? then OrCreate(status.error, create)
        else if status.value !in StackGoodStatus && !force then Ok(Abort)
        else
          var rc := UpdateWithManifest(doc, override, body, describe, listing, updateApi);
          if rc.Err? then OrCreate(rc.error, create)
          else if rc.value.UpdateFailed? then Ok(Abort)
          else Ok(WatchStack(Refresh(v, stackName.s, describe).1.stackId))
  }

  /** The exit code after the route: 1 for Abort, else that of the poll loop (None when the trace ends first). */
  function DeployExit(route: Result<Route, Fault>, raw: seq<seq<StackEvent>>, statuses: seq<string>)
    : Result<Option<int>, Fault>
  {
    match route
    case Err(e) => Err(e)
    case Ok(Abort) => Ok(Some(1))
    case Ok(WatchStack(None)) => Err(AttributeError("StackId"))
    case Ok(WatchStack(Some(_))) =>
      var p := Poll(raw, statuses, StackGoodStatus);
      Ok(if p.None? then None else Some(p.value.exitCode))
  }

  /**
   * `cft_deploy` for a loaded manifest: `interactive` and
   * `update_stack_policy` are refused; a template URL replaces
   * `S3Template`; `raw` and `statuses` are the provider's answers about the
   * stack being watched.
   */
  method CftDeploy(m: CFManifest, templateUrl: Option<string>, overrideArgs: seq<string>, force: bool,
                   interactive: bool, updateStackPolicy: bool,
                   describe: string -> DescribeReply, listing: string -> Listing,
                   updateApi: Dict<string, Value> -> ApiReply, createApi: Dict<string, Value> -> ApiReply,
                   raw: seq<seq<StackEvent>>, statuses: seq<string>)
    returns (r: Result<Option<int>, Fault>)
    modifies m`document, m`params
    ensures interactive || updateStackPolicy ==> r == Err(NotImplemented) && m.document == old(m.document)
    ensures !interactive && !updateStackPolicy ==>
      && m.document == (if templateUrl.Some? && templateUrl.value != "" then Put(old(m.document), "S3Template", Str(templateUrl.value))
                        else old(m.document))
      && var ov := OverrideParams(overrideArgs);
         r == (if ov.Err? then Err(ov.error)
               else DeployExit(DeployRoute(m.document, m.stackName, ov.value, BodyOf(m.template), force,
                                           describe, listing, updateApi, createApi), raw, statuses))
    ensures interactive || updateStackPolicy || OverrideParams(overrideArgs).Err? ==> m.params == old(m.params)
    ensures !interactive && !updateStackPolicy && OverrideParams(overrideArgs).Ok? ==>
      ParamsKeptOrResolved(old(m.params), m.params,
                           Resolve(m.document, OverrideParams(overrideArgs).value, describe, listing))
  {
    if interactive || updateStackPolicy {
      return Err(NotImplemented);
    }
    if templateUrl.Some? && templateUrl.value != "" {
      m.OverrideOption("S3Template", Str(templateUrl.value));
    }
    var ov := ProcessOverrideParams(overrideArgs);
    if ov.Err? {
      return Err(ov.error);
    }
    var route := ChooseRoute(m, ov.value, force, describe, listing, updateApi, createApi);
    if route.Err? {
      return Err(route.error);
    }
    if route.value.Abort? {
      return Ok(Some(1));
    }
    if route.value.stackId.None? {
      return Err(AttributeError("StackId"));
    }
    var p, printed := PollStack(raw, statuses, StackGoodStatus);
    return Ok(if p.None? then None else Some(p.value.exitCode));
  }

  /** The `try` of `cft_deploy`, on a CFStack for the manifest's stack. */
  method ChooseRoute(m: CFManifest, override: Option<Dict<string, string>>, force: bool,
                     describe: string -> DescribeReply, listing: string -> Listing,
                     updateApi: Dict<string, Value> -> ApiReply, createApi: Dict<string, Value> -> ApiReply)
    returns (r: Result<Route, Fault>)
    modifies m`params
    ensures r == DeployRoute(m.document, m.stackName, override, BodyOf(m.template), force,
                             describe, listing, updateApi, createApi)
    ensures ParamsKeptOrResolved(old(m.params), m.params, Resolve(m.document, override, describe, listing))
  {
    if !m.stackName.Str? {
      return Err(ParamValidation("StackName"));
    }
    var stack := new CFStack(m.stackName.s, m.region);
    var g := stack.Get(describe);
    if g.Err? {
      if !g.error.StackDoesNotExist? {
        return Err(g.error);
      }
      var route := CreateAndGet(m, override, describe, listing, createApi);
      return Ok(route);
    }
    if g.value.None? {
      return Ok(Abort);
    }
    var status := stack.GetStatus(describe);
    if status.Err? {
      if !status.error.StackDoesNotExist? {
        return Err(status.error);
      }
      var route := CreateAndGet(m, override, describe, listing, createApi);
      return Ok(route);
    }
    if status.value !in StackGoodStatus && !force {
      return Ok(Abort);
    }
    var rc := UpdateFromManifest(stack, m, override, describe, listing, updateApi);
    if rc.Err? {
      if !rc.error.StackDoesNotExist? {
        return Err(rc.error);
      }
      var route := CreateAndGet(m, override, describe, listing, createApi);
      return Ok(route);
    }
    if rc.value.UpdateFailed? {
      return Ok(Abort);
    }
    return Ok(WatchStack(stack.stackId));
  }

  /** A stack in a status outside StackGoodStatus is left alone unless `force` is given. */
  lemma DeployNeedsGoodStatusOrForce(doc: Dict<string, Value>, name: string, override: Option<Dict<string, string>>,
                                     body: Option<string>, describe: string -> DescribeReply, listing: string -> Listing,
                                     updateApi: Dict<string, Value> -> ApiReply, createApi: Dict<string, Value> -> ApiReply,
                                     rec: StackRecord, now: StackRecord)
    requires describe(name) == Described([rec]) && describe(rec.stackId) == Described([now])
    requires now.status !in StackGoodStatus
    ensures DeployRoute(doc, Str(name), override, body, false, describe, listing, updateApi, createApi) == Ok(Abort)
  {
    RefreshThenById(Unfetched, name, name, describe);
  }

  /** A stack the provider does not know is created instead. */
  lemma DeployMissingCreates(doc: Dict<string, Value>, name: string, override: Option<Dict<string, string>>,
                             body: Option<string>, force: bool, describe: string -> DescribeReply, listing: string -> Listing,
                             updateApi: Dict<string, Value> -> ApiReply, createApi: Dict<string, Value> -> ApiReply,
                             message: string)
    requires describe(name) == DescribeFailed("ValidationError", message)
    ensures DeployRoute(doc, Str(name), override, body, force, describe, listing, updateApi, createApi) ==
      Ok(CreateRoute(doc, override, body, describe, listing, createApi))
  {
  }

  /** An empty reply to the first `get` exits with 1: nothing is created or updated. */
  lemma DeployEmptyReplyAborts(doc: Dict<string, Value>, name: string, override: Option<Dict<string, string>>,
                               body: Option<string>, force: bool, describe: string -> DescribeReply, listing: string -> Listing,
                               updateApi: Dict<string, Value> -> ApiReply, createApi: Dict<string, Value> -> ApiReply)
    requires describe(name) == Described([])
    ensures DeployRoute(doc, Str(name), override, body, force, describe, listing, updateApi, createApi) == Ok(Abort)
  {
  }

  /** An update that fails, and a create that fails, both end in exit 1 without watching anything. */
  lemma DeployFailuresAbort(doc: Dict<string, Value>, name: string, override: Option<Dict<string, string>>,
                            body: Option<string>, describe: string -> DescribeReply, listing: string -> Listing,
                            updateApi: Dict<string, Value> -> ApiReply, createApi: Dict<string, Value> -> ApiReply,
                            rec: StackRecord, now: StackRecord)
    requires describe(name) == Described([rec]) && describe(rec.stackId) == Described([now])
    requires now.status in StackGoodStatus
    requires UpdateWithManifest(doc, override, body, describe, listing, updateApi) == Ok(UpdateFailed)
    ensures DeployRoute(doc, Str(name), override, body, false, describe, listing, updateApi, createApi) == Ok(Abort)
    ensures CreateStackOutcome(doc, override, body, describe, listing, createApi) == Ok(None) ==>
      CreateRoute(doc, override, body, describe, listing, createApi) == Abort
  {
    RefreshThenById(Unfetched, name, name, describe);
  }

  /** Exit code 0 only after watching a stack that ended in StackGoodStatus. */
  lemma DeployExitZero(route: Result<Route, Fault>, raw: seq<seq<StackEvent>>, statuses: seq<string>)
    requires DeployExit(route, raw, statuses) == Ok(Some(0))
    ensures route.Ok? && route.value.WatchStack? && route.value.stackId.Some?
    ensures Poll(raw, statuses, StackGoodStatus).Some? && Poll(raw, statuses, StackGoodStatus).value.status in StackGoodStatus
  {
    PollShape(raw, statuses, StackGoodStatus);
  }

  // ------------------------------------------------------------ cft_delete

  /** Where `cft_delete` goes: exit 1 for a stack not found, exit 0 without status, or watch the delete. */
  datatype DeleteRoute = NotFound | Sent | WatchDelete(stackId: string)

  /**
   * `get` the stack (CFStackDoesNotExistError: exit 1), then `delete` it by
   * its StackId, which is never set when the reply held no stack.
   * `failure` is the ClientError `delete_stack` raised, if any.
   */
  function DeletePlan(stackName: string, noStatus: bool, describe: string -> DescribeReply, failure: Option<Fault>)
    : Result<DeleteRoute, Fault>
  {
    var (g, v) := Refresh(Unfetched, stackName, describe);
    if g.Err? then (if g.error.StackDoesNotExist? then Ok(NotFound) else Err(g.error))
    else if v.stackId.None? then Err(AttributeError("StackId"))
    else if failure.Some? then Err(failure.value)
    else if noStatus then Ok(Sent)
    else Ok(WatchDelete(v.stackId.value))
  }

  /** The exit code: the poll loop succeeds only on DELETE_COMPLETE. */
  function DeleteExit(plan: Result<DeleteRoute, Fault>, raw: seq<seq<StackEvent>>, statuses: seq<string>)
    : Result<Option<int>, Fault>
  {
    match plan
    case Err(e) => Err(e)
    case Ok(NotFound) => Ok(Some(1))
    case Ok(Sent) => Ok(Some(0))
    case Ok(WatchDelete(_)) =>
      var p := Poll(raw, statuses, ["DELETE_COMPLETE"]);
      Ok(if p.None? then None else Some(p.value.exitCode))
  }

  /** `cft_delete`. */
  method CftDelete(stackName: string, region: string, noStatus: bool, describe: string -> DescribeReply,
                   failure: Option<Fault>, raw: seq<seq<StackEvent>>, statuses: seq<string>)
    returns (r: Result<Option<int>, Fault>)
    ensures r == DeleteExit(DeletePlan(stackName, noStatus, describe, failure), raw, statuses)
  {
    var stack := new CFStack(stackName, region);
    var g := stack.Get(describe);
    if g.Err? {
      if g.error.StackDoesNotExist? {
        return Ok(Some(1));
      }
      return Err(g.error);
    }
    var deleted := stack.Delete(failure);
    if deleted.Err? {
      return Err(deleted.error);
    }
    if noStatus {
      return Ok(Some(0));
    }
    var p, printed := PollStack(raw, statuses, ["DELETE_COMPLETE"]);
    return Ok(if p.None? then None else Some(p.value.exitCode));
  }

  /** Exit code 0 means the delete was sent and, unless not watched, the stack reached DELETE_COMPLETE. */
  lemma DeleteExitZero(stackName: string, noStatus: bool, describe: string -> DescribeReply, failure: Option<Fault>,
                       raw: seq<seq<StackEvent>>, statuses: seq<string>)
    requires DeleteExit(DeletePlan(stackName, noStatus, describe, failure), raw, statuses) == Ok(Some(0))
    ensures failure.None? && Refresh(Unfetched, stackName, describe).0.Ok?
    ensures Refresh(Unfetched, stackName, describe).1.stackId.Some?
    ensures !noStatus ==>
      (Poll(raw, statuses, ["DELETE_COMPLETE"]).Some? &&
       Poll(raw, statuses, ["DELETE_COMPLETE"]).value.status == "DELETE_COMPLETE")
  {
    if !noStatus {
      PollShape(raw, statuses, ["DELETE_COMPLETE"]);
    }
  }
}
