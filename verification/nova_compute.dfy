/** The decision logic of the nova compute resource
    (cloudferrylib/os/compute/nova_compute.py): target validation, the
    power-state transition table of `change_status`, the retry loop of
    `wait_for_status`, the quota filter, the instance create parameters and
    the shape of the network and server listings.

    The nova client is not modelled: what it reports is a parameter (a
    status getter, the ids it hands out) and what is asked of it is returned
    as a list of calls. */
module NovaCompute {
  import opened Common
  import opened ComputeInfo

  /** A quota item with this value is the default and is not deployed. */
  const DEFAULT_QUOTA_VALUE: int := -1
  /** What `wait_for_status` uses for a non-positive retry limit or interval. */
  const DEFAULT_RETRIES: nat := 60
  const DEFAULT_INTERVAL: nat := 3

  // ----- read_info / deploy target -----------------------------------------

  datatype Target = ResourcesTarget | InstancesTarget

  const TARGET_MESSAGE: string := "Only \"resources\" or \"instances\" values allowed"

  /** The check `read_info` and `deploy` make of their target argument. */
  function ParseTarget(target: string): (r: Result<Target>)
    ensures r.Ok? <==> target == "resources" || target == "instances"
    ensures r == Ok(ResourcesTarget) <==> target == "resources"
    ensures r == Ok(InstancesTarget) <==> target == "instances"
    ensures r.Err? ==> r.error == ValueError(TARGET_MESSAGE)
  {
    if target == "resources" then Ok(ResourcesTarget)
    else if target != "instances" then Err(ValueError(TARGET_MESSAGE))
    else Ok(InstancesTarget)
  }

  // ----- change_status -----------------------------------------------------

  datatype PowerAction = Start | Stop | Resume | Pause | Unpause | Suspend

  /** The power states the transition table knows. */
  datatype PowerState = Active | Paused | Suspended | Shutoff

  /** The status string nova reports, lower-cased, for each power state. */
  function StateName(p: PowerState): string {
    match p
    case Active => "active"
    case Paused => "paused"
    case Suspended => "suspend"
    case Shutoff => "shutoff"
  }

  /** The keys of `map_status`: the power state a lower-cased status names. */
  function ParseState(s: string): (r: Option<PowerState>)
    ensures r.Some? ==> StateName(r.value) == s
    ensures r.None? ==> s !in {"active", "paused", "suspend", "shutoff"}
  {
    if s == "active" then Some(Active)
    else if s == "paused" then Some(Paused)
    else if s == "suspend" then Some(Suspended)
    else if s == "shutoff" then Some(Shutoff)
    else None
  }

  /** Every power state is found again under its own name. */
  lemma ParseStateName(p: PowerState)
    ensures ParseState(StateName(p)) == Some(p)
  {
  }

  /** The names are already lower case. */
  lemma StateNameLower(p: PowerState)
    ensures Lower(StateName(p)) == StateName(p)
  {
    LowerOfLowerCase(StateName(p));
  }

  /** One step of a transition plan: a call on the server, or a wait until the
      server reports a status. */
  datatype PlanStep = Do(action: PowerAction) | WaitFor(state: PowerState)

  /** `map_status[curr][will]`: the plan from a current to a different wanted
      power state. */
  function StatusPlan(curr: PowerState, will: PowerState): seq<PlanStep>
    requires curr != will
  {
    match (curr, will)
    case (Paused, Active) => [Do(Unpause), WaitFor(Active)]
    case (Paused, Shutoff) => [Do(Stop), WaitFor(Shutoff)]
    case (Paused, Suspended) => [Do(Unpause), WaitFor(Active), Do(Suspend), WaitFor(Suspended)]
    case (Suspended, Active) => [Do(Resume), WaitFor(Active)]
    case (Suspended, Shutoff) => [Do(Stop), WaitFor(Shutoff)]
    case (Suspended, Paused) => [Do(Resume), WaitFor(Active), Do(Pause), WaitFor(Paused)]
    case (Active, Paused) => [Do(Pause), WaitFor(Paused)]
    case (Active, Suspended) => [Do(Suspend), WaitFor(Suspended)]
    case (Active, Shutoff) => [Do(Stop), WaitFor(Shutoff)]
    case (Shutoff, Active) => [Do(Start), WaitFor(Active)]
    case (Shutoff, Paused) => [Do(Start), WaitFor(Active), Do(Pause), WaitFor(Paused)]
    case (Shutoff, Suspended) => [Do(Start), WaitFor(Active), Do(Suspend), WaitFor(Suspended)]
  }

  /** Every plan acts first, alternates action and wait, and ends waiting for
      the wanted state; a plan of two actions goes through active and is used
      exactly between paused and suspended and out of shutoff to anything
      but active. */
  lemma PlansEndWaitingForTarget(curr: PowerState, will: PowerState)
    requires curr != will
    ensures var plan := StatusPlan(curr, will);
            && (|plan| == 2 || |plan| == 4)
            && plan[0].Do? && plan[1].WaitFor?
            && plan[|plan| - 1] == WaitFor(will)
            && (|plan| == 4 ==> plan[1] == WaitFor(Active) && plan[2].Do?)
            && (|plan| == 4 <==> (curr == Paused && will == Suspended) || (curr == Suspended && will == Paused) ||
                                 (curr == Shutoff && will != Active))
  {
  }

  /** The first call of every direct transition. */
  lemma DirectTransitions()
    ensures StatusPlan(Shutoff, Active)[0] == Do(Start)
    ensures StatusPlan(Active, Shutoff)[0] == Do(Stop)
    ensures StatusPlan(Suspended, Active)[0] == Do(Resume)
    ensures StatusPlan(Active, Paused)[0] == Do(Pause)
    ensures StatusPlan(Paused, Active)[0] == Do(Unpause)
    ensures StatusPlan(Active, Suspended)[0] == Do(Suspend)
  {
  }

  /** A call the plan makes: an action on a server, or a wait that polls the
      server with the given id (None when the code passes None) for a status. */
  datatype Call = Perform(action: PowerAction, server: string) | Await(polled: Option<string>, status: string)

  function CallOf(step: PlanStep, server: string, polled: Option<string>): Call {
    match step
    case Do(a) => Perform(a, server)
    case WaitFor(s) => Await(polled, StateName(s))
  }

  /** The calls a plan made and the TimeoutException that stopped it, if any. */
  datatype PlanRun = PlanRun(calls: seq<Call>, timeout: Option<Error>)

  /** Whether the wait of a plan step times out; `polls(id, s)` is what the
      successive gets report while waiting on `id` for `s`. */
  predicate WaitTimesOut(step: PlanStep, polled: Option<string>,
                         polls: (Option<string>, string) -> (nat -> string), retries: int)
  {
    step.WaitFor? && NovaWaitOutcome(polls(polled, StateName(step.state)), StateName(step.state), retries).Some?
  }

  /** `reduce(lambda res, f: f(instance), plan, None)` with the timeout caught:
      the steps run in order until a wait times out. */
  function RunPlan(plan: seq<PlanStep>, server: string, polled: Option<string>,
                   polls: (Option<string>, string) -> (nat -> string), retries: int): (r: PlanRun)
    ensures |r.calls| <= |plan|
    ensures forall i :: 0 <= i < |r.calls| ==> r.calls[i] == CallOf(plan[i], server, polled)
    ensures r.timeout.Some? ==> r.timeout.value.TimeoutException?
  {
    if plan == [] then PlanRun([], None)
    else
      match plan[0]
      case Do(a) =>
        var rest := RunPlan(plan[1..], server, polled, polls, retries);
        PlanRun([Perform(a, server)] + rest.calls, rest.timeout)
      case WaitFor(s) =>
        var e := NovaWaitOutcome(polls(polled, StateName(s)), StateName(s), retries);
        if e.Some? then PlanRun([Await(polled, StateName(s))], e)
        else
          var rest := RunPlan(plan[1..], server, polled, polls, retries);
          PlanRun([Await(polled, StateName(s))] + rest.calls, rest.timeout)
  }

  /** A plan that ends without a timeout made one call per step, and none of
      its waits timed out. */
  lemma {:induction false} RunPlanCompletes(plan: seq<PlanStep>, server: string, polled: Option<string>,
                                            polls: (Option<string>, string) -> (nat -> string), retries: int)
    ensures var r := RunPlan(plan, server, polled, polls, retries);
            r.timeout.None? ==>
              && |r.calls| == |plan|
              && forall i :: 0 <= i < |plan| ==> !WaitTimesOut(plan[i], polled, polls, retries)
  {
    if plan != [] && !WaitTimesOut(plan[0], polled, polls, retries) {
      RunPlanCompletes(plan[1..], server, polled, polls, retries);
      assert forall i :: 1 <= i < |plan| ==> plan[i] == plan[1..][i - 1];
    }
  }

  /** A plan that ends with a timeout stopped at a wait that timed out, and
      returns that wait's exception. */
  lemma {:induction false} RunPlanTimesOut(plan: seq<PlanStep>, server: string, polled: Option<string>,
                                           polls: (Option<string>, string) -> (nat -> string), retries: int)
    ensures var r := RunPlan(plan, server, polled, polls, retries);
            r.timeout.Some? ==>
              && |r.calls| > 0
              && var last := plan[|r.calls| - 1];
              && WaitTimesOut(last, polled, polls, retries)
              && r.timeout == NovaWaitOutcome(polls(polled, StateName(last.state)), StateName(last.state), retries)
  {
    if plan != [] && !WaitTimesOut(plan[0], polled, polls, retries) {
      RunPlanTimesOut(plan[1..], server, polled, polls, retries);
      var rest := RunPlan(plan[1..], server, polled, polls, retries);
      assert |RunPlan(plan, server, polled, polls, retries).calls| == 1 + |rest.calls|;
      if rest.timeout.Some? {
        assert plan[1 + |rest.calls| - 1] == plan[1..][|rest.calls| - 1];
      }
    }
  }

  /** Every wait before the last call of a plan completed. */
  lemma {:induction false} RunPlanEarlierWaitsComplete(plan: seq<PlanStep>, server: string, polled: Option<string>,
                                                       polls: (Option<string>, string) -> (nat -> string), retries: int)
    ensures var r := RunPlan(plan, server, polled, polls, retries);
            forall i :: 0 <= i < |r.calls| - 1 ==> !WaitTimesOut(plan[i], polled, polls, retries)
  {
    if plan != [] && !WaitTimesOut(plan[0], polled, polls, retries) {
      RunPlanEarlierWaitsComplete(plan[1..], server, polled, polls, retries);
      assert forall i :: 1 <= i < |plan| ==> plan[i] == plan[1..][i - 1];
    }
  }

  /** A plan stops right after the first wait that times out, returning that
      wait's exception, and runs to its end when none does. */
  lemma RunPlanStopsAtTimeout(plan: seq<PlanStep>, server: string, polled: Option<string>,
                              polls: (Option<string>, string) -> (nat -> string), retries: int)
    ensures var r := RunPlan(plan, server, polled, polls, retries);
            && (forall i :: 0 <= i < |r.calls| - 1 ==> !WaitTimesOut(plan[i], polled, polls, retries))
            && (r.timeout.None? <==> forall i :: 0 <= i < |plan| ==> !WaitTimesOut(plan[i], polled, polls, retries))
            && (r.timeout.None? ==> |r.calls| == |plan|)
            && (r.timeout.Some? ==>
                  && |r.calls| > 0
                  && var last := plan[|r.calls| - 1];
                  && WaitTimesOut(last, polled, polls, retries)
                  && r.timeout == NovaWaitOutcome(polls(polled, StateName(last.state)), StateName(last.state), retries))
  {
    RunPlanCompletes(plan, server, polled, polls, retries);
    RunPlanTimesOut(plan, server, polled, polls, retries);
    RunPlanEarlierWaitsComplete(plan, server, polled, polls, retries);
  }

  /** What `change_status` returns: True when nothing was to be done, None
      after a completed plan, or the TimeoutException that stopped it. */
  datatype StatusChange =
    | AlreadyThere
    | Changed(calls: seq<Call>)
    | TimedOut(calls: seq<Call>, exception: Error)

  /** The server `change_status` works on: the one fetched by a truthy
      `instance_id`, else the `instance` passed in (whose `.id` fails on None). */
  function TargetServer(instance: Option<string>, instanceId: Option<string>): (r: Result<string>)
    ensures Present(instanceId) ==> r == Ok(instanceId.value)
    ensures !Present(instanceId) ==> (r.Ok? <==> instance.Some?)
    ensures !Present(instanceId) && instance.Some? ==> r == Ok(instance.value)
  {
    if Present(instanceId) then Ok(instanceId.value)
    else if instance.Some? then Ok(instance.value)
    else Err(AttributeError("id"))
  }

  /** `change_status` on `server`, whose status is `statusOf(server)` at the
      first get, with the waits polling `polled`. */
  function ChangeStatusOf(status: string, server: string, polled: Option<string>, statusOf: string -> string,
                          polls: (Option<string>, string) -> (nat -> string), retries: int): (r: Result<StatusChange>)
    ensures EqualsIgnoreCase(statusOf(server), status) <==> r == Ok(AlreadyThere)
    ensures r.Err? <==>
              (!EqualsIgnoreCase(statusOf(server), status) &&
               (ParseState(Lower(statusOf(server))).None? || ParseState(Lower(status)).None?))
    ensures r.Err? ==> r.error.KeyError?
  {
    var curr := Lower(statusOf(server));
    var will := Lower(status);
    EqualsIgnoreCaseIsLowerEqual(statusOf(server), status);
    if curr == will then Ok(AlreadyThere)
    else if ParseState(curr).None? then Err(KeyError(curr))
    else if ParseState(will).None? then Err(KeyError(will))
    else
      var run := RunPlan(StatusPlan(ParseState(curr).value, ParseState(will).value), server, polled, polls, retries);
      Ok(if run.timeout.None? then Changed(run.calls) else TimedOut(run.calls, run.timeout.value))
  }

  /** `change_status` as written: the waits poll the `instance_id` argument,
      which is None when the caller passed only `instance`. */
  function ChangeStatusAsWritten(status: string, instance: Option<string>, instanceId: Option<string>,
                                 statusOf: string -> string,
                                 polls: (Option<string>, string) -> (nat -> string), retries: int): (r: Result<StatusChange>)
    ensures TargetServer(instance, instanceId).Err? ==> r == Err(AttributeError("id"))
    ensures TargetServer(instance, instanceId).Ok? ==>
              r == ChangeStatusOf(status, TargetServer(instance, instanceId).value, instanceId, statusOf, polls, retries)
  {
    var server :- TargetServer(instance, instanceId);
    ChangeStatusOf(status, server, instanceId, statusOf, polls, retries)
  }

  /** `change_status` with the waits polling the server the plan acts on. */
  function ChangeStatus(status: string, instance: Option<string>, instanceId: Option<string>,
                        statusOf: string -> string,
                        polls: (Option<string>, string) -> (nat -> string), retries: int): (r: Result<StatusChange>)
    ensures TargetServer(instance, instanceId).Err? ==> r == Err(AttributeError("id"))
    ensures TargetServer(instance, instanceId).Ok? ==>
              var server := TargetServer(instance, instanceId).value;
              r == ChangeStatusOf(status, server, Some(server), statusOf, polls, retries)
  {
    var server :- TargetServer(instance, instanceId);
    ChangeStatusOf(status, server, Some(server), statusOf, polls, retries)
  }

  /** Every call `ChangeStatus` makes concerns the one server: actions on it,
      waits polling it. */
  lemma ChangeStatusTouchesOneServer(status: string, instance: Option<string>, instanceId: Option<string>,
                                     statusOf: string -> string,
                                     polls: (Option<string>, string) -> (nat -> string), retries: int)
    requires ChangeStatus(status, instance, instanceId, statusOf, polls, retries).Ok?
    requires !ChangeStatus(status, instance, instanceId, statusOf, polls, retries).value.AlreadyThere?
    ensures var server := TargetServer(instance, instanceId).value;
            forall c :: c in ChangeStatus(status, instance, instanceId, statusOf, polls, retries).value.calls ==>
              (c.Perform? && c.server == server) || (c.Await? && c.polled == Some(server))
  {
  }

  /** Between distinct known power states the plan runs until a wait times
      out: a completed change made the plan's first call and ended waiting
      for the wanted status, and a stopped one returns a TimeoutException. */
  lemma ChangeStatusRunsPlan(status: string, server: string, statusOf: string -> string,
                             polls: (Option<string>, string) -> (nat -> string), retries: int)
    requires ParseState(Lower(statusOf(server))).Some? && ParseState(Lower(status)).Some?
    requires Lower(statusOf(server)) != Lower(status)
    ensures var r := ChangeStatusOf(status, server, Some(server), statusOf, polls, retries);
            var plan := StatusPlan(ParseState(Lower(statusOf(server))).value, ParseState(Lower(status)).value);
            && r.Ok? && r != Ok(AlreadyThere)
            && (r.value.Changed? ==>
                  && r.value.calls[0] == Perform(plan[0].action, server)
                  && r.value.calls[|r.value.calls| - 1] == Await(Some(server), Lower(status)))
            && (r.value.TimedOut? ==> r.value.exception.TimeoutException?)
  {
    var curr := ParseState(Lower(statusOf(server))).value;
    var will := ParseState(Lower(status)).value;
    PlansEndWaitingForTarget(curr, will);
    RunPlanStopsAtTimeout(StatusPlan(curr, will), server, Some(server), polls, retries);
  }

  /** Between distinct known power states `change_status` runs the plan the
      table gives for them. */
  lemma ChangeStatusFollowsPlan(status: string, server: string, polled: Option<string>, statusOf: string -> string,
                                polls: (Option<string>, string) -> (nat -> string), retries: int)
    requires ParseState(Lower(statusOf(server))).Some? && ParseState(Lower(status)).Some?
    requires Lower(statusOf(server)) != Lower(status)
    ensures var run := RunPlan(StatusPlan(ParseState(Lower(statusOf(server))).value, ParseState(Lower(status)).value),
                               server, polled, polls, retries);
            ChangeStatusOf(status, server, polled, statusOf, polls, retries)
              == Ok(if run.timeout.None? then Changed(run.calls) else TimedOut(run.calls, run.timeout.value))
  {
  }

  /** A current status outside the table raises KeyError with it. */
  lemma UnknownStatusRaises(status: string, server: string, polled: Option<string>, statusOf: string -> string,
                            polls: (Option<string>, string) -> (nat -> string), retries: int)
    requires ParseState(Lower(statusOf(server))).None?
    requires Lower(status) != Lower(statusOf(server))
    ensures ChangeStatusOf(status, server, polled, statusOf, polls, retries) == Err(KeyError(Lower(statusOf(server))))
  {
  }

  /** A server that reports "shutoff", and polls that always report "active". */
  function ReportsShutoff(id: string): string { StateName(Shutoff) }
  function ReportsActive(i: nat): string { StateName(Active) }
  function PollsActive(id: Option<string>, s: string): nat -> string { ReportsActive }

  /** Started from shutoff towards active with polls that report active, the
      plan starts the server and waits once, polling whatever id it is given. */
  lemma StartPlanCompletes(polled: Option<string>)
    ensures RunPlan(StatusPlan(Shutoff, Active), "vm-1", polled, PollsActive, 1)
              == PlanRun([Perform(Start, "vm-1"), Await(polled, StateName(Active))], None)
  {
    var plan := StatusPlan(Shutoff, Active);
    assert plan[1..] == [WaitFor(Active)];
    WaitActiveCompletes(polled);
  }

  /** A wait for active whose polls report "active" completes. */
  lemma WaitActiveCompletes(polled: Option<string>)
    ensures RunPlan([WaitFor(Active)], "vm-1", polled, PollsActive, 1)
              == PlanRun([Await(polled, StateName(Active))], None)
  {
    ActivePollsMatch();
    assert [WaitFor(Active)][1..] == [];
  }

  /** Polls that report "active" satisfy a wait for active at once. */
  lemma ActivePollsMatch()
    ensures NovaWaitOutcome(ReportsActive, StateName(Active), 1) == None
  {
    EqualsIgnoreCaseReflexive(StateName(Active));
    assert FirstMatch(ReportsActive, StateName(Active), 1) == 0;
  }

  /** Called with `instance` only, the waits as written poll None instead of
      the server that was started. */
  lemma ChangeStatusPollsNone()
    ensures ChangeStatusAsWritten("active", Some("vm-1"), None, ReportsShutoff, PollsActive, 1)
              == Ok(Changed([Perform(Start, "vm-1"), Await(None, "active")]))
    ensures ChangeStatus("active", Some("vm-1"), None, ReportsShutoff, PollsActive, 1)
              == Ok(Changed([Perform(Start, "vm-1"), Await(Some("vm-1"), "active")]))
  {
    assert TargetServer(Some("vm-1"), None) == Ok("vm-1");
    assert StateName(Active) == "active";
    StartFromShutoff(None);
    StartFromShutoff(Some("vm-1"));
  }

  /** Starting a shut-off server whose polls report "active". */
  lemma StartFromShutoff(polled: Option<string>)
    ensures ChangeStatusOf(StateName(Active), "vm-1", polled, ReportsShutoff, PollsActive, 1)
              == Ok(Changed([Perform(Start, "vm-1"), Await(polled, StateName(Active))]))
  {
    StateNameLower(Shutoff);
    StateNameLower(Active);
    ParseStateName(Shutoff);
    ParseStateName(Active);
    ChangeStatusFollowsPlan(StateName(Active), "vm-1", polled, ReportsShutoff, PollsActive, 1);
    StartPlanCompletes(polled);
  }

  // ----- wait_for_status ---------------------------------------------------

  function EffectiveRetries(limit: int): (n: nat)
    ensures limit > 0 ==> n == limit
    ensures limit <= 0 ==> n == DEFAULT_RETRIES
  {
    if limit <= 0 then DEFAULT_RETRIES else limit
  }

  function EffectiveInterval(interval: int): (n: nat)
    ensures interval > 0 ==> n == interval
    ensures interval <= 0 ==> n == DEFAULT_INTERVAL
  {
    if interval <= 0 then DEFAULT_INTERVAL else interval
  }

  /** How `wait_for_status` ends with retry limit `limit`: the status is
      checked on gets 0 to L (L the effective limit), and without a match the
      TimeoutException carries the lower-cased status of get L+1 and the
      wanted status as given. */
  function NovaWaitOutcome(getStatus: nat -> string, status: string, limit: int): (r: Option<Error>)
    ensures r.Some? ==> r.value.TimeoutException? && r.value.wanted == status
  {
    var L := EffectiveRetries(limit);
    var k := FirstMatch(getStatus, status, L + 1);
    if k <= L then None else Some(TimeoutException(Lower(getStatus(L + 1)), status))
  }

  /** The wait succeeds exactly when one of the gets 0 to L reports the
      wanted status, ignoring case. */
  lemma NovaWaitSucceedsIffMatched(getStatus: nat -> string, status: string, limit: int)
    ensures NovaWaitOutcome(getStatus, status, limit).None? <==>
              exists i :: 0 <= i <= EffectiveRetries(limit) && EqualsIgnoreCase(getStatus(i), status)
  {
    var L := EffectiveRetries(limit);
    var k := FirstMatch(getStatus, status, L + 1);
    if k <= L {
      assert EqualsIgnoreCase(getStatus(k), status);
    } else {
      forall i | 0 <= i <= L
        ensures !EqualsIgnoreCase(getStatus(i), status)
      {
        FirstMatchIsFirst(getStatus, status, L + 1, i);
      }
    }
  }

  /** A mismatch after `n` mismatches makes `n + 1` of them. */
  lemma NoMatchYet(getStatus: nat -> string, status: string, n: nat)
    requires FirstMatch(getStatus, status, n) == n && !EqualsIgnoreCase(getStatus(n), status)
    ensures FirstMatch(getStatus, status, n + 1) == n + 1
  {
  }

  /** When gets 0 to L all mismatch, the wait raises with get L+1. */
  lemma NovaWaitTimesOut(getStatus: nat -> string, status: string, limit: int)
    requires FirstMatch(getStatus, status, EffectiveRetries(limit) + 1) == EffectiveRetries(limit) + 1
    ensures NovaWaitOutcome(getStatus, status, limit)
              == Some(TimeoutException(Lower(getStatus(EffectiveRetries(limit) + 1)), status))
  {
  }

  /** When get k, within the limit, is the first match, the wait returns. */
  lemma NovaWaitMatches(getStatus: nat -> string, status: string, limit: int, k: nat)
    requires k <= EffectiveRetries(limit)
    requires FirstMatch(getStatus, status, k) == k && EqualsIgnoreCase(getStatus(k), status)
    ensures FirstMatch(getStatus, status, EffectiveRetries(limit) + 1) == k
    ensures NovaWaitOutcome(getStatus, status, limit) == None
  {
    assert FirstMatch(getStatus, status, k + 1) == k;
    FirstMatchStable(getStatus, status, k + 1, EffectiveRetries(limit) + 1);
  }

  function Repeat(x: nat, n: nat): (r: seq<nat>)
    ensures |r| == n && forall i :: 0 <= i < n ==> r[i] == x
  {
    if n == 0 then [] else Repeat(x, n - 1) + [x]
  }

  // ----- quotas ------------------------------------------------------------

  /** One item of `quotas`; `userId` is None when the item has no `user_id`. */
  datatype QuotaRecord = QuotaRecord(tenantId: string, userId: Option<string>, quota: seq<(string, int)>)

  /** The arguments of one `update_quota` call. */
  datatype QuotaUpdate = QuotaUpdate(tenantId: string, userId: Option<string>, items: seq<(string, int)>)

  /** The quota items whose value is not the default, in order. */
  function NonDefaultItems(items: seq<(string, int)>): (r: seq<(string, int)>)
    ensures forall x :: x in r <==> x in items && x.1 != DEFAULT_QUOTA_VALUE
    ensures |r| <= |items|
  {
    if items == [] then []
    else (if items[0].1 != DEFAULT_QUOTA_VALUE then [items[0]] else []) + NonDefaultItems(items[1..])
  }

  /** The `update_quota` call for one quota: the tenant mapped through
      `tenantMap`, the user mapped through `userMap` only when that map is
      given and non-empty. */
  function QuotaUpdateFor(q: QuotaRecord, tenantMap: map<string, string>, userMap: Option<map<string, string>>)
    : (r: Result<QuotaUpdate>)
    ensures q.tenantId !in tenantMap ==> r == Err(KeyError(q.tenantId))
    ensures r.Ok? ==> r.value.tenantId == tenantMap[q.tenantId] && r.value.items == NonDefaultItems(q.quota)
    ensures r.Ok? && (userMap.None? || userMap.value == map[]) ==> r.value.userId == None
    ensures userMap.Some? && userMap.value != map[] && q.tenantId in tenantMap ==>
              if q.userId.Some? && q.userId.value in userMap.value
              then r.Ok? && r.value.userId == Some(userMap.value[q.userId.value])
              else r.Err? && r.error.KeyError?
    ensures (userMap.None? || userMap.value == map[]) ==> (r.Ok? <==> q.tenantId in tenantMap)
  {
    if q.tenantId !in tenantMap then Err(KeyError(q.tenantId))
    else if userMap.Some? && userMap.value != map[] then
      if q.userId.None? then Err(KeyError("user_id"))
      else if q.userId.value !in userMap.value then Err(KeyError(q.userId.value))
      else Ok(QuotaUpdate(tenantMap[q.tenantId], Some(userMap.value[q.userId.value]), NonDefaultItems(q.quota)))
    else Ok(QuotaUpdate(tenantMap[q.tenantId], None, NonDefaultItems(q.quota)))
  }

  /** `_deploy_quotas_api`: the `update_quota` calls made, one per quota in
      order, up to the first lookup that raises. */
  function DeployQuotas(quotas: seq<QuotaRecord>, tenantMap: map<string, string>,
                        userMap: Option<map<string, string>>): (r: Partial<QuotaUpdate>)
    ensures r.error.None? <==> forall i :: 0 <= i < |quotas| ==> QuotaUpdateFor(quotas[i], tenantMap, userMap).Ok?
    ensures |r.values| <= |quotas|
    ensures forall i :: 0 <= i < |r.values| ==> QuotaUpdateFor(quotas[i], tenantMap, userMap) == Ok(r.values[i])
    ensures r.error.None? ==> |r.values| == |quotas|
    ensures r.error.Some? ==>
              && |r.values| < |quotas|
              && QuotaUpdateFor(quotas[|r.values|], tenantMap, userMap) == Err(r.error.value)
  {
    MapUntilErrorFails(quotas, q => QuotaUpdateFor(q, tenantMap, userMap));
    MapUntilError(quotas, q => QuotaUpdateFor(q, tenantMap, userMap))
  }

  /** No deployed quota item carries the default value, and every call goes
      to a mapped tenant. */
  lemma DeployedQuotasSkipDefaults(quotas: seq<QuotaRecord>, tenantMap: map<string, string>,
                                   userMap: Option<map<string, string>>)
    ensures var r := DeployQuotas(quotas, tenantMap, userMap);
            forall i :: 0 <= i < |r.values| ==>
              && r.values[i].tenantId in tenantMap.Values
              && forall x :: x in r.values[i].items ==> x.1 != DEFAULT_QUOTA_VALUE && x in quotas[i].quota
  {
    var r := DeployQuotas(quotas, tenantMap, userMap);
    forall i | 0 <= i < |r.values|
      ensures r.values[i].tenantId in tenantMap.Values
    {
      assert QuotaUpdateFor(quotas[i], tenantMap, userMap) == Ok(r.values[i]);
      assert quotas[i].tenantId in tenantMap;
    }
  }

  /** Without a user map every quota is deployed exactly when every tenant is
      mapped. */
  lemma DeployQuotasWithoutUsers(quotas: seq<QuotaRecord>, tenantMap: map<string, string>)
    ensures DeployQuotas(quotas, tenantMap, None).error.None? <==>
              forall i :: 0 <= i < |quotas| ==> quotas[i].tenantId in tenantMap
  {
    MapUntilErrorFails(quotas, q => QuotaUpdateFor(q, tenantMap, None));
  }

  // ----- _deploy_instances -------------------------------------------------

  /** One entry of `block_device_mapping_v2`. */
  datatype BlockDevice = BlockDevice(sourceType: string, uuid: Option<string>, destinationType: string,
                                     volumeSize: Option<int>, deleteOnTermination: bool, bootIndex: int)

  /** The keyword arguments of `create_instance`; `blockDevices` is None
      when no mapping is passed. */
  datatype CreateParams = CreateParams(name: string, flavor: string, keyName: Option<string>, nics: Value,
                                       image: Option<string>, blockDevices: Option<seq<BlockDevice>>)

  /** The create parameters for one instance.  A boot-from-volume instance
      boots from its first volume, which it must have. */
  function CreateParamsFor(inst: InstanceBody, convertToBfv: bool): (r: Result<CreateParams>)
    ensures r.Err? <==> inst.bootMode == BootFromVolume && inst.volumes == []
    ensures r.Err? ==> r.error == IndexError
  {
    var base := CreateParams(inst.name, inst.flavorId, inst.keyName, inst.nics, inst.imageId, None);
    if inst.bootMode == BootFromVolume then
      if inst.volumes == [] then Err(IndexError)
      else Ok(base.(image := None, blockDevices :=
                Some([BlockDevice("volume", Some(inst.volumes[0].id), "volume", None, true, 0)])))
    else if convertToBfv && inst.bootMode == BootFromImage then
      Ok(base.(image := None, blockDevices :=
           Some([BlockDevice("image", inst.imageId, "volume", Some(inst.diskSize), false, 0)])))
    else Ok(base)
  }

  /** The instance keeps its name, flavor, key and nics.  A boot-from-volume
      instance boots from its first volume, deleted with the server; with
      `convert_to_bfv` a boot-from-image instance boots from a new volume of
      its disk size made from its image, kept after the server; any other
      instance boots from its image with no mapping. */
  lemma CreateParamsForBoot(inst: InstanceBody, convertToBfv: bool)
    ensures var r := CreateParamsFor(inst, convertToBfv);
            r.Ok? ==> r.value.name == inst.name && r.value.flavor == inst.flavorId &&
                      r.value.keyName == inst.keyName && r.value.nics == inst.nics
    ensures var r := CreateParamsFor(inst, convertToBfv);
            r.Ok? && inst.bootMode == BootFromVolume ==>
              r.value.image == None &&
              r.value.blockDevices == Some([BlockDevice("volume", Some(inst.volumes[0].id), "volume", None, true, 0)])
    ensures var r := CreateParamsFor(inst, convertToBfv);
            inst.bootMode == BootFromImage && convertToBfv ==>
              r.Ok? && r.value.image == None &&
              r.value.blockDevices == Some([BlockDevice("image", inst.imageId, "volume", Some(inst.diskSize), false, 0)])
    ensures var r := CreateParamsFor(inst, convertToBfv);
            inst.bootMode != BootFromVolume && !(inst.bootMode == BootFromImage && convertToBfv) ==>
              r.Ok? && r.value.image == inst.imageId && r.value.blockDevices == None
  {
  }

  /** The tenants, other than those in `known`, that get a client of their
      own, in the order their first instance appears. */
  function NewTenants(known: set<string>, names: seq<string>): (r: seq<string>)
    decreases |names|
  {
    if names == [] then []
    else if names[0] in known then NewTenants(known, names[1..])
    else [names[0]] + NewTenants(known + {names[0]}, names[1..])
  }

  /** Each tenant that is not yet known gets exactly one new client. */
  lemma {:induction false} NewTenantsOnce(known: set<string>, names: seq<string>)
    ensures var r := NewTenants(known, names);
            && (forall t :: t in r <==> t in names && t !in known)
            && (forall i, j :: 0 <= i < j < |r| ==> r[i] != r[j])
    decreases |names|
  {
    if names != [] {
      if names[0] in known {
        NewTenantsOnce(known, names[1..]);
        assert forall t :: t in names <==> t == names[0] || t in names[1..];
      } else {
        NewTenantsOnce(known + {names[0]}, names[1..]);
        assert forall t :: t in names <==> t == names[0] || t in names[1..];
      }
    }
  }

  function TenantNames(instances: seq<InstanceEntry>): (r: seq<string>)
    ensures |r| == |instances|
  {
    if instances == [] then [] else [instances[0].instance.tenantName] + TenantNames(instances[1..])
  }

  lemma {:induction false} TenantNamesAt(instances: seq<InstanceEntry>, i: nat)
    requires i < |instances|
    ensures TenantNames(instances)[i] == instances[i].instance.tenantName
  {
    if i > 0 {
      TenantNamesAt(instances[1..], i - 1);
    }
  }

  /** `new_ids` after the first `n` creates: the id the i-th create returned
      mapped to the i-th instance's id, later entries winning. */
  function NewIds(instances: seq<InstanceEntry>, newServerId: nat -> string, n: nat): (m: map<string, string>)
    requires n <= |instances|
  {
    if n == 0 then map[] else NewIds(instances, newServerId, n - 1)[newServerId(n - 1) := instances[n - 1].instance.id]
  }

  /** When the new ids are distinct, `new_ids` maps each of them to the id of
      the instance it was created for, and holds nothing else. */
  lemma {:induction false} NewIdsMapBack(instances: seq<InstanceEntry>, newServerId: nat -> string, n: nat)
    requires n <= |instances|
    requires forall i, j :: 0 <= i < j < n ==> newServerId(i) != newServerId(j)
    ensures forall k :: k in NewIds(instances, newServerId, n) <==> exists i :: 0 <= i < n && newServerId(i) == k
    ensures forall i :: 0 <= i < n ==> NewIds(instances, newServerId, n)[newServerId(i)] == instances[i].instance.id
  {
    if n > 0 {
      NewIdsMapBack(instances, newServerId, n - 1);
    }
  }

  /** The create parameters of the instances, one at a time, up to the first
      instance that has none. */
  function CreateRun(instances: seq<InstanceEntry>, convertToBfv: bool): (r: Partial<CreateParams>)
    ensures |r.values| <= |instances|
    ensures forall i :: 0 <= i < |r.values| ==> CreateParamsFor(instances[i].instance, convertToBfv) == Ok(r.values[i])
    ensures r.error.None? ==> |r.values| == |instances|
    ensures r.error.Some? ==>
              |r.values| < |instances| && CreateParamsFor(instances[|r.values|].instance, convertToBfv) == Err(r.error.value)
  {
    if instances == [] then Partial([], None)
    else
      match CreateParamsFor(instances[0].instance, convertToBfv)
      case Err(e) => Partial([], Some(e))
      case Ok(p) =>
        var rest := CreateRun(instances[1..], convertToBfv);
        Partial([p] + rest.values, rest.error)
  }

  /** When the instances before `i` all have create parameters, the run holds
      theirs and goes on to `i`. */
  lemma CreateRunStopsAt(instances: seq<InstanceEntry>, convertToBfv: bool, i: nat)
    requires i <= |instances|
    requires forall j :: 0 <= j < i ==> CreateParamsFor(instances[j].instance, convertToBfv).Ok?
    requires i < |instances| ==> CreateParamsFor(instances[i].instance, convertToBfv).Err?
    ensures |CreateRun(instances, convertToBfv).values| == i
  {
    var r := CreateRun(instances, convertToBfv);
    if |r.values| < i {
      assert false;
    }
  }

  /** Creating stops exactly at the first boot-from-volume instance without
      volumes, with IndexError. */
  lemma CreateRunStopsAtMissingVolume(instances: seq<InstanceEntry>, convertToBfv: bool)
    ensures var r := CreateRun(instances, convertToBfv);
            && (r.error.Some? <==>
                  exists i :: 0 <= i < |instances| && instances[i].instance.bootMode == BootFromVolume && instances[i].instance.volumes == [])
            && (r.error.Some? ==> r.error.value == IndexError)
  {
    var r := CreateRun(instances, convertToBfv);
    if r.error.None? {
      forall i | 0 <= i < |instances|
        ensures CreateParamsFor(instances[i].instance, convertToBfv).Ok?
      {
        assert CreateParamsFor(instances[i].instance, convertToBfv) == Ok(r.values[i]);
      }
    }
  }

  // ----- listings ----------------------------------------------------------

  /** One item of `get_networks`. */
  datatype NetworkInfo = NetworkInfo(name: string, ip: string, mac: string, floatingIp: Option<string>)

  /** `get_networks`: `macOf` is the network resource's
      `get_func_mac_address`, None when the cloud has none; the fallback
      `default_detect_mac` raises `NotImplemented(...)`, and calling
      `NotImplemented` is a TypeError, so that fails before any network is
      looked at.  Otherwise one item per network, as `NetworkItems` says. */
  function GetNetworks(networks: seq<(string, seq<string>)>, macOf: Option<string -> string>): (r: Result<seq<NetworkInfo>>)
    ensures macOf.None? ==> r.Err? && r.error.TypeError?
    ensures macOf.Some? ==> (r.Err? <==> exists i :: 0 <= i < |networks| && networks[i].1 == [])
    ensures macOf.Some? && r.Err? ==> r.error == IndexError
    ensures r.Ok? ==> macOf.Some? && |r.value| == |networks|
    ensures r.Ok? ==> forall i :: 0 <= i < |networks| ==>
                && r.value[i].name == networks[i].0
                && r.value[i].mac == macOf.value(networks[i].1[0])
  {
    if macOf.None? then Err(TypeError("'NotImplementedType' object is not callable"))
    else NetworkItems(networks, macOf.value)
  }

  /** The loop of `get_networks`: one item per network of the server, with
      its first address as the fixed ip and a second one, if any, as the
      floating ip.  A network with no address raises IndexError. */
  function NetworkItems(networks: seq<(string, seq<string>)>, macOf: string -> string): (r: Result<seq<NetworkInfo>>)
    ensures r.Err? <==> exists i :: 0 <= i < |networks| && networks[i].1 == []
    ensures r.Err? ==> r.error == IndexError
    ensures r.Ok? ==> |r.value| == |networks|
    ensures r.Ok? ==> forall i :: 0 <= i < |networks| ==>
                && r.value[i].name == networks[i].0
                && r.value[i].ip == networks[i].1[0]
                && r.value[i].mac == macOf(networks[i].1[0])
                && (r.value[i].floatingIp.Some? <==> |networks[i].1| > 1)
                && (|networks[i].1| > 1 ==> r.value[i].floatingIp == Some(networks[i].1[1]))
  {
    if networks == [] then Ok([])
    else
      var (name, addrs) := networks[0];
      if addrs == [] then Err(IndexError)
      else
        var rest := NetworkItems(networks[1..], macOf);
        if rest.Err? then rest
        else
          var item := NetworkInfo(name, addrs[0], macOf(addrs[0]), if |addrs| > 1 then Some(addrs[1]) else None);
          assert forall i :: 1 <= i < |networks| ==> networks[i] == networks[1..][i - 1];
          Ok([item] + rest.value)
  }

  /** What `get_instances_list` asks nova for: the filtered listing, or a get
      per id. */
  datatype ServerQuery = ListServers | GetServers(ids: seq<Value>)

  /** `get_instances_list`: a truthy `id` option selects servers by id (each
      element of a list, or the single id); anything else lists servers. */
  function InstancesQuery(searchOpts: Option<map<string, Value>>): (q: ServerQuery)
    ensures var ids := if searchOpts.Some? && "id" in searchOpts.value then searchOpts.value["id"] else VNone;
            && (q.ListServers? <==> !Truthy(ids))
            && (Truthy(ids) && ids.VList? ==> q == GetServers(ids.items))
            && (Truthy(ids) && !ids.VList? ==> q == GetServers([ids]))
  {
    var ids := if searchOpts.Some? && searchOpts.value != map[] && "id" in searchOpts.value
               then searchOpts.value["id"] else VNone;
    if !Truthy(ids) then ListServers
    else if ids.VList? then GetServers(ids.items)
    else GetServers([ids])
  }

  // ----- the resource ------------------------------------------------------

  /** The nova resource: its configuration and the tenant whose client
      `nova_client` currently is. */
  class NovaCompute {
    const tenant: string        // the configured cloud tenant
    const retries: int          // compute.wait_for_status_retries
    const interval: int         // compute.wait_for_status_interval
    const convertToBfv: bool    // migrate.instance_convert_to_bfv
    var client: string

    constructor (tenant: string, retries: int, interval: int, convertToBfv: bool)
      ensures this.tenant == tenant && this.retries == retries && this.interval == interval
      ensures this.convertToBfv == convertToBfv && client == tenant
    {
      this.tenant := tenant;
      this.retries := retries;
      this.interval := interval;
      this.convertToBfv := convertToBfv;
      client := tenant;
    }

    /** `wait_for_status`: get the status until it matches, sleeping the
        interval after each mismatch, and raise once the mismatches exceed
        the retry limit.  `calls` counts the gets, `slept` the sleeps. */
    method WaitForStatus(getStatus: nat -> string, status: string)
      returns (err: Option<Error>, calls: nat, slept: seq<nat>)
      ensures err == NovaWaitOutcome(getStatus, status, retries)
      ensures var L := EffectiveRetries(retries);
              var k := FirstMatch(getStatus, status, L + 1);
              && (k <= L ==> calls == k + 1 && slept == Repeat(EffectiveInterval(interval), k))
              && (k > L ==> calls == L + 2 && slept == Repeat(EffectiveInterval(interval), L + 1))
    {
      var limit: nat := EffectiveRetries(retries);
      var pause: nat := EffectiveInterval(interval);
      var count: nat := 0;
      slept := [];
      var current := getStatus(0);
      calls := 1;
      while !EqualsIgnoreCase(current, status)
        invariant count <= limit && calls == count + 1
        invariant slept == Repeat(pause, count)
        invariant current == getStatus(count)
        invariant FirstMatch(getStatus, status, count) == count
        decreases limit - count
      {
        NoMatchYet(getStatus, status, count);
        slept := slept + [pause];
        count := count + 1;
        if count > limit {
          NovaWaitTimesOut(getStatus, status, retries);
          err := Some(TimeoutException(Lower(getStatus(calls)), status));
          calls := calls + 1;
          return;
        }
        current := getStatus(calls);
        calls := calls + 1;
      }
      NovaWaitMatches(getStatus, status, retries, count);
      err := None;
    }

    /** The first loop of `_deploy_instances`: a client for the configured
        tenant, and one more for each other tenant of an instance, made in
        the order the tenants first appear. */
    method ClientTenants(instances: seq<InstanceEntry>) returns (clients: set<string>, newClients: seq<string>)
      ensures tenant in clients
      ensures forall j :: 0 <= j < |instances| ==> instances[j].instance.tenantName in clients
      ensures newClients == NewTenants({tenant}, TenantNames(instances))
    {
      clients := {tenant};
      newClients := [];
      ghost var names := TenantNames(instances);
      var i := 0;
      while i < |instances|
        invariant 0 <= i <= |instances|
        invariant tenant in clients
        invariant forall j :: 0 <= j < i ==> instances[j].instance.tenantName in clients
        invariant forall t :: t in clients ==> t == tenant || t in names[..i]
        invariant newClients + NewTenants(clients, names[i..]) == NewTenants({tenant}, names)
      {
        var name := instances[i].instance.tenantName;
        TenantNamesAt(instances, i);
        assert names[i..] == [name] + names[i + 1..];
        if name !in clients {
          newClients := newClients + [name];
          assert newClients + NewTenants(clients + {name}, names[i + 1..]) == NewTenants({tenant}, names);
          clients := clients + {name};
        }
        i := i + 1;
      }
    }

    /** `_deploy_instances`: make a client for every new tenant, create each
        instance through its tenant's client, record which new id belongs to
        which instance, and switch back to the configured tenant's client.
        An instance without create parameters stops the loop with its
        tenant's client still selected. */
    method DeployInstances(instances: seq<InstanceEntry>, newServerId: nat -> string)
      returns (r: Result<map<string, string>>, newClients: seq<string>, created: seq<(string, CreateParams)>)
      modifies this
      ensures newClients == NewTenants({tenant}, TenantNames(instances))
      ensures var run := CreateRun(instances, convertToBfv);
              && |created| == |run.values|
              && (forall i :: 0 <= i < |created| ==> created[i] == (instances[i].instance.tenantName, run.values[i]))
              && (run.error.None? ==> r == Ok(NewIds(instances, newServerId, |instances|)) && client == tenant)
              && (run.error.Some? ==> r == Err(run.error.value) &&
                                      client == instances[|run.values|].instance.tenantName)
    {
      var clients;
      clients, newClients := ClientTenants(instances);
      var newIds := map[];
      created := [];
      var i := 0;
      while i < |instances|
        invariant 0 <= i <= |instances| && |created| == i
        invariant forall j :: 0 <= j < i ==>
                    CreateParamsFor(instances[j].instance, convertToBfv) == Ok(created[j].1) &&
                    created[j].0 == instances[j].instance.tenantName
        invariant newIds == NewIds(instances, newServerId, i)
      {
        var inst := instances[i].instance;
        client := inst.tenantName;
        var params := CreateParamsFor(inst, convertToBfv);
        if params.Err? {
          CreateRunStopsAt(instances, convertToBfv, i);
          return Err(params.error), newClients, created;
        }
        created := created + [(client, params.value)];
        newIds := newIds[newServerId(i) := inst.id];
        i := i + 1;
      }
      CreateRunStopsAt(instances, convertToBfv, i);
      client := tenant;
      r := Ok(newIds);
    }
  }
}
