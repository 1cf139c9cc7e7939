# CloudFerry migration core in Dafny

This project models the decision logic at the core of CloudFerry, a tool that
migrates OpenStack tenants, instances, images and networks from a source cloud
to a destination cloud. It covers these parts:

- **The scheduler.** A scheduler walks a cursor of tasks, dispatches each
  by its kind, fires hooks around it and stops at the first failure. The
  threaded variant forks child schedulers into the `CHILDREN` registry.
- **The status-wait loop of every resource.** The delay doubles until it
  reaches a timeout.
- **The nova compute resource:**
  - the power-state transition table of `change_status` and its wait loop;
  - the quota filter and the instance create parameters;
  - network listing and the target check.
- **The neutron network resource:**
  - the lookups by hash and by id, and the resource hash;
  - the router address collection;
  - the create/skip rules of the network, subnet, security-group, rule and
    floating-IP uploads.
- **The glance image resource:**
  - endpoint parsing and snapshot detection;
  - image lookups, the image info and its location, and image members;
  - the SQL command it builds and the CLI output it parses.
- **The per-instance info rewrites.** These are done by the actions
  `ConvertComputeToImage`, `MapComputeInfo`, `ConvertFile`, `MapBootVolToDiff`
  and `IsBootFromVolume`.

Each source file has its own module:

| file | source file | module |
|---|---|---|
| scheduler.dfy | `scheduler.py` | `Scheduler` |
| resource.dfy | `resource.py` | `Resource` |
| nova_compute.dfy | `nova_compute.py` | `NovaCompute` |
| neutron.dfy | `neutron.py` | `Neutron` |
| glance_image.dfy | `glance_image.py` | `GlanceImage` |
| one file per action | the action's own file | named after the action |

Two modules hold vocabulary shared by the others:

- `Common`: options, results, Python errors and values, case folding,
  split/join, first-match polling and fail-fast loops.
- `ComputeInfo`: the instance record that the actions rewrite.

Where the source updates objects in place, the model uses classes:

- the scheduler and its namespace store;
- the resource classes, which keep their configuration in `const` fields.

The loops of the source become methods. Each method is proved against a
specification function, and the properties are proved about those
functions.

Calls into other services are parameters of the model. These are the nova,
neutron, glance, keystone and storage clients, the database connector, and
fabric's `run`. A function parameter gives the answer of each call, e.g. the
status reported by the i-th poll, or the id returned by the i-th create.

## Model

| member | source | states |
|---|---|---|
| Common.FirstMatch | cloudferrylib/base/resource.py:51-53 | the first poll index among the first n whose status equals the wanted one ignoring case, or n |
| Common.FirstMatchIsFirst | cloudferrylib/base/resource.py:51-53 | no poll before the first match matches |
| Common.FirstMatchStable | cloudferrylib/os/compute/nova_compute.py:645-650 | once a match is seen, looking at more polls does not move it |
| Common.Split | cloudferrylib/os/image/glance_image.py:480 | there is always at least one field, and no field holds the separator |
| Common.EqualsIgnoreCaseIsLowerEqual | cloudferrylib/base/resource.py:52 | comparing char by char ignoring case is the same as comparing the lower-cased strings |
| Common.SplitJoin | cloudferrylib/os/image/glance_image.py:480 | splitting what join built on a separator no part holds gives the parts back |
| Common.RemoveChar | cloudferrylib/os/image/glance_image.py:480 | `replace(ch, '')` leaves no `ch` and adds no character |
| Common.MapUntilError | cloudferrylib/os/actions/map_bootvol_to_diff.py:34-42 | a loop that raises at an item keeps the results of the items before it and returns that item's error; without an error every item has its result |
| Common.MapUntilErrorFails | cloudferrylib/os/compute/nova_compute.py:451-465 | a loop that stops at the first raising item fails exactly when some item fails, and then at the first such item |
| ComputeInfo.BaseFilePath | cloudferrylib/os/actions/map_compute_info.py:52 | the path is `<temp>/temp<instance id>_base`, piece by piece |
| Resource.ScheduleDoubles | cloudferrylib/base/resource.py:50-55 | the i-th check happens at delay 2^i, and every check's delay is below the timeout |
| Resource.ScheduleEnds | cloudferrylib/base/resource.py:51 | the delay after the last check has reached the timeout |
| Resource.ScheduleExamples | cloudferrylib/base/resource.py:49-55 | timeout 10 checks at delays 1, 2, 4 and 8; the default 60 adds 16 and 32; a timeout of at most 1 checks nothing |
| Resource.Resource.WaitForStatus | cloudferrylib/base/resource.py:49-59 | it returns at the first check whose status matches ignoring case; when none matches it raises TimeoutException with the lower-cased status of one more get |
| Resource.Resource.TryWaitForStatus | cloudferrylib/base/resource.py:61-66 | it never raises; the timeout is only reported |
| Resource.Resource.DeepCopy | cloudferrylib/base/resource.py:71-72 | deep-copying a resource gives the resource itself |
| Resource.WaitSucceedsIffMatched | cloudferrylib/base/resource.py:49-59 | the wait succeeds exactly when a status observed inside the loop matches |
| Resource.ShortTimeoutRaises | cloudferrylib/base/resource.py:50-59 | with timeout at most 1 the wait raises at once with the first status, lower-cased |
| Scheduler.Scheduler.Base | cloudferrylib/scheduler/scheduler.py:34-41 | a new scheduler has status NO_ERROR, the given cursor, a fresh namespace when none is given, and only the plain-task entry in its table |
| Scheduler.Scheduler.Thread | cloudferrylib/scheduler/scheduler.py:81-87 | a threaded scheduler adds the thread-task entry and empty child bookkeeping |
| Scheduler.BaseDispatch | cloudferrylib/scheduler/scheduler.py:41 | the base table maps exactly the plain task kind, to task_run |
| Scheduler.ThreadDispatch | cloudferrylib/scheduler/scheduler.py:84 | the thread table is the base table plus the thread kind, mapped to task_run_thread |
| Scheduler.Outcome | cloudferrylib/scheduler/scheduler.py:58-61 | a task of a kind missing from the table raises; a thread task never raises; a plain task raises exactly when its body does |
| Scheduler.FirstFailure | cloudferrylib/scheduler/scheduler.py:63-71 | the index it returns, when inside the cursor, is a task that raises |
| Scheduler.Scheduler.EventStartTask | cloudferrylib/scheduler/scheduler.py:43-45 | the start hook returns true and only records the start |
| Scheduler.Scheduler.EventEndTask | cloudferrylib/scheduler/scheduler.py:47-49 | the end hook returns true and only records the end |
| Scheduler.Scheduler.ErrorTask | cloudferrylib/scheduler/scheduler.py:51-56 | error_task returns what event_error_task returns, true, and only records the failure |
| Scheduler.Scheduler.TaskRunExec | cloudferrylib/scheduler/scheduler.py:73-74 | a plain task is called with the scheduler's own namespace; its writes land in that store; its exception is returned |
| Scheduler.Scheduler.AddCursor | cloudferrylib/scheduler/scheduler.py:76-77 | only the cursor changes |
| Scheduler.Namespace.Fork | cloudferrylib/scheduler/scheduler.py:122 | a plain fork shares the store, and with it the CHILDREN registry; a deep fork copies it |
| Scheduler.Scheduler.Fork | cloudferrylib/scheduler/scheduler.py:121-132 | the child is a fresh scheduler of the same class over the task's net, with this scheduler as parent; the registry gains exactly the child's entry, without a process |
| Scheduler.Scheduler.StartSeparateThread | cloudferrylib/scheduler/scheduler.py:111-114 | the child's registry entry gets a process that runs this scheduler; a missing entry is a KeyError |
| Scheduler.Scheduler.TaskRunThreadExec | cloudferrylib/scheduler/scheduler.py:134-136 | a thread task forks without deep copy and starts the child in a process; it never raises |
| Scheduler.Scheduler.RunTask | cloudferrylib/scheduler/scheduler.py:58-61 | the run takes one step of the specification: start hook, then the dispatched executor, then the end hook only when nothing raised; the error is Outcome |
| Scheduler.Scheduler.TryRunTask | cloudferrylib/scheduler/scheduler.py:64-71 | a raising task sets status ERROR, keeps the exception, calls error_task and stops the loop; otherwise the status is unchanged |
| Scheduler.Scheduler.RunLoop | cloudferrylib/scheduler/scheduler.py:63-71 | the status is ERROR exactly when some task raises, and the state is RunFrom over the cursor |
| Scheduler.Scheduler.Start | cloudferrylib/scheduler/scheduler.py:105-109 | with no thread task the run is inline; otherwise only the process is recorded |
| Scheduler.Scheduler.EventStartChildren | cloudferrylib/scheduler/scheduler.py:89-91 | the child's key is marked running |
| Scheduler.Scheduler.EventStopChildren | cloudferrylib/scheduler/scheduler.py:93-95 | the key is removed, or a KeyError leaves the bookkeeping as it was |
| Scheduler.Scheduler.TriggerStartScheduler | cloudferrylib/scheduler/scheduler.py:97-99 | a child with a parent marks itself running in the parent |
| Scheduler.Scheduler.TriggerStopScheduler | cloudferrylib/scheduler/scheduler.py:101-103 | a child with a parent removes itself from the parent's bookkeeping |
| Scheduler.Scheduler.StartCurrentThread | cloudferrylib/scheduler/scheduler.py:116-119 | start trigger, run loop, stop trigger: the child leaves the parent's bookkeeping even after a task failed |
| Scheduler.RunFromAt | cloudferrylib/scheduler/scheduler.py:63-71 | a pass runs every task before the first failure, then the failing one, and ends there |
| Scheduler.PrefixStep | cloudferrylib/scheduler/scheduler.py:63-71 | running one more task of the cursor is one step from the state the earlier tasks left |
| Scheduler.BeforeFirstFailure | cloudferrylib/scheduler/scheduler.py:63-71 | every task before the first failure completes |
| Scheduler.FirstFailureIsFirst | cloudferrylib/scheduler/scheduler.py:63-71 | FirstFailure is i exactly when tasks before i complete and task i raises, or i is the end |
| Scheduler.HookPairing | cloudferrylib/scheduler/scheduler.py:58-61 | the start hook fires first, and the end hook fires exactly when that task does not raise |
| Scheduler.EventsMention | cloudferrylib/scheduler/scheduler.py:58-71 | every recorded event belongs to a task the loop reached |
| Scheduler.FailFast | cloudferrylib/scheduler/scheduler.py:63-71 | after the first raising task nothing else runs, and its error hook is the last event |
| Scheduler.CompleteRun | cloudferrylib/scheduler/scheduler.py:63-71 | when no task raises, every task completes and its end hook is recorded |
| Scheduler.EndedStays | cloudferrylib/scheduler/scheduler.py:63-71 | an end hook, once recorded, stays in the trace |
| Scheduler.AppliedBinding | cloudferrylib/scheduler/scheduler.py:73-74 | after plain tasks a variable is bound exactly when some task writes it, to the last task's value |
| Scheduler.RegisteredForks | cloudferrylib/scheduler/scheduler.py:121-136 | the registry holds the starting ids plus exactly the ids of the completed thread tasks |
| NovaCompute.ParseTarget | cloudferrylib/os/compute/nova_compute.py:143-156 | only "resources" and "instances" are accepted; anything else is ValueError |
| NovaCompute.ParseState | cloudferrylib/os/compute/nova_compute.py:579-620 | the table's keys are exactly active, paused, suspend and shutoff |
| NovaCompute.ParseStateName | cloudferrylib/os/compute/nova_compute.py:579-620 | each power state is found again under its own name |
| NovaCompute.StateNameLower | cloudferrylib/os/compute/nova_compute.py:566-567 | the table's names are lower case, so the lowered status finds them |
| NovaCompute.PlansEndWaitingForTarget | cloudferrylib/os/compute/nova_compute.py:579-620 | every plan acts first, alternates action and wait, and ends waiting for the requested state; multi-step plans wait for active first |
| NovaCompute.DirectTransitions | cloudferrylib/os/compute/nova_compute.py:581-610 | the first call of each direct transition: start, stop, resume, pause, unpause, suspend |
| NovaCompute.RunPlan | cloudferrylib/os/compute/nova_compute.py:622-626 | the calls made are the plan's steps in order; the only error is a TimeoutException |
| NovaCompute.RunPlanCompletes | cloudferrylib/os/compute/nova_compute.py:622-626 | a plan without a timeout makes one call per step, and none of its waits timed out |
| NovaCompute.RunPlanTimesOut | cloudferrylib/os/compute/nova_compute.py:622-626 | a plan with a timeout stopped at a wait that timed out |
| NovaCompute.RunPlanEarlierWaitsComplete | cloudferrylib/os/compute/nova_compute.py:622-626 | every wait before the last call completed |
| NovaCompute.RunPlanStopsAtTimeout | cloudferrylib/os/compute/nova_compute.py:622-626 | the plan stops right after the first wait that times out and returns that timeout |
| NovaCompute.TargetServer | cloudferrylib/os/compute/nova_compute.py:564-566 | a truthy instance_id selects the fetched server; otherwise the given instance, and no instance is an AttributeError |
| NovaCompute.ChangeStatusOf | cloudferrylib/os/compute/nova_compute.py:566-628 | equal statuses ignoring case give True; an unknown pair is a KeyError |
| NovaCompute.ChangeStatusAsWritten | cloudferrylib/os/compute/nova_compute.py:563-628 | the waits poll the instance_id argument |
| NovaCompute.ChangeStatus | cloudferrylib/os/compute/nova_compute.py:563-628 | the waits poll the server the plan acts on |
| NovaCompute.ChangeStatusTouchesOneServer | cloudferrylib/os/compute/nova_compute.py:563-628 | every call of a change concerns the one target server |
| NovaCompute.ChangeStatusRunsPlan | cloudferrylib/os/compute/nova_compute.py:621-626 | between distinct known states a change is always made: its first call is the plan's action on the server, a completed change ends waiting for the requested state, and a timeout is reported as a TimeoutException |
| NovaCompute.ChangeStatusFollowsPlan | cloudferrylib/os/compute/nova_compute.py:621-626 | between distinct known states the result is the table's plan run |
| NovaCompute.UnknownStatusRaises | cloudferrylib/os/compute/nova_compute.py:623 | a current status outside the table raises KeyError with it |
| NovaCompute.StartFromShutoff | cloudferrylib/os/compute/nova_compute.py:609-610 | starting a shut-off server calls start, then waits for active |
| NovaCompute.StartPlanCompletes | cloudferrylib/os/compute/nova_compute.py:609-626 | a shut-off server that reports active after start goes through the whole plan |
| NovaCompute.WaitActiveCompletes | cloudferrylib/os/compute/nova_compute.py:622-626 | a lone wait for active completes on a server that reports active |
| NovaCompute.ChangeStatusPollsNone | cloudferrylib/os/compute/nova_compute.py:575-577 | called with `instance` only, the wait as written polls None; corrected, it polls the server |
| NovaCompute.EffectiveRetries | cloudferrylib/os/compute/nova_compute.py:633-637 | a non-positive retry limit becomes 60 |
| NovaCompute.EffectiveInterval | cloudferrylib/os/compute/nova_compute.py:638-642 | a non-positive interval becomes 3 |
| NovaCompute.NovaWaitOutcome | cloudferrylib/os/compute/nova_compute.py:643-650 | the only error is a TimeoutException for the wanted status |
| NovaCompute.NovaWaitSucceedsIffMatched | cloudferrylib/os/compute/nova_compute.py:643-650 | the wait succeeds exactly when one of gets 0 to L matches ignoring case |
| NovaCompute.NovaWaitTimesOut | cloudferrylib/os/compute/nova_compute.py:645-650 | when gets 0 to L all mismatch, the wait raises with get L+1 |
| NovaCompute.NovaWaitMatches | cloudferrylib/os/compute/nova_compute.py:645-650 | a first match within the limit ends the wait without error |
| NovaCompute.NoMatchYet | cloudferrylib/os/compute/nova_compute.py:645-650 | a mismatch at get n, after none before it, leaves no match up to n |
| NovaCompute.ActivePollsMatch | cloudferrylib/os/compute/nova_compute.py:643-650 | a server reporting active ends the wait for active without error |
| NovaCompute.NovaCompute.WaitForStatus | cloudferrylib/os/compute/nova_compute.py:630-650 | the loop ends as NovaWaitOutcome says, having slept the effective interval once per mismatch |
| NovaCompute.NonDefaultItems | cloudferrylib/os/compute/nova_compute.py:461-463 | exactly the quota items whose value is not -1 |
| NovaCompute.QuotaUpdateFor | cloudferrylib/os/compute/nova_compute.py:451-465 | the tenant goes through tenant_map, a KeyError when missing; the user is mapped only with a non-empty user map |
| NovaCompute.DeployQuotas | cloudferrylib/os/compute/nova_compute.py:450-465 | no error exactly when every quota's lookups succeed; the i-th update made is the i-th quota's; on an error, the updates stop just before the first failing quota, with its error |
| NovaCompute.DeployedQuotasSkipDefaults | cloudferrylib/os/compute/nova_compute.py:450-465 | no deployed item is -1, and every call goes to a mapped tenant |
| NovaCompute.DeployQuotasWithoutUsers | cloudferrylib/os/compute/nova_compute.py:450-465 | without a user map every quota is deployed exactly when every tenant is mapped |
| NovaCompute.CreateParamsFor | cloudferrylib/os/compute/nova_compute.py:512-537 | only a boot-from-volume instance without volumes fails, with IndexError |
| NovaCompute.CreateParamsForBoot | cloudferrylib/os/compute/nova_compute.py:512-537 | name, flavor, key and nics are kept; boot from volume maps its first volume and drops the image; convert-to-bfv maps the image to a volume |
| NovaCompute.NewTenantsOnce | cloudferrylib/os/compute/nova_compute.py:501-506 | each tenant not yet known gets exactly one new client |
| NovaCompute.TenantNamesAt | cloudferrylib/os/compute/nova_compute.py:501-503 | the i-th tenant asked for is the i-th instance's |
| NovaCompute.NewIdsMapBack | cloudferrylib/os/compute/nova_compute.py:538-539 | new_ids maps each new id back to its source instance id |
| NovaCompute.CreateRun | cloudferrylib/os/compute/nova_compute.py:508-539 | the instances are created in order, up to the first that fails |
| NovaCompute.CreateRunStopsAt | cloudferrylib/os/compute/nova_compute.py:508-539 | the run holds exactly the instances before the first failure |
| NovaCompute.CreateRunStopsAtMissingVolume | cloudferrylib/os/compute/nova_compute.py:517-518 | creating stops exactly at the first boot-from-volume instance without volumes |
| NovaCompute.NovaCompute.ClientTenants | cloudferrylib/os/compute/nova_compute.py:493-506 | every instance's tenant has a client, and new clients are made once per new tenant |
| NovaCompute.NovaCompute.DeployInstances | cloudferrylib/os/compute/nova_compute.py:491-541 | the creates are CreateRun's, and the result maps the new ids back |
| NovaCompute.GetNetworks | cloudferrylib/os/compute/nova_compute.py:695-717 | without a network resource MAC function the fallback raises TypeError, even for a server without networks; otherwise an IndexError exactly when a network has no address, else one item per network with its name and MAC |
| NovaCompute.InstancesQuery | cloudferrylib/os/compute/nova_compute.py:546-558 | a truthy `id` option selects servers by id, a list one get per id; otherwise the filtered listing |
| Neutron.GetResByHash | cloudferrylib/os/network/neutron.py:1055-1059 | a found resource has the wanted hash |
| Neutron.GetResByHashFirst | cloudferrylib/os/network/neutron.py:1055-1059 | found exactly when some resource has the hash, and it is the first such |
| Neutron.GetResHashByIdFirst | cloudferrylib/os/network/neutron.py:1061-1065 | found exactly when some resource has the id; the hash is that of the first such |
| Neutron.MatchByIdFinds | cloudferrylib/os/network/neutron.py:1090-1091 | the destination match succeeds exactly when the source id and its hash are found, and it has that hash |
| Neutron.ResourceHashAsWritten | cloudferrylib/os/network/neutron.py:1067-1084 | the hash fails exactly when a field is missing |
| Neutron.ResourceHash | cloudferrylib/os/network/neutron.py:1067-1084 | the hash fails exactly when a field is missing, with KeyError of a missing field |
| Neutron.HashFailsOnMissingField | cloudferrylib/os/network/neutron.py:1071 | the first missing field stops the hash with KeyError |
| Neutron.HashItemsStopped | cloudferrylib/os/network/neutron.py:1070-1071 | once a field is missing, later fields change nothing |
| Neutron.HashItemsResource | cloudferrylib/os/network/neutron.py:1072-1074 | the cidr field of the resource is rewritten normalised |
| Neutron.HashItemsClosedForm | cloudferrylib/os/network/neutron.py:1070-1080 | the collected items are the fields' values, list fields element by element |
| Neutron.NormalisedContributions | cloudferrylib/os/network/neutron.py:1081-1083 | lower-casing then sorting the items leaves their multiset |
| Neutron.IntendedHash | cloudferrylib/os/network/neutron.py:1067-1084 | with every field present the hash is the multiset of normalised values |
| Neutron.ContributionsOrderFree | cloudferrylib/os/network/neutron.py:1083 | the hash does not depend on the order of the fields |
| Neutron.ResourceHashOrderFree | cloudferrylib/os/network/neutron.py:1083-1084 | permuted field lists give the same hash |
| Neutron.ResourceHashCaseFree | cloudferrylib/os/network/neutron.py:1081-1082 | resources that differ only in case of string values hash alike |
| Neutron.ResourceHashRewritesCidr | cloudferrylib/os/network/neutron.py:1072-1074 | hashing rewrites a non-list cidr field to its normalised form and leaves everything else |
| Neutron.ListFieldIgnoredAsWritten | cloudferrylib/os/network/neutron.py:1077-1080 | as written, list fields hash by their key's letters; as intended, by their elements |
| Neutron.NeutronNetwork.GetResourceHash | cloudferrylib/os/network/neutron.py:1067-1084 | the loop computes the intended hash |
| Neutron.GetNewExtnetId | cloudferrylib/os/network/neutron.py:1086-1092 | a mapped source network gives its ext_net_map entry; a failed lookup is a TypeError |
| Neutron.GetNewExtnetIdByHash | cloudferrylib/os/network/neutron.py:1089-1091 | an unmapped network resolves exactly when a destination network has its hash |
| Neutron.RouterFixedIpsMembers | cloudferrylib/os/network/neutron.py:276-279 | the fixed IPs collected are exactly those of ports whose device is the router |
| Neutron.RouterAddressesMembers | cloudferrylib/os/network/neutron.py:273-281 | an address is listed exactly when a router port holds it; a subnet exactly when a router port is on it; subnets are listed once |
| Neutron.NeutronNetwork.AddFixedIps | cloudferrylib/os/network/neutron.py:279-281 | the addresses and the distinct subnets collected so far are extended by one port's fixed IPs |
| Neutron.AddressesMembers | cloudferrylib/os/network/neutron.py:279-281 | the addresses and subnets listed are those of the fixed IPs |
| Neutron.DedupMembers | cloudferrylib/os/network/neutron.py:280-281 | no subnet is lost and none repeats |
| Neutron.DedupSnoc | cloudferrylib/os/network/neutron.py:280-281 | a subnet is appended only when not yet listed |
| Neutron.DedupPrefix | cloudferrylib/os/network/neutron.py:280-281 | the list only grows |
| Neutron.NeutronNetwork.RouterAddresses | cloudferrylib/os/network/neutron.py:273-281 | the loop lists every router address, and every router subnet once, in port order |
| Neutron.Tenant | cloudferrylib/os/network/neutron.py:852-854 | a given tenant id is kept |
| Neutron.NetworkRequestFor | cloudferrylib/os/network/neutron.py:855-877 | the request carries name and tenant; provider options only for external networks with use_extnet_spec_opts; a segmentation id only for vlan |
| Neutron.NetworksRun | cloudferrylib/os/network/neutron.py:848-884 | every network gets a record and the upload never fails |
| Neutron.NetworksRunAt | cloudferrylib/os/network/neutron.py:864-880 | a network is created exactly when it is not a skipped external one and its hash is new |
| Neutron.NetworksRunTenant | cloudferrylib/os/network/neutron.py:852-854 | the tenant is the first network's when none is given, and every request uses it |
| Neutron.NeutronNetwork.UploadNetworks | cloudferrylib/os/network/neutron.py:848-884 | the loop performs NetworksRun |
| Neutron.SubnetsRun | cloudferrylib/os/network/neutron.py:886-922 | a failed upload failed with TypeError |
| Neutron.SubnetsRunStopped | cloudferrylib/os/network/neutron.py:886-922 | after a failure no later subnet is looked at |
| Neutron.SubnetsRunFails | cloudferrylib/os/network/neutron.py:898-901 | the upload fails exactly when a subnet that is not skipped has no destination network |
| Neutron.SubnetsRunAt | cloudferrylib/os/network/neutron.py:891-918 | a subnet is created exactly when it is not a skipped external one and its hash is new, on the matched destination network |
| Neutron.NeutronNetwork.UploadSubnets | cloudferrylib/os/network/neutron.py:886-922 | the loop performs SubnetsRun |
| Neutron.SecGroupsRun | cloudferrylib/os/network/neutron.py:792-813 | every group gets a record and the upload never fails |
| Neutron.SecGroupsRunAt | cloudferrylib/os/network/neutron.py:795-813 | a group is created exactly when it is not "default" and its hash is new |
| Neutron.DefaultSecGroupNeverCreated | cloudferrylib/os/network/neutron.py:796 | no request creates a group named "default" |
| Neutron.NeutronNetwork.UploadSecurityGroups | cloudferrylib/os/network/neutron.py:792-813 | the loop performs SecGroupsRun |
| Neutron.RuleRequestFor | cloudferrylib/os/network/neutron.py:825-843 | the rule targets the matched destination group and tenant; a remote group must resolve, or TypeError |
| Neutron.GroupRulesRun | cloudferrylib/os/network/neutron.py:822-846 | a completed pass records every rule |
| Neutron.GroupRulesRunStopped | cloudferrylib/os/network/neutron.py:822-846 | after a failure no later rule is looked at |
| Neutron.GroupRulesRunAt | cloudferrylib/os/network/neutron.py:823-846 | a rule is created exactly when it has a protocol and its hash is new in the destination group |
| Neutron.NeutronNetwork.UploadGroupRules | cloudferrylib/os/network/neutron.py:822-846 | the inner loop performs GroupRulesRun |
| Neutron.RulesRun | cloudferrylib/os/network/neutron.py:815-846 | a completed pass records every group |
| Neutron.RulesRunStopped | cloudferrylib/os/network/neutron.py:815-846 | after a failure no later group is looked at |
| Neutron.RulesRunAt | cloudferrylib/os/network/neutron.py:817-846 | each group's rules are uploaded against the destination group with its hash, or TypeError when there is none |
| Neutron.NeutronNetwork.UploadSecGroupRules | cloudferrylib/os/network/neutron.py:815-846 | the loop performs RulesRun |
| Neutron.ExtNetIdsAt | cloudferrylib/os/network/neutron.py:990-991 | the i-th floating IP's network is resolved by get_new_extnet_id |
| Neutron.ExtNetIds | cloudferrylib/os/network/neutron.py:989-991 | one network lookup per floating IP |
| Neutron.NeutronNetwork.NewExtnetIdOf | cloudferrylib/os/network/neutron.py:1086-1092 | the lookup made for the i-th floating IP |
| Neutron.AllocRunStopped | cloudferrylib/os/network/neutron.py:989-994 | after a failed lookup nothing more is allocated |
| Neutron.AllocRunFails | cloudferrylib/os/network/neutron.py:989-994 | allocation fails exactly when a lookup fails, at the first such |
| Neutron.AllocRunOnce | cloudferrylib/os/network/neutron.py:992-994 | each external network is allocated once, in first-use order |
| Neutron.NeutronNetwork.AllocateFloatingIps | cloudferrylib/os/network/neutron.py:987-994 | the loop performs AllocRun |
| Neutron.RecreateRunStopped | cloudferrylib/os/network/neutron.py:1021-1041 | after a failed lookup nothing more is recreated |
| Neutron.RecreateRunFails | cloudferrylib/os/network/neutron.py:1021-1041 | recreation fails exactly when a lookup fails; after a successful allocation it does not fail |
| Neutron.ReassignPairs | cloudferrylib/os/network/neutron.py:1028-1041 | a reassignment is a delete of the existing IP followed by a create for the tenant on the network |
| Neutron.NeutronNetwork.ReassignFloatingIps | cloudferrylib/os/network/neutron.py:1028-1041 | the inner loop performs Reassign |
| Neutron.NeutronNetwork.RecreateFloatingIps | cloudferrylib/os/network/neutron.py:1012-1041 | the loop performs RecreateRun |
| Neutron.RedundantExactly | cloudferrylib/os/network/neutron.py:1043-1048 | an existing floating IP is deleted exactly when no source floating IP has its address |
| Neutron.NeutronNetwork.DeleteRedundantFloatingIps | cloudferrylib/os/network/neutron.py:1043-1048 | the loop deletes RedundantIds |
| Neutron.NeutronNetwork.UploadFloatingIps | cloudferrylib/os/network/neutron.py:985-998 | allocation, recreation and deletion in that order; a failed allocation stops the upload |
| GlanceImage.GlanceClientParams | cloudferrylib/os/image/glance_image.py:78-96 | the version is 1; an endpoint with a `/v<digit>` marker is cut before its last one, and otherwise kept |
| GlanceImage.LastMarker | cloudferrylib/os/image/glance_image.py:86 | the last `/v<digit>` marker that ends by n, or none when there is none |
| GlanceImage.EndpointDropsVersion | cloudferrylib/os/image/glance_image.py:86-88 | an endpoint ending in a marker and a tail without one comes back as its base |
| GlanceImage.IsSnapshot | cloudferrylib/os/image/glance_image.py:185-188 | true exactly when the properties hold image_type "snapshot" |
| GlanceImage.GlanceImage.GetImage | cloudferrylib/os/image/glance_image.py:136-141 | the first listed image named or identified by the argument, or None when there is none |
| GlanceImage.IdsWithChecksumAppend | cloudferrylib/os/image/glance_image.py:129-134 | ids come in listing order: the ids of a listing are those of its parts in turn |
| GlanceImage.IdsWithChecksumMembers | cloudferrylib/os/image/glance_image.py:129-134 | an id is listed exactly when an image with it has the checksum |
| GlanceImage.GlanceImage.ImageIdsByChecksum | cloudferrylib/os/image/glance_image.py:129-134 | the loop collects IdsWithChecksum |
| GlanceImage.FirstLocationIsFirst | cloudferrylib/os/image/glance_image.py:264-270 | the location is the first row's when it has one, in any case the first present one, and None when no row has one |
| GlanceImage.GlanceImage.ImageLocation | cloudferrylib/os/image/glance_image.py:264-270 | the loop with its break settles on FirstLocation |
| GlanceImage.GlanceImage.MakeImageInfo | cloudferrylib/os/image/glance_image.py:254-289 | an active image is entered under its id with its converted fields and location; anything else leaves info unchanged |
| GlanceImage.MembersKeys | cloudferrylib/os/image/glance_image.py:193-206 | an image has an entry exactly when it has members |
| GlanceImage.SharesLastWins | cloudferrylib/os/image/glance_image.py:200-205 | a tenant is listed exactly when a member belongs to it, and the last such member decides can_share |
| GlanceImage.MembersOfImage | cloudferrylib/os/image/glance_image.py:193-206 | an image listed once gets the sharing of its own members |
| GlanceImage.GlanceImage.GetMembers | cloudferrylib/os/image/glance_image.py:193-206 | the nested loop builds Members |
| GlanceImage.QuoteAll | cloudferrylib/os/image/glance_image.py:457-458 | each id is quoted as ` '<id>' ` |
| GlanceImage.DeleteFieldsCommand | cloudferrylib/os/image/glance_image.py:450-459 | no command for no ids; otherwise one UPDATE of the field, closed by a parenthesis |
| GlanceImage.DeleteFieldsIdList | cloudferrylib/os/image/glance_image.py:454-458 | the id list splits back on commas into the quoted ids |
| GlanceImage.ImageIdFromOutput | cloudferrylib/os/image/glance_image.py:480 | fewer than three `\|`-fields is an IndexError; the id holds no space and no `\|` |
| GlanceImage.RemovePadding | cloudferrylib/os/image/glance_image.py:480 | removing spaces from a padded id gives the id |
| GlanceImage.ImageIdFromTable | cloudferrylib/os/image/glance_image.py:475-481 | output whose third field is a padded id gives that id |
| ConvertComputeToImage.ImageIdFromVolume | cloudferrylib/os/actions/convert_compute_to_image.py:25-32 | the image id of the boot volume's image metadata; no boot volume is a TypeError, an unknown volume a KeyError |
| ConvertComputeToImage.ImageIdOf | cloudferrylib/os/actions/convert_compute_to_image.py:50-59 | with `image_id` bound per iteration: a boot-from-volume instance with volumes takes its boot volume's image, one without volumes is UnboundLocalError; otherwise image_id, or snapshot_id with the snapshot strategy (KeyError when missing) |
| ConvertComputeToImage.ImageIdAsWritten | cloudferrylib/os/actions/convert_compute_to_image.py:51-59 | as written, a boot-from-volume instance without volumes keeps the previous iteration's image id, and is UnboundLocalError only when it comes first; every other instance agrees with ImageIdOf |
| ConvertComputeToImage.AddInstance | cloudferrylib/os/actions/convert_compute_to_image.py:61-76 | a falsy id ignores the instance; a known id appends it, KeyError "instance" when that entry came from the image read; a new id gets the instance, every record read is merged over the body and overwrites entries already there |
| ConvertComputeToImage.GroupRunStopped | cloudferrylib/os/actions/convert_compute_to_image.py:49-76 | after a failure no later instance is looked at |
| ConvertComputeToImage.GroupRunFails | cloudferrylib/os/actions/convert_compute_to_image.py:49-76 | with per-iteration `image_id` and only the requested record merged, the run fails exactly when some instance's image cannot be resolved, with the first such error |
| ConvertComputeToImage.GroupedByImage | cloudferrylib/os/actions/convert_compute_to_image.py:61-74 | with per-iteration `image_id` and only the requested record merged, instances resolving to the same image id sit under one entry, in order, beside that image's record |
| ConvertComputeToImage.InstancesWithImageExist | cloudferrylib/os/actions/convert_compute_to_image.py:61-74 | an image has instances exactly when one of them resolves to it |
| ConvertComputeToImage.IgnoredWithoutImage | cloudferrylib/os/actions/convert_compute_to_image.py:61-76 | with per-iteration `image_id`, an instance is ignored exactly when its image id is falsy |
| ConvertComputeToImage.AsWrittenAgrees | cloudferrylib/os/actions/convert_compute_to_image.py:49-76 | the code as written and the corrected loop give the same result when no instance is a volume-less boot-from-volume one and every read returns at most the requested image |
| ConvertComputeToImage.StaleImageIdGroupsVolumeInstance | cloudferrylib/os/actions/convert_compute_to_image.py:51-55 | as written a volume-less boot-from-volume instance after an image-booted one joins that image's instances; with per-iteration `image_id` it is UnboundLocalError |
| ConvertComputeToImage.UnboundImageIdOnFirstInstance | cloudferrylib/os/actions/convert_compute_to_image.py:51-61 | a first volume-less boot-from-volume instance raises UnboundLocalError, as written and corrected |
| ConvertComputeToImage.SecondActiveImageRaises | cloudferrylib/os/actions/convert_compute_to_image.py:62-74 | as written, when the first image's read also returns a second image, an instance of that second image raises KeyError "instance"; merging only the requested record groups both |
| ConvertComputeToImage.ConvertComputeToImage.Resolve | cloudferrylib/os/actions/convert_compute_to_image.py:51-60 | the loop's choice of `image_id`, as written, is ImageIdAsWritten |
| ConvertComputeToImage.ConvertComputeToImage.Place | cloudferrylib/os/actions/convert_compute_to_image.py:61-76 | one iteration's bookkeeping, as written, is AddInstance over everything the image read returns |
| ConvertComputeToImage.ConvertComputeToImage.Run | cloudferrylib/os/actions/convert_compute_to_image.py:42-80 | the code as written: the target output and compute_ignored_images of the grouping run with `image_id` carried over and every read image merged, or the first exception |
| MapComputeInfo.MapEntry | cloudferrylib/os/actions/map_compute_info.py:43-54 | an unknown source flavor or destination flavor name is a KeyError |
| MapComputeInfo.MapEntryChanges | cloudferrylib/os/actions/map_compute_info.py:44-54 | the flavor becomes the destination id of the mapped name; the diff's destination becomes the temp base file on the destination host; nothing else changes |
| MapComputeInfo.DstFlavorNameRules | cloudferrylib/os/actions/map_compute_info.py:45-50 | the map renames only its keys, and "custom-" is prefixed after any mapping |
| MapComputeInfo.BaseFilesDistinct | cloudferrylib/os/actions/map_compute_info.py:52 | different instances get different base files |
| MapComputeInfo.MapComputeInfo.Run | cloudferrylib/os/actions/map_compute_info.py:29-57 | every instance is rewritten in order, or the first KeyError is returned |
| MapBootVolToDiff.MapEntry | cloudferrylib/os/actions/map_bootvol_to_diff.py:35-42 | no boot volume is a TypeError; an unknown volume a KeyError |
| MapBootVolToDiff.MapEntryChanges | cloudferrylib/os/actions/map_bootvol_to_diff.py:36-42 | the diff's destination host and path become the boot volume's, nothing else changes |
| MapBootVolToDiff.MapBootVolToDiff.Run | cloudferrylib/os/actions/map_bootvol_to_diff.py:30-46 | every instance is rewritten in order, or the first error is returned |
| IsBootFromVolume.NextPathFor | cloudferrylib/os/actions/is_boot_from_volume.py:28-33 | the direct flow exactly when the first instance boots from volume; no instance is an IndexError |
| IsBootFromVolume.OnlyFirstInstanceCounts | cloudferrylib/os/actions/is_boot_from_volume.py:31 | instances after the first do not change the path |
| IsBootFromVolume.IsBootFromVolume.Run | cloudferrylib/os/actions/is_boot_from_volume.py:28-35 | the path is reset to the default, then set as NextPathFor says; the result is empty |
| ConvertFile.ConvertFileToRaw | cloudferrylib/os/actions/convert_file.py:70-80 | the result is `<path>.tmp`, or the path itself with move_to_orig; one or two commands on the host; no path is an error |
| ConvertFile.ConvertedFileIsWritten | cloudferrylib/os/actions/convert_file.py:74-79 | the returned path is the file the conversion, or the move, wrote |
| ConvertFile.ConvertDiskEntry | cloudferrylib/os/actions/convert_file.py:50-53 | an instance fails exactly when its disk has no source path |
| ConvertFile.ConvertDiskEntryChanges | cloudferrylib/os/actions/convert_file.py:50-53 | the disk's path_src becomes the converted `<path>.tmp`; nothing else changes |
| ConvertFile.DiskRunStep | cloudferrylib/os/actions/convert_file.py:50-53 | one instance fails exactly when its disk has no source path |
| ConvertFile.DiskRunLength | cloudferrylib/os/actions/convert_file.py:49-53 | a run without error has one entry per instance |
| ConvertFile.DiskRunStopped | cloudferrylib/os/actions/convert_file.py:49-53 | after a failure later instances are left alone |
| ConvertFile.DiskRunFails | cloudferrylib/os/actions/convert_file.py:49-53 | the run fails exactly when some disk has no source path, at the first such |
| ConvertFile.DiskRunConverts | cloudferrylib/os/actions/convert_file.py:49-53 | a completed run rewrote every instance in order under its own id |
| ConvertFile.ImageCommands | cloudferrylib/os/actions/convert_file.py:61-67 | an unknown image is a KeyError; a raw image issues nothing |
| ConvertFile.ImageCommandsConvertBaseFile | cloudferrylib/os/actions/convert_file.py:65-67 | a non-raw image converts the instance's base file in place on the cloud host |
| ConvertFile.ImageRunStopped | cloudferrylib/os/actions/convert_file.py:60-67 | after a missing image nothing more is issued |
| ConvertFile.ImageRunFails | cloudferrylib/os/actions/convert_file.py:60-67 | the run fails exactly when an image is missing, at the first such |
| ConvertFile.ImageRunConverts | cloudferrylib/os/actions/convert_file.py:60-67 | a completed run holds each instance's commands in order |
| ConvertFile.ConvertFile.ConvertDisk | cloudferrylib/os/actions/convert_file.py:46-53 | a disk type other than diff or ephemeral is a TypeError with nothing run |
| ConvertFile.ConvertFile.ConvertEachDisk | cloudferrylib/os/actions/convert_file.py:49-53 | the loop performs DiskRun |
| ConvertFile.ConvertFile.ConvertImage | cloudferrylib/os/actions/convert_file.py:55-67 | nothing with convert_to_raw; otherwise the loop performs ImageRun |
| ConvertFile.ConvertFile.Run | cloudferrylib/os/actions/convert_file.py:32-44 | the file type picks image, diff or ephemeral conversion; other types return the info unchanged |

## Where the model follows the code rather than the description

- `Namespace.fork` without deep copy shares the variable store. That
  includes the `CHILDREN` registry, because `start_separate_thread`
  (scheduler.py:113) writes the process into the entry that `fork` made in
  the parent's registry. The description says a child registry is always
  fresh. `Scheduler.Namespace.Fork` shares it.
- `run_task` fires the end hook only when the executor does not raise
  (scheduler.py:58-61). The description says it always fires.
- The `img_loc` loop of `make_image_info` takes the first row whose value is
  not NULL. The loop breaks only once `img_loc` is set (glance_image.py:
  265-270). A NULL first row is therefore skipped, not returned.
- `recreate_floatingips` is called without a tenant (neutron.py:996-997). The
  first floating IP's tenant is therefore used for all the later ones.
- `get_members` creates an image's entry only when the image has a member
  (glance_image.py:197-199). Images without members get no key.
- `ConvertComputeToImage` asks the image resource for one image, but the
  glance `read_info` ignores its arguments and returns every active image
  (glance_image.py:226-240). The action's `update` merges all of them into
  its body. `ConvertComputeToImage.ConvertComputeToImage.Run` follows that,
  and keeps `image_id` from one iteration to the next as the loop does; both
  are listed under "## Findings".

## Left out

- Namespace: `namespace.py` is not part of this model. `Namespace` is
  reduced to a variable store and the `CHILDREN` registry.
- Child processes: `multiprocessing.Process` is recorded, never run. A
  started child runs only when its own `start_current_thread` is called.
- Remote clients: the clients, the database connector and fabric's `run`
  are function parameters or recorded commands. Their own failures
  (network errors, HTTP codes) are left out.
- Logging, `time.sleep` and timing: these are left out. The sleeps of the
  nova wait are recorded as a sequence of intervals.
- Neutron.ResourceHash: Python's `hash` of the sorted tuple is modelled as
  the multiset of normalised items. Two resources can collide under `hash`
  but not in the model.
- Neutron.ResourceHash: the elements of a list field are taken to be
  hashable scalars (strings, numbers, booleans, None); values have no dict
  case. The callers hash list fields whose elements are dicts
  (`allocation_pools`, neutron.py:243 and 254; `routes`, neutron.py:287 and
  305). Once their elements are hashed, `hash(tuple(...))` raises TypeError
  on them, so a working fix must also turn each dict into a hashable value.
  The corrected hash does not model that conversion or the TypeError.
- Neutron.NeutronNetwork.GetResourceHash: computes the corrected hash, with
  the same assumption on list elements.
- Neutron: the `str`/`unicode` distinction of Python 2 is not modelled.
  Every string value is lowered.
- Neutron: `netaddr.IPNetwork(...).cidr` is the function parameter
  `cidrNorm`. The address arithmetic is not modelled.
- Neutron.NeutronNetwork.AllocateFloatingIps: the loop that creates
  floating IPs until neutron answers 409 is one `Allocate` action. An answer
  other than 409 is left out.
- Neutron: the resource records are updated in place (`meta['id']`). The
  model returns these updates as values (`records`). Aliasing between the
  lists passed in is not modelled.
- Neutron: the part of `convert_routers` outside the address loop is left
  out. It builds the router dict from the router and a tenant lookup. So
  are `upload_routers` and `add_router_interfaces`.
- Neutron: the load-balancer uploads are not part of this model.
- GlanceImage.GlanceClientParams: the regular expression's `.` does not
  match a line break. An endpoint holding one is modelled as if it did.
- GlanceImage: `get_image_by_id` and `get_image_by_name` are not modelled.
  They are the same first-match search as `get_image` on one attribute.
- GlanceImage: `convert()` and the keystone lookups are the `convert` and
  `tenantNameById` parameters.
- GlanceImage: `deploy`, `read_info`, `patch_image` and the image
  create/delete calls are not part of this model.
- GlanceImage.IsSnapshot: the model cannot tell an image whose
  `properties` entry is None from one without the entry; both are not
  snapshots. In the source only a missing entry falls back to `{}`; for a
  None entry, `.get('image_type')` raises AttributeError
  (glance_image.py:185-188).
- GlanceImage.MakeImageInfo: `info` is updated in place; the model returns
  the new `info['images']`.
- NovaCompute: `convert_instance`, `convert_resources`, the resource
  deploys (flavors, key pairs, per-user quotas) and the SQL quota reads are
  not part of this model.
- NovaCompute.GetNetworks: the MAC function of the network resource is
  the parameter `macOf`; whether the resource has one is not derived from
  `dir(network)`. None stands for the fallback `default_detect_mac`.
- ConvertFile: `utl.DISK`, `utl.DISK_EPHEM` and `utl.RAW` come from a
  utilities file that is not part of this model. `DISK_EPHEM` is a
  constructor parameter, and the raw format's name is the constant "raw".
- ConvertFile.ImageCommands: the image's `disk_format` is a string, so a
  None format cannot be expressed. In the source, `.lower()` on None raises
  AttributeError (convert_file.py:66).
- ConvertFile.ConvertFileToRaw: a `None` path is modelled as an error of
  the path's `+`. The exact exception class is not modelled.
- Common.Lower and Common.EqualsIgnoreCase: only the ASCII letters A-Z
  are lowered. Python's `unicode.lower`, used by the resource comparison
  (resource.py:52) and the nova status lookups, also folds non-ASCII
  letters; strings holding such letters may compare unequal in the model
  where Python finds them equal.
- Deep copies of `info`: the actions work on values, so deep copying is
  implicit. The input is never changed.

## Findings

| source | as written | input that shows it | evidently intended | confidence | as-written member | corrected member |
|---|---|---|---|---|---|---|
| cloudferrylib/os/compute/nova_compute.py:575-577 | the wait lambdas poll `instance_id`, the argument, which is None when only `instance` is passed | `change_status("active", instance=<shut-off server>)`: the wait polls `servers.get(None)` | poll the server the plan acts on | not executed | NovaCompute.ChangeStatusAsWritten | NovaCompute.ChangeStatus |
| cloudferrylib/os/actions/convert_compute_to_image.py:51-55 | a boot-from-volume instance without volumes assigns nothing, so `image_id` keeps the previous iteration's value | an image-booted instance followed by a volume-less boot-from-volume instance: the second joins the first's image | an instance's image is never taken from another instance; with `image_id` bound in each iteration the missing assignment is an UnboundLocalError | not executed | ConvertComputeToImage.StaleImageIdGroupsVolumeInstance | ConvertComputeToImage.ImageIdOf |
| cloudferrylib/os/actions/convert_compute_to_image.py:62-74 | `read_info(image_id=...)` of the glance resource ignores its argument and returns every active image (glance_image.py:226-240); `update` merges all of them into the body | two instances booted from two different active images: the first merges the second image's record, whose meta has no `instance` key, and the second instance's append raises KeyError | only the requested image's record is merged, and each image lists its own instances | not executed | ConvertComputeToImage.SecondActiveImageRaises | ConvertComputeToImage.GroupedByImage |
| cloudferrylib/os/network/neutron.py:1077-1080 | a list field's loop iterates over `arg`, the field's name, not its value | two resources `{"k": ["a"]}` and `{"k": ["b"]}` hashed on `["k"]` get the same hash | hash the list's elements, which for dict elements such as allocation pools also needs a hashable form of each dict (not modelled: elements are taken to be scalars) | not executed | Neutron.ListFieldIgnoredAsWritten | Neutron.ResourceHash |
