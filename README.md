# nodeAwsEc2StartStop: the start/stop decision core in Dafny

The handler is a scheduled Lambda function. It starts every stopped EC2 instance, or stops every running one, in every region of an account, and gives each affected instance the marker tag `NodeAWSEC2StartStop`. This project models the deterministic logic under the SDK calls:

- **`mapRegions`** projects a describeRegions response onto region names.
- **`mapInstances`** walks the reservations of a describeInstances response and collects, in order, the ids of the instances whose `State.Name` equals the requested status.
- **`_startStopInstances`** maps the action to a status (`START` → `"stopped"`, `STOP` → `"running"`) and rejects any other action. For each region it then issues nothing when no id was selected. Otherwise it issues one `createTags` over all the ids, followed by one `startInstances` or `stopInstances` over the same ids.
- **`startInstances` / `stopInstances`** are the two entry points. Each calls the orchestrator with a fixed action.

The SDK calls are replaced by values:

- The account comes in as an `Ec2.Account` snapshot: the describeRegions records, plus the reservations that describeInstances returned for each region that answered. A region missing from that map stands for one whose instance discovery failed. That is an idealisation of the error path; see "## Left out".
- What the handler sends comes out as a list of `Ec2.Command` values: `CreateTags(region, Resources, Key, Value)`, `Start(region, InstanceIds)` and `Stop(region, InstanceIds)`.
- The tag value (`Date.now().toString()` in the source) is read inside each region's own continuation. It is modelled by a `clock: string -> string` parameter, and a region's tag request carries `clock(region)`, so different regions may be tagged with different values.

Files:

- `ec2.dfy` (module `Ec2`): the response and request shapes.
- `handler.dfy` (module `Handler`): the operations and their properties.
  - `MapInstances` and `StartStopInstances` keep the source's loops. Each is proved equal to a specification function: `Selected` and `Plan`. `ProcessRegion` is the per-region continuation, proved equal to `RegionPlan`.
  - The lemmas state what those functions guarantee.

On an invalid action: `reject` is not in scope inside the promise executor (handler.js:77-86), so line 85 throws. That aborts the executor before region discovery (line 88), and the returned promise is rejected. The caller does see a failure, but with a `ReferenceError` about `reject` rather than the intended `Invalid action` message. The model returns `Err(InvalidAction(actionType))` and issues no command. `Ok` only means that no invalid-action error occurred; it does not mean the returned promise resolves (see "## Left out").

## Model

| member | source | states |
|---|---|---|
| `Handler.MapRegions` | handler.js:21-23 | exactly one name per region record, same length and order; element i is `regions[i].RegionName` |
| `Handler.MapInstances` | handler.js:32-40 | the nested reservation/instance loop collects exactly `Selected(reservations, status)` |
| `Handler.Matching` | handler.js:34-37 | the matching ids of one reservation's instances number at most its instances |
| `Handler.MatchingMembership` | handler.js:34-37 | an id is among one reservation's matching ids iff some instance there has that id and state name `status` |
| `Handler.SelectedMembership` | handler.js:32-40 | an id is selected iff some instance of some reservation has that id and state name `status` (every result matches, every match is in the result) |
| `Handler.SelectedEmpty` | handler.js:33-39 | the selection is empty iff no instance of any reservation is in state `status` |
| `Handler.MatchingConcat` | handler.js:34-38 | filtering instances distributes over concatenation, so the matching ids keep the instances' order |
| `Handler.SelectedIsMatchingOfFlatten` | handler.js:34-38 | the nested selection equals one filter over all instances in reservation-then-instance order |
| `Handler.SelectedConcat` | handler.js:34-38 | the selection over consecutive groups of reservations is the concatenation of the groups' selections |
| `Handler.SelectedLength` | handler.js:33-39 | no more ids are selected than there are instances across all reservations |
| `Handler.StatusFor` | handler.js:78-86 | the action is accepted exactly when it is `START` or `STOP` |
| `Handler.Plan` | handler.js:78-88 | a run fails exactly for an action other than `START`/`STOP`, and then with `InvalidAction(actionType)`, whatever the account holds |
| `Handler.DiscoverRegionInstances` | handler.js:60-66 | a region that answered yields exactly the ids of its instances in the requested state; a failed region yields `None` |
| `Handler.ProcessRegion` | handler.js:94-137 | one region's continuation issues exactly `RegionPlan`: nothing for a failed discovery or an empty id list, otherwise the tag request with that region's clock reading and the start or stop request over the same ids |
| `Handler.StartStopInstances` | handler.js:74-152 | the if/else status mapping and the per-region loop issue exactly `Plan(actionType, account, clock)` |
| `Handler.PlanSound` | handler.js:94-130 | in a valid run, START maps to `"stopped"` and STOP to `"running"`. Every issued request names a catalog region that answered, and covers a non-empty list of ids of instances seen there in that state. Tags carry key `NodeAWSEC2StartStop` and the clock reading of their own region. A START run never stops and a STOP run never starts |
| `Handler.PlanComplete` | handler.js:91-130 | every instance seen in the required state, in a catalog region that answered, is in some tag request and some start (START) or stop (STOP) request for that region |
| `Handler.PlanPerRegion` | handler.js:97-130 | with each region listed once, a region with selected ids gets exactly one tag request and exactly one start/stop request, both over the full id list. A region with no ids, a failed region and a region outside the catalog get none |
| `Handler.FanoutConcat` | handler.js:91-137 | the requests for consecutive groups of regions are the concatenation of each group's, so each region's requests depend only on that region |
| `Handler.FailedRegionIsolated` | handler.js:94-137 | under the idealised failure path, a region whose instance discovery failed gets nothing and leaves the requests of the other regions unchanged |
| `Handler.TwoRegionRun` | handler.js:88-137 | us-east-1 holds stopped i-1 and running i-2, and us-west-2 holds nothing. START issues exactly tag + start of `[i-1]` in us-east-1; STOP issues exactly tag + stop of `[i-2]`; us-west-2 gets no request |
| `Handler.NoRegionRun` | handler.js:88-91 | with an empty region catalog a STOP run issues no request and reports no invalid-action error (a scenario, proved without proof steps) |
| `Handler.FailedRegionRun` | handler.js:94-137 | under the idealised failure path, when discovery fails in us-west-2, us-east-1 is still tagged and started |
| `Handler.StartInstances` | handler.js:172-174 | the START run: it never reports an invalid-action error and issues only tag and start requests |
| `Handler.StopInstances` | handler.js:161-163 | the STOP run: it never reports an invalid-action error and issues only tag and stop requests |

## Left out

- The AWS SDK calls (`describeRegions`, `describeInstances`, `createTags`, `startInstances`, `stopInstances`) and the construction of `AWS.EC2` clients are foreign network calls. They become the `Account` input and the `Command` output.
- Promises, callbacks and completion order are asynchrony, not logic. This includes the `'Done'` log printed before any region finishes (handler.js:150) and the fact that the tag and state-change calls are not sequenced with each other. The model lists requests region by region in catalog order, each region's tag request before its state change. In the source, the requests of different regions go out in whatever order the describeInstances responses come back.
- The tag value `Date.now().toString()` (handler.js:109) is a clock read, taken once per region in that region's continuation. The `clock` parameter gives one reading per region name; two catalog entries with the same name would share a reading (describeRegions lists each region once).
- `console.log` output, and the logging in `.catch` at handler.js:146-148, are side-effecting I/O.
- The SDK error paths are left out. The describeInstances callback ignores `error` and dereferences `response` (handler.js:63-65). On an error that throws a TypeError inside the callback, outside the promise executor, so the promise of `discoverRegionInstances` stays pending and the rejection handler at handler.js:134-136 can never run. The model's "a region absent from `Account.Described` gets no request, and the other regions are unchanged" (`FailedRegionIsolated`, `FailedRegionRun`) is an idealisation of that path. Nothing in the code guarantees it, since the uncaught exception may end the invocation.
- describeRegions failure is also left out. That callback ignores `error` too (handler.js:50-52), and the run's rejection handler at handler.js:143-145 only logs. The model assumes the region catalog was obtained.
- The Lambda `event` and `context` parameters of the entry points (handler.js:161-174) are unused by the code.
- Completion and failure of individual tag/start/stop requests are left out. Their callbacks only log, and nothing depends on their outcome.
- What the returned promise does is left out. `resolve` is called only by the first tag, start or stop callback of any region (handler.js:113-114, 121-122, 127-128) or by the unreachable handler at handler.js:135. The promise therefore resolves as soon as any one request completes, and never settles when no request is issued (an empty catalog, or no matching instance anywhere). `Plan` returning `Ok` does not mean the promise resolves.
