/**
 * The deterministic core of the start/stop handler: region projection,
 * instance selection, the action-to-state mapping and the per-region
 * tag/start/stop decision. The SDK calls are replaced by an `Account`
 * snapshot going in and the list of issued `Command`s coming out.
 */
module Handler {
  import opened Ec2

  /** The key of the marker tag written on every instance the handler acts on. */
  const TagKey := "NodeAWSEC2StartStop"

  datatype Option<T> = None | Some(value: T)

  datatype Error = InvalidAction(actionType: string)

  datatype Result<T> = Ok(value: T) | Err(error: Error)

  // ---------------------------------------------------------------------
  // Region projection
  // ---------------------------------------------------------------------

  /** The names of the regions of a describeRegions response, one per record, in order. */
  function MapRegions(regions: seq<RegionRecord>): (names: seq<string>)
    ensures |names| == |regions|
    ensures forall i :: 0 <= i < |regions| ==> names[i] == regions[i].RegionName
  {
    if regions == [] then [] else [regions[0].RegionName] + MapRegions(regions[1..])
  }

  // ---------------------------------------------------------------------
  // Instance selection
  // ---------------------------------------------------------------------

  /** The ids, in order, of those `instances` whose state name is `status`. */
  function Matching(instances: seq<Instance>, status: string): (ids: seq<string>)
    ensures |ids| <= |instances|
  {
    if instances == [] then []
    else
      var last := instances[|instances| - 1];
      Matching(instances[..|instances| - 1], status)
        + (if last.State.Name == status then [last.InstanceId] else [])
  }

  /** The matching ids of every reservation, reservation after reservation. */
  function Selected(reservations: seq<Reservation>, status: string): (ids: seq<string>)
  {
    if reservations == [] then []
    else
      Selected(reservations[..|reservations| - 1], status)
        + Matching(reservations[|reservations| - 1].Instances, status)
  }

  /** All instances of all reservations, reservation after reservation. */
  function Flatten(reservations: seq<Reservation>): seq<Instance>
  {
    if reservations == [] then []
    else Flatten(reservations[..|reservations| - 1]) + reservations[|reservations| - 1].Instances
  }

  /** Some instance of some reservation has id `id` and state name `status`. */
  ghost predicate HasInstance(reservations: seq<Reservation>, id: string, status: string)
  {
    exists r, i :: 0 <= r < |reservations| && 0 <= i < |reservations[r].Instances|
      && reservations[r].Instances[i].InstanceId == id
      && reservations[r].Instances[i].State.Name == status
  }

  /** mapInstances: a nested walk over reservations and their instances, collecting matching ids. */
  method MapInstances(reservations: seq<Reservation>, status: string) returns (instances: seq<string>)
    ensures instances == Selected(reservations, status)
  {
    instances := [];
    for r := 0 to |reservations|
      invariant instances == Selected(reservations[..r], status)
    {
      var reservation := reservations[r];
      ghost var before := instances;
      for i := 0 to |reservation.Instances|
        invariant instances == before + Matching(reservation.Instances[..i], status)
      {
        var instance := reservation.Instances[i];
        if instance.State.Name == status {
          instances := instances + [instance.InstanceId];
        }
        assert reservation.Instances[..i + 1][..i] == reservation.Instances[..i];
      }
      assert reservation.Instances[..|reservation.Instances|] == reservation.Instances;
      assert reservations[..r + 1][..r] == reservations[..r];
    }
    assert reservations[..|reservations|] == reservations;
  }

  lemma {:induction false} MatchingMembership(instances: seq<Instance>, status: string, id: string)
    ensures id in Matching(instances, status) <==>
      exists i :: 0 <= i < |instances| && instances[i].InstanceId == id && instances[i].State.Name == status
  {
    if instances != [] {
      var n := |instances| - 1;
      var init := instances[..n];
      MatchingMembership(init, status, id);
      assert forall i :: 0 <= i < n ==> init[i] == instances[i];
      if exists i :: 0 <= i < |instances| && instances[i].InstanceId == id && instances[i].State.Name == status {
        var i :| 0 <= i < |instances| && instances[i].InstanceId == id && instances[i].State.Name == status;
        if i < n {
          assert init[i] == instances[i];
        }
      }
    }
  }

  /** Every selected id is that of an instance in state `status`, and every such instance's id is selected. */
  lemma {:induction false} SelectedMembership(reservations: seq<Reservation>, status: string, id: string)
    ensures id in Selected(reservations, status) <==> HasInstance(reservations, id, status)
  {
    if reservations != [] {
      var n := |reservations| - 1;
      var init := reservations[..n];
      var last := reservations[n];
      SelectedMembership(init, status, id);
      MatchingMembership(last.Instances, status, id);
      if id in Selected(reservations, status) {
        if id in Selected(init, status) {
          var r, i :| 0 <= r < |init| && 0 <= i < |init[r].Instances|
            && init[r].Instances[i].InstanceId == id && init[r].Instances[i].State.Name == status;
          assert reservations[r] == init[r];
        } else {
          var i :| 0 <= i < |last.Instances| && last.Instances[i].InstanceId == id
            && last.Instances[i].State.Name == status;
          assert reservations[n].Instances[i] == last.Instances[i];
        }
      }
      if HasInstance(reservations, id, status) {
        var r, i :| 0 <= r < |reservations| && 0 <= i < |reservations[r].Instances|
          && reservations[r].Instances[i].InstanceId == id && reservations[r].Instances[i].State.Name == status;
        if r < n {
          assert init[r] == reservations[r];
          assert HasInstance(init, id, status);
        }
      }
    }
  }

  /** Nothing is selected exactly when no instance is in state `status`. */
  lemma SelectedEmpty(reservations: seq<Reservation>, status: string)
    ensures Selected(reservations, status) == [] <==>
      forall r, i :: 0 <= r < |reservations| && 0 <= i < |reservations[r].Instances| ==>
        reservations[r].Instances[i].State.Name != status
  {
    var ids := Selected(reservations, status);
    if ids != [] {
      SelectedMembership(reservations, status, ids[0]);
    } else {
      forall r, i | 0 <= r < |reservations| && 0 <= i < |reservations[r].Instances|
        ensures reservations[r].Instances[i].State.Name != status
      {
        SelectedMembership(reservations, status, reservations[r].Instances[i].InstanceId);
      }
    }
  }

  /** Filtering distributes over concatenation: the matching ids keep the order of the instances. */
  lemma {:induction false} MatchingConcat(a: seq<Instance>, b: seq<Instance>, status: string)
    ensures Matching(a + b, status) == Matching(a, status) + Matching(b, status)
  {
    if b == [] {
      assert a + b == a;
    } else {
      var n := |b| - 1;
      assert (a + b)[..|a + b| - 1] == a + b[..n];
      assert (a + b)[|a + b| - 1] == b[n];
      MatchingConcat(a, b[..n], status);
    }
  }

  /** The nested selection is one filter over all instances in reservation-then-instance order. */
  lemma {:induction false} SelectedIsMatchingOfFlatten(reservations: seq<Reservation>, status: string)
    ensures Selected(reservations, status) == Matching(Flatten(reservations), status)
  {
    if reservations != [] {
      var n := |reservations| - 1;
      SelectedIsMatchingOfFlatten(reservations[..n], status);
      MatchingConcat(Flatten(reservations[..n]), reservations[n].Instances, status);
    }
  }

  /** The selection of consecutive groups of reservations is the concatenation of their selections. */
  lemma {:induction false} SelectedConcat(a: seq<Reservation>, b: seq<Reservation>, status: string)
    ensures Selected(a + b, status) == Selected(a, status) + Selected(b, status)
  {
    if b == [] {
      assert a + b == a;
    } else {
      var n := |b| - 1;
      assert (a + b)[..|a + b| - 1] == a + b[..n];
      assert (a + b)[|a + b| - 1] == b[n];
      SelectedConcat(a, b[..n], status);
    }
  }

  /** No more ids are selected than there are instances in all reservations. */
  lemma {:induction false} SelectedLength(reservations: seq<Reservation>, status: string)
    ensures |Selected(reservations, status)| <= |Flatten(reservations)|
  {
    SelectedIsMatchingOfFlatten(reservations, status);
  }

  // ---------------------------------------------------------------------
  // Action dispatch
  // ---------------------------------------------------------------------

  /** The state an action selects instances in: START looks for stopped ones, STOP for running ones. */
  function StatusFor(actionType: string): (r: Result<string>)
    ensures r.Ok? <==> actionType == "START" || actionType == "STOP"
  {
    if actionType == "START" then Ok("stopped")
    else if actionType == "STOP" then Ok("running")
    else Err(InvalidAction(actionType))
  }

  /** discoverRegionInstances: the ids selected in one region, or None when its discovery failed. */
  function Discovered(account: Account, region: string, status: string): Option<seq<string>>
  {
    if region in account.Described then Some(Selected(account.Described[region], status)) else None
  }

  /** The requests one region receives once its selected ids are known. */
  function RegionCommands(actionType: string, region: string, ids: seq<string>, stamp: string): seq<Command>
  {
    if ids == [] then []
    else
      [CreateTags(region, ids, TagKey, stamp)]
        + (if actionType == "START" then [Start(region, ids)]
           else if actionType == "STOP" then [Stop(region, ids)]
           else [])
  }

  /**
   * The requests one region receives, nothing when its discovery failed.
   * `clock(region)` is the tag value that region's continuation reads from
   * the clock.
   */
  function RegionPlan(account: Account, actionType: string, status: string, region: string, clock: string -> string): seq<Command>
  {
    match Discovered(account, region, status)
    case None => []
    case Some(ids) => RegionCommands(actionType, region, ids, clock(region))
  }

  /** The requests of every region in `regions`, region after region. */
  function Fanout(account: Account, actionType: string, status: string, regions: seq<string>, clock: string -> string): seq<Command>
  {
    if regions == [] then []
    else
      Fanout(account, actionType, status, regions[..|regions| - 1], clock)
        + RegionPlan(account, actionType, status, regions[|regions| - 1], clock)
  }

  /**
   * The whole run for `actionType`: an invalid action is an error and
   * touches no region; otherwise the requests of every region.
   */
  function Plan(actionType: string, account: Account, clock: string -> string): (r: Result<seq<Command>>)
    ensures r.Err? <==> actionType != "START" && actionType != "STOP"
    ensures r.Err? ==> r.error == InvalidAction(actionType)
  {
    match StatusFor(actionType)
    case Err(e) => Err(e)
    case Ok(status) => Ok(Fanout(account, actionType, status, MapRegions(account.Regions), clock))
  }

  /** discoverRegionInstances over the account snapshot. */
  method DiscoverRegionInstances(account: Account, region: string, status: string) returns (found: Option<seq<string>>)
    ensures found.Some? <==> region in account.Described
    ensures found.Some? ==> forall id :: id in found.value <==> HasInstance(account.Described[region], id, status)
    ensures found == Discovered(account, region, status)
  {
    if region in account.Described {
      var instances := MapInstances(account.Described[region], status);
      forall id ensures id in instances <==> HasInstance(account.Described[region], id, status) {
        SelectedMembership(account.Described[region], status, id);
      }
      found := Some(instances);
    } else {
      found := None;
    }
  }

  /**
   * The continuation that runs once one region's instances are discovered:
   * nothing when discovery failed or found no id, otherwise a tag request
   * carrying the clock reading taken there and the start or stop request,
   * both over all the ids.
   */
  method ProcessRegion(actionType: string, account: Account, status: string, region: string, clock: string -> string)
    returns (issued: seq<Command>)
    ensures issued == RegionPlan(account, actionType, status, region, clock)
  {
    issued := [];
    var found := DiscoverRegionInstances(account, region, status);
    match found {
      case None =>
        // instance discovery failed: nothing is issued for this region
      case Some(instances) =>
        if |instances| != 0 {
          var stamp := clock(region);
          issued := issued + [CreateTags(region, instances, TagKey, stamp)];
          if actionType == "START" {
            issued := issued + [Start(region, instances)];
          } else if actionType == "STOP" {
            issued := issued + [Stop(region, instances)];
          }
        }
    }
  }

  /**
   * _startStopInstances: map the action to the state to look for, then for
   * every region tag and start or stop the instances found in that state.
   */
  method StartStopInstances(actionType: string, account: Account, clock: string -> string) returns (outcome: Result<seq<Command>>)
    ensures outcome == Plan(actionType, account, clock)
  {
    var instStatusName: string;
    if actionType == "START" {
      instStatusName := "stopped";
    } else if actionType == "STOP" {
      instStatusName := "running";
    } else {
      outcome := Err(InvalidAction(actionType));
      return;
    }

    var regions := MapRegions(account.Regions);
    var commands: seq<Command> := [];
    for i := 0 to |regions|
      invariant commands == Fanout(account, actionType, instStatusName, regions[..i], clock)
    {
      var issued := ProcessRegion(actionType, account, instStatusName, regions[i], clock);
      assert regions[..i + 1][..i] == regions[..i];
      commands := commands + issued;
    }
    assert regions[..|regions|] == regions;
    outcome := Ok(commands);
  }

  // ---------------------------------------------------------------------
  // Properties of a run
  // ---------------------------------------------------------------------

  /** The state an instance must be observed in for `actionType` to act on it. */
  function Required(actionType: string): string
    requires StatusFor(actionType).Ok?
  {
    StatusFor(actionType).value
  }

  /** A well-formed request of a run for `actionType` in `account`, tagged with its region's clock reading. */
  ghost predicate Sound(account: Account, actionType: string, clock: string -> string, c: Command)
    requires actionType == "START" || actionType == "STOP"
  {
    && c.Ids() != []
    && c.region in account.Described
    && (forall id :: id in c.Ids() ==> HasInstance(account.Described[c.region], id, Required(actionType)))
    && (c.CreateTags? ==> c.Key == TagKey && c.Value == clock(c.region))
    && (c.Start? ==> actionType == "START")
    && (c.Stop? ==> actionType == "STOP")
  }

  lemma {:induction false} FanoutSound(account: Account, actionType: string, regions: seq<string>, clock: string -> string)
    requires actionType == "START" || actionType == "STOP"
    ensures forall c :: c in Fanout(account, actionType, Required(actionType), regions, clock) ==>
      c.region in regions && Sound(account, actionType, clock, c)
  {
    if regions != [] {
      var n := |regions| - 1;
      var status := Required(actionType);
      FanoutSound(account, actionType, regions[..n], clock);
      var region := regions[n];
      if region in account.Described {
        var rs := account.Described[region];
        forall id | id in Selected(rs, status) ensures HasInstance(rs, id, status) {
          SelectedMembership(rs, status, id);
        }
      }
    }
  }

  /**
   * Every request of a valid run acts on a non-empty list of instances of its
   * region that were observed in the state the action requires; tags carry
   * the marker key and the clock reading of their region; a START run never stops and a STOP
   * run never starts.
   */
  lemma PlanSound(actionType: string, account: Account, clock: string -> string)
    requires Plan(actionType, account, clock).Ok?
    ensures actionType == "START" ==> Required(actionType) == "stopped"
    ensures actionType == "STOP" ==> Required(actionType) == "running"
    ensures forall c :: c in Plan(actionType, account, clock).value ==>
      c.region in MapRegions(account.Regions) && Sound(account, actionType, clock, c)
  {
    FanoutSound(account, actionType, MapRegions(account.Regions), clock);
  }

  lemma {:induction false} FanoutContains(account: Account, actionType: string, status: string, regions: seq<string>, clock: string -> string, k: nat)
    requires k < |regions|
    ensures forall c :: c in RegionPlan(account, actionType, status, regions[k], clock) ==>
      c in Fanout(account, actionType, status, regions, clock)
  {
    var n := |regions| - 1;
    if k < n {
      assert regions[..n][k] == regions[k];
      FanoutContains(account, actionType, status, regions[..n], clock, k);
    }
  }

  /**
   * Every instance observed in the required state in a region that answered
   * is both tagged and started (START) or stopped (STOP).
   */
  lemma PlanComplete(actionType: string, account: Account, clock: string -> string, k: nat, id: string)
    requires actionType == "START" || actionType == "STOP"
    requires k < |account.Regions|
    requires account.Regions[k].RegionName in account.Described
    requires HasInstance(account.Described[account.Regions[k].RegionName], id, Required(actionType))
    ensures exists c :: (c in Plan(actionType, account, clock).value && c.CreateTags?
      && c.region == account.Regions[k].RegionName && id in c.Ids())
    ensures exists c :: (c in Plan(actionType, account, clock).value
      && (if actionType == "START" then c.Start? else c.Stop?)
      && c.region == account.Regions[k].RegionName && id in c.Ids())
  {
    var regions := MapRegions(account.Regions);
    var region := regions[k];
    var status := Required(actionType);
    var ids := Selected(account.Described[region], status);
    SelectedMembership(account.Described[region], status, id);
    FanoutContains(account, actionType, status, regions, clock, k);
    var tag := CreateTags(region, ids, TagKey, clock(region));
    var change := if actionType == "START" then Start(region, ids) else Stop(region, ids);
    assert RegionPlan(account, actionType, status, region, clock) == [tag, change];
    assert tag in Plan(actionType, account, clock).value;
    assert change in Plan(actionType, account, clock).value;
  }

  /** The requests of consecutive groups of regions are the concatenation of each group's. */
  lemma {:induction false} FanoutConcat(account: Account, actionType: string, status: string, a: seq<string>, b: seq<string>, clock: string -> string)
    ensures Fanout(account, actionType, status, a + b, clock)
      == Fanout(account, actionType, status, a, clock) + Fanout(account, actionType, status, b, clock)
  {
    if b == [] {
      assert a + b == a;
    } else {
      var n := |b| - 1;
      assert (a + b)[..|a + b| - 1] == a + b[..n];
      assert (a + b)[|a + b| - 1] == b[n];
      FanoutConcat(account, actionType, status, a, b[..n], clock);
    }
  }

  /**
   * A region whose instance discovery failed receives nothing and changes
   * nothing about what the regions before and after it receive.
   */
  lemma FailedRegionIsolated(account: Account, actionType: string, status: string, a: seq<string>, region: string, b: seq<string>, clock: string -> string)
    requires region !in account.Described
    ensures Fanout(account, actionType, status, a + [region] + b, clock)
      == Fanout(account, actionType, status, a, clock) + Fanout(account, actionType, status, b, clock)
  {
    FanoutConcat(account, actionType, status, a + [region], b, clock);
    assert (a + [region])[..|a|] == a;
    assert RegionPlan(account, actionType, status, region, clock) == [];
  }

  /** The requests of `commands` addressed to `region`: its tags when `tagging`, else its state changes. */
  function Addressed(commands: seq<Command>, region: string, tagging: bool): seq<Command>
  {
    if commands == [] then []
    else
      var c := commands[|commands| - 1];
      Addressed(commands[..|commands| - 1], region, tagging)
        + (if c.region == region && c.CreateTags? == tagging then [c] else [])
  }

  lemma {:induction false} AddressedConcat(a: seq<Command>, b: seq<Command>, region: string, tagging: bool)
    ensures Addressed(a + b, region, tagging) == Addressed(a, region, tagging) + Addressed(b, region, tagging)
  {
    if b == [] {
      assert a + b == a;
    } else {
      var n := |b| - 1;
      assert (a + b)[..|a + b| - 1] == a + b[..n];
      assert (a + b)[|a + b| - 1] == b[n];
      AddressedConcat(a, b[..n], region, tagging);
    }
  }

  /** The tag requests one region's discovery result leads to: one over all ids, or none. */
  function ExpectedTags(found: Option<seq<string>>, region: string, stamp: string): seq<Command>
  {
    match found
    case Some(ids) => if ids == [] then [] else [CreateTags(region, ids, TagKey, stamp)]
    case None => []
  }

  /** The state-change requests one region's discovery result leads to: one over all ids, or none. */
  function ExpectedChanges(found: Option<seq<string>>, actionType: string, region: string): seq<Command>
  {
    match found
    case Some(ids) =>
      if ids == [] then [] else [if actionType == "START" then Start(region, ids) else Stop(region, ids)]
    case None => []
  }

  /** The tag requests (`tagging`) or the state-change requests one region's discovery result leads to. */
  function Expected(found: Option<seq<string>>, actionType: string, region: string, stamp: string, tagging: bool): seq<Command>
  {
    if tagging then ExpectedTags(found, region, stamp) else ExpectedChanges(found, actionType, region)
  }

  /** What one region's requests contribute to the requests addressed to `region`. */
  lemma RegionPlanAddressed(account: Account, actionType: string, r: string, clock: string -> string, region: string, tagging: bool)
    requires actionType == "START" || actionType == "STOP"
    ensures Addressed(RegionPlan(account, actionType, Required(actionType), r, clock), region, tagging)
      == if r != region then [] else Expected(Discovered(account, r, Required(actionType)), actionType, region, clock(r), tagging)
  {
    var cmds := RegionPlan(account, actionType, Required(actionType), r, clock);
    if cmds != [] {
      var ids := Discovered(account, r, Required(actionType)).value;
      assert cmds == [CreateTags(r, ids, TagKey, clock(r)), if actionType == "START" then Start(r, ids) else Stop(r, ids)];
      assert cmds[..1] == [cmds[0]];
      assert cmds[..1][..0] == [];
      assert Addressed(cmds[..1], region, tagging) == (if r == region && tagging then [cmds[0]] else []);
    }
  }

  lemma {:induction false} FanoutAddressed(account: Account, actionType: string, regions: seq<string>, clock: string -> string, region: string, tagging: bool)
    requires actionType == "START" || actionType == "STOP"
    requires forall i, j :: 0 <= i < j < |regions| ==> regions[i] != regions[j]
    ensures Addressed(Fanout(account, actionType, Required(actionType), regions, clock), region, tagging)
      == Expected(if region in regions then Discovered(account, region, Required(actionType)) else None,
                  actionType, region, clock(region), tagging)
  {
    if regions != [] {
      var n := |regions| - 1;
      var status := Required(actionType);
      var init := regions[..n];
      var r := regions[n];
      assert regions == init + [r];
      FanoutAddressed(account, actionType, init, clock, region, tagging);
      var before := Fanout(account, actionType, status, init, clock);
      var last := RegionPlan(account, actionType, status, r, clock);
      assert Fanout(account, actionType, status, regions, clock) == before + last;
      AddressedConcat(before, last, region, tagging);
      RegionPlanAddressed(account, actionType, r, clock, region, tagging);
      if r == region {
        assert region !in init;
        assert Addressed(before, region, tagging) == [];
      } else {
        assert (region in regions) == (region in init);
      }
    }
  }

  /**
   * With each region listed once, a region of the catalog whose discovery
   * found ids gets exactly one tag request and exactly one state-change
   * request, both over the full list of ids; a region with no ids, a failed
   * region and a region outside the catalog get neither.
   */
  lemma PlanPerRegion(actionType: string, account: Account, clock: string -> string, region: string)
    requires actionType == "START" || actionType == "STOP"
    requires forall i, j :: 0 <= i < j < |account.Regions| ==> account.Regions[i].RegionName != account.Regions[j].RegionName
    ensures var cmds := Plan(actionType, account, clock).value;
      var found := if region in MapRegions(account.Regions) then Discovered(account, region, Required(actionType)) else None;
      && Addressed(cmds, region, true) == ExpectedTags(found, region, clock(region))
      && Addressed(cmds, region, false) == ExpectedChanges(found, actionType, region)
  {
    var names := MapRegions(account.Regions);
    FanoutAddressed(account, actionType, names, clock, region, true);
    FanoutAddressed(account, actionType, names, clock, region, false);
  }

  /**
   * Two regions; us-east-1 holds a stopped i-1 and a running i-2, us-west-2
   * holds nothing. START tags and starts i-1 in us-east-1 and issues nothing
   * for us-west-2; STOP does the same for i-2.
   */
  lemma TwoRegionRun(clock: string -> string)
    ensures var account := Account([RegionRecord("us-east-1"), RegionRecord("us-west-2")],
        map["us-east-1" := [Reservation([Instance("i-1", InstanceState("stopped")), Instance("i-2", InstanceState("running"))])],
            "us-west-2" := []]);
      && Plan("START", account, clock) == Ok([CreateTags("us-east-1", ["i-1"], TagKey, clock("us-east-1")), Start("us-east-1", ["i-1"])])
      && Plan("STOP", account, clock) == Ok([CreateTags("us-east-1", ["i-2"], TagKey, clock("us-east-1")), Stop("us-east-1", ["i-2"])])
  {
    var account := Account([RegionRecord("us-east-1"), RegionRecord("us-west-2")],
        map["us-east-1" := [Reservation([Instance("i-1", InstanceState("stopped")), Instance("i-2", InstanceState("running"))])],
            "us-west-2" := []]);
    var names := MapRegions(account.Regions);
    assert names == ["us-east-1", "us-west-2"];
    assert names[..1] == ["us-east-1"];
    var rs := account.Described["us-east-1"];
    var instances := rs[0].Instances;
    assert instances[..1] == [instances[0]];
    assert rs[..0] == [];
    assert Selected(rs, "stopped") == ["i-1"];
    assert Selected(rs, "running") == ["i-2"];
    assert Selected([], "stopped") == [] && Selected([], "running") == [];
    assert names[..1][..0] == [];
    assert Fanout(account, "START", "stopped", names[..1], clock) == [CreateTags("us-east-1", ["i-1"], TagKey, clock("us-east-1")), Start("us-east-1", ["i-1"])];
    assert RegionPlan(account, "START", "stopped", "us-west-2", clock) == [];
    assert Fanout(account, "STOP", "running", names[..1], clock) == [CreateTags("us-east-1", ["i-2"], TagKey, clock("us-east-1")), Stop("us-east-1", ["i-2"])];
    assert RegionPlan(account, "STOP", "running", "us-west-2", clock) == [];
    assert Fanout(account, "START", "stopped", names, clock) == [CreateTags("us-east-1", ["i-1"], TagKey, clock("us-east-1")), Start("us-east-1", ["i-1"])];
    assert Fanout(account, "STOP", "running", names, clock) == [CreateTags("us-east-1", ["i-2"], TagKey, clock("us-east-1")), Stop("us-east-1", ["i-2"])];
    assert StatusFor("START") == Ok("stopped") && StatusFor("STOP") == Ok("running");
  }

  /** With no region in the catalog, a STOP run succeeds and issues nothing. */
  lemma NoRegionRun(described: map<string, seq<Reservation>>, clock: string -> string)
    ensures Plan("STOP", Account([], described), clock) == Ok([])
  {
  }

  /**
   * When instance discovery fails in us-west-2, us-east-1 is still tagged and
   * started.
   */
  lemma FailedRegionRun(clock: string -> string)
    ensures var account := Account([RegionRecord("us-west-2"), RegionRecord("us-east-1")],
        map["us-east-1" := [Reservation([Instance("i-1", InstanceState("stopped"))])]]);
      Plan("START", account, clock) == Ok([CreateTags("us-east-1", ["i-1"], TagKey, clock("us-east-1")), Start("us-east-1", ["i-1"])])
  {
    var account := Account([RegionRecord("us-west-2"), RegionRecord("us-east-1")],
        map["us-east-1" := [Reservation([Instance("i-1", InstanceState("stopped"))])]]);
    var names := MapRegions(account.Regions);
    assert names == ["us-west-2", "us-east-1"];
    assert names[..1] == ["us-west-2"];
    assert "us-west-2" !in account.Described;
    var rs := account.Described["us-east-1"];
    assert rs[..0] == [];
    assert rs[0].Instances[..0] == [];
    assert Selected(rs, "stopped") == ["i-1"];
    assert names[..1][..0] == [];
    assert Fanout(account, "START", "stopped", names[..1], clock) == [];
    assert Discovered(account, "us-east-1", "stopped") == Some(["i-1"]);
    assert RegionPlan(account, "START", "stopped", "us-east-1", clock) == [CreateTags("us-east-1", ["i-1"], TagKey, clock("us-east-1")), Start("us-east-1", ["i-1"])];
    assert Fanout(account, "START", "stopped", names, clock) == [CreateTags("us-east-1", ["i-1"], TagKey, clock("us-east-1")), Start("us-east-1", ["i-1"])];
    assert StatusFor("START") == Ok("stopped");
  }

  // ---------------------------------------------------------------------
  // Entry points
  // ---------------------------------------------------------------------

  /** startInstances: the run for START, which never reports an invalid action and never stops anything. */
  method StartInstances(account: Account, clock: string -> string) returns (outcome: Result<seq<Command>>)
    ensures outcome == Plan("START", account, clock)
    ensures outcome.Ok?
    ensures forall c :: c in outcome.value ==> c.CreateTags? || c.Start?
  {
    outcome := StartStopInstances("START", account, clock);
    PlanSound("START", account, clock);
  }

  /** stopInstances: the run for STOP, which never reports an invalid action and never starts anything. */
  method StopInstances(account: Account, clock: string -> string) returns (outcome: Result<seq<Command>>)
    ensures outcome == Plan("STOP", account, clock)
    ensures outcome.Ok?
    ensures forall c :: c in outcome.value ==> c.CreateTags? || c.Stop?
  {
    outcome := StartStopInstances("STOP", account, clock);
    PlanSound("STOP", account, clock);
  }
}
