/**
 * The EC2 control-plane data the handler reads (the describeRegions and
 * describeInstances responses, reduced to the fields it uses) and the
 * requests it issues (createTags, startInstances, stopInstances), as values.
 * Field names follow the SDK's own.
 */
module Ec2 {

  /** One entry of a describeRegions response. */
  datatype RegionRecord = RegionRecord(RegionName: string)

  /** The lifecycle state of an instance as describeInstances reports it ("running", "stopped", ...). */
  datatype InstanceState = InstanceState(Name: string)

  datatype Instance = Instance(InstanceId: string, State: InstanceState)

  /** A reservation groups the instances that were launched together. */
  datatype Reservation = Reservation(Instances: seq<Instance>)

  /**
   * The account as the handler's SDK calls observe it during one run:
   * `Regions` is what describeRegions answers, and `Described` holds, for
   * every region whose describeInstances call answered, the reservations it
   * returned. A region name absent from `Described` stands for one whose
   * instance discovery failed (an idealisation: the handler's own error path
   * for that case is never reached).
   */
  datatype Account = Account(Regions: seq<RegionRecord>, Described: map<string, seq<Reservation>>)

  /** A request the handler sends to one region's EC2 endpoint. */
  datatype Command =
    | CreateTags(region: string, Resources: seq<string>, Key: string, Value: string)
    | Start(region: string, InstanceIds: seq<string>)
    | Stop(region: string, InstanceIds: seq<string>)
  {
    /** The instance ids the request acts on. */
    function Ids(): seq<string> {
      if CreateTags? then Resources else InstanceIds
    }
  }
}
