/** The connection test program test.py: the same poll cycle as flexim.py,
    with its own device address, point list, tag and destination table. */
module TestScript {
  import opened Model
  import opened Collector
  import opened Emitter
  import opened Scheduler

  const IpAddress := "172.23.99.14"

  /** The configured points: two channels (A and B) of the meter, each with
      amplitude, sound speed, flow rate with three diagnostics, SNR and SCNR. */
  const PointList: seq<Point> := [
    Point(IpAddress, "analogInput:105", "presentValue"),
    Point(IpAddress, "analogInput:106", "presentValue"),
    Point(IpAddress, "analogInput:108", "presentValue"),
    Point(IpAddress, "analogInput:108", "eventState"),
    Point(IpAddress, "analogInput:108", "reliability"),
    Point(IpAddress, "analogInput:108", "outOfService"),
    Point(IpAddress, "analogInput:121", "presentValue"),
    Point(IpAddress, "analogInput:122", "presentValue"),
    Point(IpAddress, "analogInput:205", "presentValue"),
    Point(IpAddress, "analogInput:206", "presentValue"),
    Point(IpAddress, "analogInput:208", "presentValue"),
    Point(IpAddress, "analogInput:208", "eventState"),
    Point(IpAddress, "analogInput:208", "reliability"),
    Point(IpAddress, "analogInput:208", "outOfService"),
    Point(IpAddress, "analogInput:221", "presentValue"),
    Point(IpAddress, "analogInput:222", "presentValue")
  ]

  /** The tag dimension every record of this program carries. */
  const Tag := "457000"
  const Database := "ScottishNHS"
  const Table := "FleximTest"

  /** The scheduler test.py starts: the configured point list, this
      program's tag and destination, idle and with no records. */
  method NewPrairieDog() returns (dog: PrairieDog)
    ensures fresh(dog) && dog.Valid()
    ensures dog.pointList == PointList && dog.tag == "457000" && dog.database == Database && dog.table == Table
    ensures !dog.isBusy && dog.records == []
  {
    dog := new PrairieDog(PointList, Tag, Database, Table);
  }

  /** In the configured list the six diagnostic points (eventState,
      reliability and outOfService of each channel's flow rate) are text;
      the other ten are numeric. */
  lemma ConfiguredValueTypes()
    ensures |PointList| == 16
    ensures forall k :: 0 <= k < |PointList| ==>
      (ValueTypeOf(PointList[k].property) == Varchar <==> 3 <= k <= 5 || 11 <= k <= 13)
  {
  }

  /** The batch of a cycle of this program in which every request completed
      well-formed: one record per configured point, record k built from point
      k and completion k, all with the cycle's Time and this program's tag
      (the shared CycleBatch, instantiated with this program's constants). */
  lemma EmittedBatch(cs: seq<Completion>, now: nat, toStr: Outcome -> string)
    requires |cs| == |PointList| && AllWellFormed(cs)
    ensures var batch := Batch(PointList, Outcomes(cs), Decimal(now), Tag, toStr);
      |batch| == 16
      && forall k :: 0 <= k < 16 ==>
           batch[k] == MakeRecord(PointList[k], Single(cs[k]), Decimal(now), Tag, toStr)
           && batch[k].time == Decimal(now)
           && batch[k].dimensions == [Dimension("tag", "457000"), Dimension("BACnet_ref", PointList[k].objectId)]
  {
    CycleBatch(PointList, cs, Decimal(now), Tag, toStr);
  }
}
