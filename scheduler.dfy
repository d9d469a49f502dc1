/** The poll-cycle scheduler (the PrairieDog class): the busy flag that keeps
    cycles from overlapping, the queue of points still to request, the
    outcomes collected so far and the batch built at the end of a cycle. It
    reacts to three events: a timer tick, the (re)scheduled next request and
    the completion of the one read in flight. */
module Scheduler {
  import opened Model
  import opened Collector
  import opened Emitter

  class PrairieDog {
    /** The point list the scheduler polls (read-only). */
    const pointList: seq<Point>
    /** The tag dimension of every record, and where batches are written. */
    const tag: string
    const database: string
    const table: string
    /** Set while a cycle is running; guards against overlapping cycles. */
    var isBusy: bool
    /** The points of the running cycle not yet requested. */
    var pointQueue: seq<Point>
    /** The outcomes of the running cycle, in request order. */
    var responseValues: seq<Outcome>
    /** The batch built at the end of the last cycle. */
    var records: seq<Record>

    /** The queue is always what is left of the point list after its first
        few entries were requested, so requests follow the list's order. */
    ghost predicate Valid()
      reads this
    {
      |pointQueue| <= |pointList| && pointQueue == pointList[|pointList| - |pointQueue|..]
    }

    constructor (points: seq<Point>, tag: string, database: string, table: string)
      ensures Valid()
      ensures pointList == points && this.tag == tag && this.database == database && this.table == table
      ensures !isBusy && records == []
      ensures pointQueue == [] && responseValues == []
    {
      pointList := points;
      this.tag := tag;
      this.database := database;
      this.table := table;
      isBusy := false;
      pointQueue := [];
      responseValues := [];
      records := [];
    }

    /** A timer tick. While a cycle runs it does nothing; otherwise it starts
        a cycle and fires its first request (or, for an empty point list,
        emits the empty batch at once). */
    method ProcessTask(now: nat, sink: SinkResult, toStr: Outcome -> string) returns (effect: Effect)
      requires Valid()
      modifies this
      ensures Valid()
      ensures old(isBusy) ==>
        effect == NoEffect
        && isBusy && pointQueue == old(pointQueue) && responseValues == old(responseValues) && records == old(records)
      ensures !old(isBusy) && pointList != [] ==>
        isBusy && pointQueue == pointList[1..] && responseValues == [] && records == old(records)
        && effect == Issued(RequestFor(pointList[0]))
      ensures !old(isBusy) && pointList == [] ==>
        !isBusy && pointQueue == [] && responseValues == [] && records == []
        && effect == Emitted(WriteCall(database, table, []), sink)
    {
      if isBusy {
        return NoEffect;
      }
      isBusy := true;
      pointQueue := pointList;
      responseValues := [];
      effect := NextRequest(now, sink, toStr);
    }

    /** Either requests the head of the queue, or, once the queue is empty,
        builds the cycle's batch, hands it to the sink and ends the cycle. */
    method NextRequest(now: nat, sink: SinkResult, toStr: Outcome -> string) returns (effect: Effect)
      requires Valid()
      modifies this
      ensures Valid()
      ensures old(pointQueue) != [] ==>
        pointQueue == old(pointQueue)[1..] && effect == Issued(RequestFor(old(pointQueue)[0]))
        && isBusy == old(isBusy) && responseValues == old(responseValues) && records == old(records)
      ensures old(pointQueue) == [] ==>
        !isBusy && pointQueue == [] && responseValues == old(responseValues)
        && records == Batch(pointList, responseValues, Decimal(now), tag, toStr)
        && effect == Emitted(WriteCall(database, table, records), sink)
    {
      if pointQueue == [] {
        records := BuildBatch(pointList, responseValues, now, tag, toStr);
        effect := Emitted(WriteCall(database, table, records), sink);
        // Every answer of the sink is caught; a rejection or another error
        // is only reported, and the cycle ends either way.
        match sink {
          case Written =>
          case RejectedRecords =>
          case OtherError =>
        }
        isBusy := false;
        return;
      }
      var point := pointQueue[0];
      pointQueue := pointQueue[1..];
      effect := Issued(RequestFor(point));
    }

    /** The completion callback of one read. The response and the error are
        tested independently; an unknown datatype raises before anything is
        appended and before the next request is scheduled. */
    method CompleteRequest(c: Completion) returns (result: CompletionResult)
      requires Valid()
      modifies this
      ensures Valid()
      ensures Stalls(c) ==> result == Stalled && unchanged(this)
      ensures !Stalls(c) ==>
        result == Rescheduled && responseValues == old(responseValues) + Appended(c)
        && isBusy == old(isBusy) && pointQueue == old(pointQueue) && records == old(records)
    {
      if c.response.Some? {
        match c.response.value {
          case UnknownDatatype =>
            return Stalled;
          case Decoded(value) =>
            responseValues := responseValues + [Value(value)];
        }
      }
      if c.error.Some? {
        responseValues := responseValues + [Fault(c.error.value)];
      }
      result := Rescheduled;
    }
  }

  /** One round of the event loop while a cycle drains: a timer tick arrives
      and is dropped, the read in flight completes, and unless the completion
      raised, the rescheduled next request runs. */
  method Round(dog: PrairieDog, c: Completion, now: nat, sink: SinkResult, toStr: Outcome -> string)
    returns (tick: Effect, stalled: bool, effect: Effect)
    requires dog.Valid() && dog.isBusy
    modifies dog
    ensures dog.Valid()
    ensures tick == NoEffect
    ensures stalled == Stalls(c)
    ensures stalled ==>
      dog.isBusy && dog.pointQueue == old(dog.pointQueue) && dog.responseValues == old(dog.responseValues)
      && dog.records == old(dog.records) && effect == NoEffect
    ensures !stalled ==> dog.responseValues == old(dog.responseValues) + Appended(c)
    ensures !stalled && old(dog.pointQueue) != [] ==>
      dog.isBusy && dog.pointQueue == old(dog.pointQueue)[1..] && dog.records == old(dog.records)
      && effect == Issued(RequestFor(old(dog.pointQueue)[0]))
    ensures !stalled && old(dog.pointQueue) == [] ==>
      !dog.isBusy && dog.pointQueue == [] && dog.records == Batch(dog.pointList, dog.responseValues, Decimal(now), dog.tag, toStr)
      && effect == Emitted(WriteCall(dog.database, dog.table, dog.records), sink)
  {
    tick := dog.ProcessTask(now, sink, toStr);
    var result := dog.CompleteRequest(c);
    stalled := result == Stalled;
    if stalled {
      effect := NoEffect;
      return;
    }
    effect := dog.NextRequest(now, sink, toStr);
  }

  /** One whole cycle of a fresh scheduler over `points`: a tick, then for each
      outstanding request a further tick (which the busy flag drops), the
      request's completion and the rescheduled next request, until the batch
      is emitted, the completions run out or a completion stalls. */
  method RunCycle(points: seq<Point>, tag: string, database: string, table: string, completions: seq<Completion>, now: nat, sink: SinkResult, toStr: Outcome -> string)
    returns (issued: seq<ReadRequest>, emitted: Option<seq<Record>>, stalled: bool)
    ensures IssuedInOrder(issued, points)
    ensures stalled ==> emitted == None
    ensures NoStall(completions[..Min(|completions|, |points|)]) ==> !stalled
    ensures !NoStall(completions[..Min(|completions|, |points|)]) ==> stalled && emitted == None
    ensures |issued| <= |completions| + 1
    ensures |completions| < |points| ==> emitted == None
    ensures |completions| >= |points| && NoStall(completions[..|points|]) ==>
      |issued| == |points|
      && emitted == Some(Batch(points, Outcomes(completions[..|points|]), Decimal(now), tag, toStr))
  {
    var dog := new PrairieDog(points, tag, database, table);
    var effect := dog.ProcessTask(now, sink, toStr);
    stalled := false;
    if points == [] {
      issued, emitted := [], Some(effect.call.records);
    } else {
      issued, emitted := [effect.request], None;
    }
    assert completions[..0] == [];
    var i := 0;
    while i < |completions| && dog.isBusy
      invariant 0 <= i <= |completions| && i <= |points|
      invariant dog.pointList == points && dog.tag == tag && dog.Valid()
      invariant IssuedInOrder(issued, points) && |issued| <= i + 1 && !stalled
      invariant NoStall(completions[..i]) && dog.responseValues == Outcomes(completions[..i])
      invariant dog.isBusy ==>
        i < |points| && dog.pointQueue == points[i + 1..] && emitted == None && |issued| == i + 1
      invariant !dog.isBusy ==>
        i == |points| && |issued| == |points|
        && emitted == Some(Batch(points, dog.responseValues, Decimal(now), tag, toStr))
    {
      var tick, stalledNow;
      tick, stalledNow, effect := Round(dog, completions[i], now, sink, toStr);
      if stalledNow {
        StallInPrefix(completions, i, Min(|completions|, |points|));
        stalled := true;
        break;
      }
      OutcomesStep(completions, i);
      if dog.isBusy {
        IssuedStep(issued, points, effect.request);
        issued := issued + [effect.request];
      } else {
        emitted := Some(dog.records);
      }
      i := i + 1;
    }
    if !stalled {
      assert i == Min(|completions|, |points|);
    }
  }
}
