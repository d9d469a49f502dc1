/** The values the poll-cycle scheduler works with: the points it samples, the
    completions the protocol stack delivers, the outcomes it collects, the
    records it builds and the effects it has on its two collaborators (the
    protocol stack and the time-series sink). */
module Model {

  datatype Option<T> = None | Some(value: T)

  /** One entry of the point list: the device address, the object reference
      (such as "analogInput:105") and the property name to read. */
  datatype Point = Point(address: string, objectId: string, property: string)

  /** A property value decoded by the protocol library. The scheduler never
      inspects it; the only thing done with it is to turn it into text. */
  type Reading

  /** What is collected for one point: the decoded value or the error. */
  datatype Outcome = Value(reading: Reading) | Fault(error: string)

  /** The decoded response of a completed read: the library either found the
      datatype of the property and decoded the value, or it did not. */
  datatype Response = Decoded(reading: Reading) | UnknownDatatype

  /** A completed I/O control block. The library normally sets exactly one of
      the two, but the scheduler tests them independently. */
  datatype Completion = Completion(response: Option<Response>, error: Option<string>)

  /** One outbound read request: destination address, object, property. */
  datatype ReadRequest = ReadRequest(destination: string, objectId: string, property: string)

  /** The sink's declared value type of a record. */
  datatype ValueType = Double | Varchar

  datatype Dimension = Dimension(name: string, value: string)

  /** One sink-bound row. */
  datatype Record = Record(
    time: string,
    dimensions: seq<Dimension>,
    measureName: string,
    measureValue: string,
    measureValueType: ValueType)

  /** How the sink answered a batch write: accepted, rejected some records,
      or failed in some other way. */
  datatype SinkResult = Written | RejectedRecords | OtherError

  /** One batch write handed to the sink. */
  datatype WriteCall = WriteCall(database: string, table: string, records: seq<Record>)

  /** What one event does to the outside world. */
  datatype Effect = NoEffect | Issued(request: ReadRequest) | Emitted(call: WriteCall, sink: SinkResult)

  /** Whether a completion handler got as far as rescheduling the next
      request, or raised before it. */
  datatype CompletionResult = Rescheduled | Stalled

  /** The read request addressed to a point. */
  function RequestFor(p: Point): ReadRequest {
    ReadRequest(p.address, p.objectId, p.property)
  }

  /** The requests issued so far were addressed to the first points of the
      list, one each, in list order. */
  predicate IssuedInOrder(issued: seq<ReadRequest>, points: seq<Point>) {
    |issued| <= |points| && forall k :: 0 <= k < |issued| ==> issued[k] == RequestFor(points[k])
  }

  lemma IssuedStep(issued: seq<ReadRequest>, points: seq<Point>, r: ReadRequest)
    requires IssuedInOrder(issued, points) && |issued| < |points|
    requires r == RequestFor(points[|issued|])
    ensures IssuedInOrder(issued + [r], points)
  {
  }

  function Min(a: nat, b: nat): nat {
    if a < b then a else b
  }
}
