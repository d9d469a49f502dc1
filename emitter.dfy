/** Building one batch of sink records from the point list and the collected
    outcomes: the value type derived from the property name, the one
    millisecond timestamp of the cycle written in decimal, and the positional
    pairing of points with outcomes. */
module Emitter {
  import opened Model
  import opened Collector

  /** Properties that carry a live measurement are numeric; every other
      property (status and diagnostics) is text. */
  function ValueTypeOf(property: string): ValueType {
    if property == "presentValue" || property == "covIncrement" then Double else Varchar
  }

  predicate IsDigit(c: char) {
    '0' <= c <= '9'
  }

  predicate AllDigits(s: string) {
    forall k :: 0 <= k < |s| ==> IsDigit(s[k])
  }

  function DigitChar(d: nat): (c: char)
    requires d < 10
    ensures IsDigit(c)
  {
    ('0' as int + d) as char
  }

  /** A natural number written in decimal, as Python's str() writes an int:
      at least one digit and no leading zero. */
  function Decimal(n: nat): (s: string)
    ensures |s| >= 1 && AllDigits(s)
    ensures s[0] == '0' ==> n == 0
    decreases n
  {
    if n < 10 then [DigitChar(n)] else Decimal(n / 10) + [DigitChar(n % 10)]
  }

  /** The number a string of decimal digits denotes. */
  function ParseDecimal(s: string): nat
    requires AllDigits(s)
    decreases |s|
  {
    if s == [] then 0 else ParseDecimal(s[..|s| - 1]) * 10 + (s[|s| - 1] as int - '0' as int)
  }

  lemma {:induction false} DecimalRoundTrip(n: nat)
    ensures ParseDecimal(Decimal(n)) == n
    decreases n
  {
    var s := Decimal(n);
    if n < 10 {
      assert s[..|s| - 1] == [];
    } else {
      DecimalRoundTrip(n / 10);
      assert s[..|s| - 1] == Decimal(n / 10);
    }
  }

  /** Distinct millisecond timestamps give distinct Time strings. */
  lemma DecimalInjective(m: nat, n: nat)
    requires Decimal(m) == Decimal(n)
    ensures m == n
  {
    DecimalRoundTrip(m);
    DecimalRoundTrip(n);
  }

  /** The record for one (point, outcome) pair of a cycle. */
  function MakeRecord(p: Point, o: Outcome, time: string, tag: string, toStr: Outcome -> string): Record {
    Record(
      time,
      [Dimension("tag", tag), Dimension("BACnet_ref", p.objectId)],
      p.property,
      toStr(o),
      ValueTypeOf(p.property))
  }

  /** The batch of one cycle: records of the pairs of points with outcomes,
      position by position, stopping at the shorter of the two (as zip does). */
  function Batch(points: seq<Point>, values: seq<Outcome>, time: string, tag: string, toStr: Outcome -> string): (r: seq<Record>)
    ensures |r| == Min(|points|, |values|)
    decreases |points|
  {
    if points == [] || values == [] then []
    else [MakeRecord(points[0], values[0], time, tag, toStr)] + Batch(points[1..], values[1..], time, tag, toStr)
  }

  lemma {:induction false} BatchAt(points: seq<Point>, values: seq<Outcome>, time: string, tag: string, toStr: Outcome -> string, k: nat)
    requires k < |points| && k < |values|
    ensures Batch(points, values, time, tag, toStr)[k] == MakeRecord(points[k], values[k], time, tag, toStr)
    decreases k
  {
    if k > 0 {
      BatchAt(points[1..], values[1..], time, tag, toStr, k - 1);
    }
  }

  /** Every record of one batch carries the same Time, the tag dimension
      first, the point's object reference second and the point's property as
      its measure name. */
  lemma BatchUniform(points: seq<Point>, values: seq<Outcome>, time: string, tag: string, toStr: Outcome -> string)
    ensures forall k :: 0 <= k < |Batch(points, values, time, tag, toStr)| ==>
      var r := Batch(points, values, time, tag, toStr)[k];
      r.time == time && r.dimensions == [Dimension("tag", tag), Dimension("BACnet_ref", points[k].objectId)]
      && r.measureName == points[k].property && r.measureValue == toStr(values[k])
  {
    forall k | 0 <= k < |Batch(points, values, time, tag, toStr)| {
      BatchAt(points, values, time, tag, toStr, k);
    }
  }

  /** Record k of a batch is DOUBLE exactly when point k's property is
      presentValue or covIncrement, and VARCHAR otherwise. */
  lemma BatchValueTypes(points: seq<Point>, values: seq<Outcome>, time: string, tag: string, toStr: Outcome -> string)
    ensures forall k :: 0 <= k < |Batch(points, values, time, tag, toStr)| ==>
      (Batch(points, values, time, tag, toStr)[k].measureValueType == Double
       <==> points[k].property == "presentValue" || points[k].property == "covIncrement")
    ensures forall k :: 0 <= k < |Batch(points, values, time, tag, toStr)| ==>
      (Batch(points, values, time, tag, toStr)[k].measureValueType == Varchar
       <==> points[k].property != "presentValue" && points[k].property != "covIncrement")
  {
    forall k | 0 <= k < |Batch(points, values, time, tag, toStr)| {
      BatchAt(points, values, time, tag, toStr, k);
    }
  }

  /** With one well-formed completion per point, the batch has one record per
      point, and record k pairs point k with the outcome of completion k,
      carrying the cycle's Time and the tag. Each program instantiates this
      with its own point list and tag. */
  lemma CycleBatch(points: seq<Point>, cs: seq<Completion>, time: string, tag: string, toStr: Outcome -> string)
    requires |cs| == |points| && AllWellFormed(cs)
    ensures |Batch(points, Outcomes(cs), time, tag, toStr)| == |points|
    ensures forall k :: 0 <= k < |points| ==>
      var r := Batch(points, Outcomes(cs), time, tag, toStr)[k];
      r == MakeRecord(points[k], Single(cs[k]), time, tag, toStr)
      && r.time == time
      && r.dimensions == [Dimension("tag", tag), Dimension("BACnet_ref", points[k].objectId)]
  {
    forall k | 0 <= k < |points|
      ensures Batch(points, Outcomes(cs), time, tag, toStr)[k] == MakeRecord(points[k], Single(cs[k]), time, tag, toStr)
    {
      OutcomesAt(cs, k);
      BatchAt(points, Outcomes(cs), time, tag, toStr, k);
    }
  }

  /** The value type depends on the property name alone: not on the device,
      the object, the outcome or the cycle. */
  lemma ValueTypeOnlyFromProperty(p: Point, q: Point, o: Outcome, u: Outcome, time: string, time': string,
                                  tag: string, tag': string, toStr: Outcome -> string)
    requires p.property == q.property
    ensures MakeRecord(p, o, time, tag, toStr).measureValueType == MakeRecord(q, u, time', tag', toStr).measureValueType
  {
  }

  /** The record-building loop of the emission branch: the timestamp is
      formatted once, then one record is appended per (point, outcome) pair. */
  method BuildBatch(points: seq<Point>, values: seq<Outcome>, now: nat, tag: string, toStr: Outcome -> string)
    returns (records: seq<Record>)
    ensures records == Batch(points, values, Decimal(now), tag, toStr)
    ensures |records| == Min(|points|, |values|)
    ensures forall k :: 0 <= k < |records| ==> records[k] == MakeRecord(points[k], values[k], Decimal(now), tag, toStr)
  {
    var currentTime := Decimal(now);
    var n := Min(|points|, |values|);
    records := [];
    var i := 0;
    while i < n
      invariant 0 <= i <= n
      invariant |records| == i
      invariant forall k :: 0 <= k < i ==> records[k] == MakeRecord(points[k], values[k], currentTime, tag, toStr)
    {
      var request, response := points[i], values[i];
      var valueType := ValueTypeOf(request.property);
      records := records + [Record(
        currentTime,
        [Dimension("tag", tag), Dimension("BACnet_ref", request.objectId)],
        request.property,
        toStr(response),
        valueType)];
      i := i + 1;
    }
    ghost var batch := Batch(points, values, currentTime, tag, toStr);
    forall k | 0 <= k < n ensures records[k] == batch[k] {
      BatchAt(points, values, currentTime, tag, toStr, k);
    }
  }
}
