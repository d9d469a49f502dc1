# PrairieDog poll-cycle scheduler, modelled in Dafny

The two programs of this repository (`flexim.py`, the recurring reader of a
Flexim flow meter, and `test.py`, its connection test) each define a
`PrairieDog` object. On every timer tick it polls a fixed list of BACnet
points, one read request at a time. It collects each answer, value or error,
in request order. When the queue is empty it turns the list of points and the
list of outcomes into one batch of Timestream records. Every record of a
batch has the same millisecond timestamp. The batch goes to the sink in one
write. A busy flag stops a tick from starting a second cycle while one is
still draining.

The model keeps the object's own state and events:

- `Scheduler.PrairieDog` is a class with the four fields of the source.
  They are `isBusy`, `pointQueue` (the deque), `responseValues` and
  `records`.
- It has one method per event. `ProcessTask` is the timer tick.
  `NextRequest` is the call the source makes directly from `process_task`
  and later through `deferred`. `CompleteRequest` is the completion callback.
- Each method is specified by what it does to every field and by the
  effect it has outside. An `Effect` is either nothing, one issued
  `ReadRequest`, or one `WriteCall` handed to the sink.

The pure parts are functions with lemmas:

- `Collector` says what a completion appends.
- `Emitter` covers the record-building loop, the DOUBLE/VARCHAR choice and
  the decimal timestamp.

`Scheduler.RunCycle` drives a fresh scheduler through a whole cycle:

- an extra timer tick before every completion, which the busy flag drops;
- one completion per issued request;
- the rescheduled next request after each completion.

It proves that requests follow list order with at most one more request
than completions, that nothing is emitted before every point has completed,
and that a cycle stalls, with no batch, exactly when one of its completions
has an unknown datatype. With one well-formed completion per point, the batch is exactly the
positional pairing of points with outcomes.

The two source files hold the same class. They differ only in their
configuration: device address, point list, tag (`457999` and `457000`),
database and table. They also differ in how a rejected-records error is
printed. So there is one class, built with each program's constants by
`Flexim.NewPrairieDog` and `TestScript.NewPrairieDog`. The members cited
against `flexim.py` below model `test.py:75-214` line for line.

Collaborators become parameters:

- the clock is `now`, the millisecond timestamp;
- the sink's answer is `sink: SinkResult` (`Written`, `RejectedRecords` or
  `OtherError`);
- Python's `str()` of a value or an error is `toStr: Outcome -> string`;
- the result of the protocol library's decoding is a `Completion`. Its
  optional response is either `Decoded(reading)` or `UnknownDatatype`. Its
  error is optional too.

The global `point_list` becomes the `pointList` constant given to the
constructor.

Three facts about the code shape the model:

- An unknown datatype raises inside the completion callback. That happens
  before anything is appended and before the next request is scheduled.
  `CompleteRequest` returns `Stalled` and leaves the state alone, so
  `isBusy` stays true and every later tick is dropped.
- The callback tests the response and the error with two independent
  `if`s, so a completion adds zero, one or two outcomes.
  `Collector.Appended` states exactly one only when exactly one of the two
  is set.
- The record loop zips the point list with the outcomes, so the batch has
  as many records as the shorter list (`Emitter.Batch`).

## Model

| member | source | states |
|---|---|---|
| `Scheduler.PrairieDog.constructor` | flexim.py:76-92 | A new scheduler is idle, with no records, an empty queue and no outcomes, and keeps the given point list, tag, database and table. |
| `Scheduler.PrairieDog.ProcessTask` | flexim.py:94-113 | A tick while busy changes no field and issues nothing. A tick while idle sets busy, makes the queue the whole point list, empties the outcomes and requests `pointList[0]`. If the list is empty it instead emits the empty batch at once and is idle again. The queue stays a suffix of the point list. |
| `Scheduler.PrairieDog.NextRequest` | flexim.py:115-182 | With points queued, it removes exactly the head and issues one request to that point's address, object and property. Everything else is unchanged. With the queue empty, it sets `records` to the zip batch of the point list and the outcomes. It hands that batch to the program's database and table, and leaves the scheduler idle whatever the sink answered. |
| `Scheduler.PrairieDog.CompleteRequest` | flexim.py:184-214 | An unknown datatype returns `Stalled` and changes nothing: no outcome, no rescheduling, busy kept. Any other completion returns `Rescheduled`. It appends its outcomes at the end of `responseValues` (earlier entries kept) and changes no other field. |
| `Scheduler.Round` | flexim.py:94-214 | One step of a draining cycle. A tick arrives while busy and has no effect. An unknown-datatype completion stalls: busy, queue, outcomes and records are kept and no request or write follows. Any other completion appends its outcomes. The rescheduled next request then either pops the queue head and issues its request, still busy and with records kept, or, with the queue empty, emits the zip batch of the point list and the outcomes, leaves the queue empty and goes idle. The queue stays a suffix of the point list. |
| `Scheduler.RunCycle` | flexim.py:94-214 | Over a whole cycle with extra ticks, requests are issued in list order, at most one per point and at most one more than there were completions, so one read is in flight at a time. With fewer completions than points nothing is emitted. The cycle stalls exactly when one of the first min(completions, points) completions has an unknown datatype, and a stalled cycle emits nothing. With no stall among the first N completions (N points), all N requests are issued and the emitted batch is the batch of the points and those completions' outcomes. |
| `Collector.Appended` | flexim.py:187-211 | A non-stalling completion appends one outcome per part it carries. That is exactly one iff exactly one of response and error is set. The decoded value comes first, then the error. |
| `Collector.Outcomes` | flexim.py:207-211 | The outcome list after a run of well-formed completions has one entry per completion. |
| `Collector.OutcomesStep` | flexim.py:207-214 | Proof helper: one more non-stalling completion extends the outcome list by exactly what it appends. |
| `Collector.OutcomesAt` | flexim.py:207-211 | With well-formed completions, outcome k is the value or fault of completion k, whatever faults came earlier. |
| `Collector.StallInPrefix` | flexim.py:193-194 | Proof helper: a prefix of completions holding an unknown-datatype response is not stall-free. |
| `Emitter.Decimal` | flexim.py:126 | The timestamp text is a non-empty string of decimal digits with no leading zero, as Python writes an int. |
| `Emitter.DecimalRoundTrip` | flexim.py:126 | Reading the timestamp text back as a decimal number gives the millisecond timestamp. |
| `Emitter.DecimalInjective` | flexim.py:126 | Distinct timestamps give distinct Time strings. |
| `Emitter.Batch` | flexim.py:129 | A batch has `min(|point_list|, |response_values|)` records, as zip does. |
| `Emitter.BatchAt` | flexim.py:129-142 | Record k of a batch is built from point k and outcome k. |
| `Emitter.BatchUniform` | flexim.py:126-141 | Every record of one batch has the same Time. Its dimensions are the tag and then point k's object reference. Its measure name is point k's property and its measure value is `str` of outcome k. |
| `Emitter.BatchValueTypes` | flexim.py:130-134 | Record k is DOUBLE iff point k's property is presentValue or covIncrement, and VARCHAR iff it is neither. |
| `Emitter.ValueTypeOnlyFromProperty` | flexim.py:131-134 | Two records whose points share a property name have the same value type, whatever the device, object, outcome, time or tag. |
| `Emitter.CycleBatch` | flexim.py:119-142 | With one well-formed completion per point, the batch has one record per point. Record k pairs point k with completion k's outcome and carries the cycle's Time and the tag and object-reference dimensions. Both programs instantiate it with their own constants. |
| `Emitter.BuildBatch` | flexim.py:124-142 | The record loop returns exactly the batch of the point list and the outcomes. The timestamp is formatted once before the loop. |
| `Model.IssuedStep` | flexim.py:163-182 | Proof helper: issuing the request for the next point in list order keeps the issued requests in list order. |
| `Flexim.NewPrairieDog` | flexim.py:42-92 | The flexim.py scheduler starts idle with no records, over the configured sixteen points, with tag `457999` and destination `y`/`t`. |
| `Flexim.ConfiguredValueTypes` | flexim.py:42-69 | Of the sixteen configured points, exactly the six flow-rate diagnostics (eventState, reliability, outOfService of each channel) are typed VARCHAR. |
| `Flexim.EmittedBatch` | flexim.py:135-142 | A flexim.py cycle with one well-formed completion per point emits sixteen records. Record k is for configured point k and completion k, with the cycle's Time and the tag `457999`. |
| `TestScript.NewPrairieDog` | test.py:41-90 | The test.py scheduler starts idle with no records, over its sixteen points, with tag `457000` and destination `ScottishNHS`/`FleximTest`. |
| `TestScript.ConfiguredValueTypes` | test.py:41-68 | Of test.py's sixteen points, exactly the six flow-rate diagnostics are typed VARCHAR. |
| `TestScript.EmittedBatch` | test.py:124-140 | A test.py cycle with one well-formed completion per point emits sixteen records. Record k is for point k and completion k, with one shared Time and the tag `457000`. |

## Left out

- `mockinstrument.py`: a static table of simulated BACnet objects and a server bootstrap, with no scheduling logic.
- The `main` functions of both programs: the startup delay, argument parsing, ntp restarts, the reboot on failure and the single test write. These are process and network plumbing.
- The Timestream client and `write_records`: a network call. Its answer is the `sink` parameter. Which records are accepted is not modelled.
- The printing in `_print_rejected_recrods_Exceptions` and the bare print in `test.py`. When they succeed they are logging only, and the model treats them as a branch that changes nothing.
- Exceptions other than an unknown datatype are not modelled. These are a failing `cast_out` (flexim.py:197-203), a failing `Address(addr)` (flexim.py:171), and a `KeyError` or `TypeError` raised by `_print_rejected_recrods_Exceptions` (flexim.py:219-220) inside the handler at flexim.py:153. Each would escape before `is_busy` is cleared and stall the cycle just as an unknown datatype does.
- The BACpypes encode and decode calls. These are object-identifier parsing, request and IOCB construction, `request_io`, `get_datatype` and `cast_out` with its array-index branch. A request is the opaque `ReadRequest`, and a decoded value is the opaque `Reading` inside a `Completion`. An exception from parsing a malformed object identifier is not modelled.
- The `RecurringTask` timer, its interval and `deferred` scheduling. Ticks and the rescheduled next request are explicit method calls made by the caller.
- The floating-point clock and its rounding to milliseconds. The timestamp arrives as the natural number `now`.
- The commented-out two-cycle batching toggle, which is not active code.
- Python truthiness of `ioResponse` and `ioError`. The model treats them as present or absent.
- The missing `point_queue` and `response_values` attributes before the first tick. The model starts them empty; no event can reach them earlier in the source.
