/** What the completion handler adds to the outcome list for one completed
    request, and what a whole run of completions adds up to. */
module Collector {
  import opened Model

  /** The handler raises before appending anything when the response's
      datatype is unknown. */
  predicate Stalls(c: Completion) {
    c.response == Some(UnknownDatatype)
  }

  /** A completion that carries exactly one of response and error, and whose
      response, if any, was decoded. */
  predicate WellFormed(c: Completion) {
    c.response.Some? != c.error.Some? && !Stalls(c)
  }

  predicate AllWellFormed(cs: seq<Completion>) {
    forall k :: 0 <= k < |cs| ==> WellFormed(cs[k])
  }

  predicate NoStall(cs: seq<Completion>) {
    forall k :: 0 <= k < |cs| ==> !Stalls(cs[k])
  }

  /** The outcomes a non-stalling completion appends: the decoded value if
      there is a response, then the error if there is one. The two tests are
      independent, so zero, one or two outcomes may be appended. */
  function Appended(c: Completion): (r: seq<Outcome>)
    requires !Stalls(c)
    ensures |r| == (if c.response.Some? then 1 else 0) + (if c.error.Some? then 1 else 0)
    ensures |r| == 1 <==> c.response.Some? != c.error.Some?
    ensures c.response.Some? ==> r[0] == Value(c.response.value.reading)
    ensures c.error.Some? ==> r[|r| - 1] == Fault(c.error.value)
  {
    (if c.response.Some? then [Value(c.response.value.reading)] else [])
    + (if c.error.Some? then [Fault(c.error.value)] else [])
  }

  /** The one outcome of a well-formed completion. */
  function Single(c: Completion): Outcome
    requires WellFormed(c)
  {
    if c.response.Some? then Value(c.response.value.reading) else Fault(c.error.value)
  }

  /** The outcome list after the given completions, in the order they came. */
  function Outcomes(cs: seq<Completion>): (r: seq<Outcome>)
    requires NoStall(cs)
    ensures AllWellFormed(cs) ==> |r| == |cs|
  {
    if cs == [] then [] else Outcomes(cs[..|cs| - 1]) + Appended(cs[|cs| - 1])
  }

  /** One more completion that does not stall extends the outcome list by
      what it appends. */
  lemma OutcomesStep(cs: seq<Completion>, i: nat)
    requires i < |cs| && NoStall(cs[..i]) && !Stalls(cs[i])
    ensures NoStall(cs[..i + 1])
    ensures Outcomes(cs[..i + 1]) == Outcomes(cs[..i]) + Appended(cs[i])
  {
    assert cs[..i + 1][..i] == cs[..i];
  }

  /** A prefix holding a stalling completion is not stall-free. */
  lemma StallInPrefix(cs: seq<Completion>, i: nat, m: nat)
    requires i < m <= |cs| && Stalls(cs[i])
    ensures !NoStall(cs[..m])
  {
    assert cs[..m][i] == cs[i];
  }

  /** With one well-formed completion per request, outcome k is the outcome of
      completion k: positional correspondence survives any mix of values and
      faults. */
  lemma {:induction false} OutcomesAt(cs: seq<Completion>, k: nat)
    requires AllWellFormed(cs)
    requires k < |cs|
    ensures |Outcomes(cs)| == |cs| && Outcomes(cs)[k] == Single(cs[k])
  {
    var init := cs[..|cs| - 1];
    assert AllWellFormed(init);
    if k < |cs| - 1 {
      OutcomesAt(init, k);
    }
  }
}
