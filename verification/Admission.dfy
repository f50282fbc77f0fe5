/**
 Admission of calls: two counters changed by compare-and-exchange loops and released by a drop guard,
 and a semaphore whose permits move into the blocking tasks. Every atomic operation is one step, calls
 interleave freely, a relaxed load may return any value, and the weak exchange may fail spuriously.
 */
module Admission {
  import opened Wrappers

  datatype Config = Config(maxPending: nat, maxPendingBytes: nat, maxInFlight: nat, usizeMax: nat)

  const MAX_PAYLOAD_BYTES: nat := 10 * 1024 * 1024

  predicate ValidConfig(c: Config) {
    && 1 <= c.maxInFlight <= 64
    && c.maxInFlight <= c.maxPending <= 1024
    && 10485760 <= c.maxPendingBytes <= 268435456
    && 0xFFFF_FFFF <= c.usizeMax
  }

  datatype Answer = NotStarted(code: string) | OutcomeUnknown(code: string) | Finished

  /** Where a call's resources are. A guard gives the count back first and the bytes second; a task's permit goes last. */
  datatype Phase =
    | Arrived
    | CountSeen(seen: nat)
    | Counted
    | BytesSeen(seen: nat)
    | Queued
    | Permitted
    | Spawned
    | Dispatching
    | Ended
    | DroppingBytes(permit: bool)
    | DroppingPermit
    | Gone

  /** A caller may have its answer while its task still runs. */
  datatype Call = Call(bytes: nat, phase: Phase, answer: Option<Answer>, dispatched: bool)

  datatype Sys = Sys(calls: seq<Call>, count: nat, bytes: nat, permits: nat, closed: bool)

  datatype Event =
    | Arrive(bytes: nat)
    | LoadCount(w: nat, seen: nat)
    | TryCount(w: nat, spurious: bool, actual: nat)
    | LoadBytes(w: nat, seen: nat)
    | TryBytes(w: nat, spurious: bool, actual: nat)
    | Acquire(w: nat)
    | GiveUpQueue(w: nat, code: string)
    | Spawn(w: nat)
    | Dispatch(w: nat)
    | EndTask(w: nat)
    | StopWaiting(w: nat, code: string)
    | DropCount(w: nat)
    | DropBytes(w: nat)
    | DropPermit(w: nat, panicked: bool)
    | Close

  function WrappingSub(c: Config, a: nat, b: nat): nat {
    if a >= b then a - b else (a - b) % (c.usizeMax + 1)
  }

  function SaturatingAdd(c: Config, a: nat, b: nat): nat {
    if a + b <= c.usizeMax then a + b else c.usizeMax
  }

  function At(s: Sys, w: nat, call: Call): Sys
    requires w < |s.calls|
  {
    s.(calls := s.calls[w := call])
  }

  function Answered(call: Call, answer: Answer): Call {
    if call.answer.Some? then call else call.(answer := Some(answer))
  }

  predicate In(s: Sys, w: nat) {
    w < |s.calls|
  }

  predicate HasTask(p: Phase) {
    p.Spawned? || p.Dispatching? || p.Ended? || p == DroppingBytes(true) || p.DroppingPermit?
  }

  function Step(c: Config, s: Sys, e: Event): Sys {
    match e
    case Arrive(bytes) =>
      var refused := if s.closed then Some("conflict") else if bytes > MAX_PAYLOAD_BYTES then Some("invalid_input") else None;
      s.(calls := s.calls + [if refused.Some? then Call(bytes, Gone, Some(NotStarted(refused.value)), false)
                             else Call(bytes, Arrived, None, false)])
    case LoadCount(w, seen) =>
      if In(s, w) && s.calls[w].phase.Arrived? then At(s, w, s.calls[w].(phase := CountSeen(seen))) else s
    case TryCount(w, spurious, actual) =>
      if !(In(s, w) && s.calls[w].phase.CountSeen?) then s
      else
        var call := s.calls[w];
        if call.phase.seen >= c.maxPending then At(s, w, Answered(call.(phase := Gone), NotStarted("resource_exhausted")))
        else if !spurious && s.count == call.phase.seen then At(s.(count := call.phase.seen + 1), w, call.(phase := Counted))
        else At(s, w, call.(phase := CountSeen(actual)))
    case LoadBytes(w, seen) =>
      if In(s, w) && s.calls[w].phase.Counted? then At(s, w, s.calls[w].(phase := BytesSeen(seen))) else s
    case TryBytes(w, spurious, actual) =>
      if !(In(s, w) && s.calls[w].phase.BytesSeen?) then s
      else
        var call := s.calls[w];
        if SaturatingAdd(c, call.phase.seen, call.bytes) > c.maxPendingBytes then
          At(s.(count := WrappingSub(c, s.count, 1)), w, Answered(call.(phase := Gone), NotStarted("resource_exhausted")))
        else if !spurious && s.bytes == call.phase.seen then
          At(s.(bytes := call.phase.seen + call.bytes), w, call.(phase := Queued))
        else At(s, w, call.(phase := BytesSeen(actual)))
    case Acquire(w) =>
      if In(s, w) && s.calls[w].phase.Queued? && s.calls[w].answer.None? && s.permits > 0 then
        At(s.(permits := s.permits - 1), w, s.calls[w].(phase := Permitted))
      else s
    case GiveUpQueue(w, code) =>
      if In(s, w) && s.calls[w].phase.Queued? then At(s, w, Answered(s.calls[w], NotStarted(code))) else s
    case Spawn(w) =>
      if In(s, w) && s.calls[w].phase.Permitted? then At(s, w, s.calls[w].(phase := Spawned)) else s
    case Dispatch(w) =>
      if In(s, w) && s.calls[w].phase.Spawned? then At(s, w, s.calls[w].(phase := Dispatching, dispatched := true)) else s
    case EndTask(w) =>
      if In(s, w) && s.calls[w].phase.Dispatching? then At(s, w, s.calls[w].(phase := Ended)) else s
    case StopWaiting(w, code) =>
      if In(s, w) && HasTask(s.calls[w].phase) then
        At(s, w, Answered(s.calls[w], OutcomeUnknown(code)))
      else s
    case DropCount(w) =>
      if In(s, w) && (s.calls[w].phase.Ended? || (s.calls[w].phase.Queued? && s.calls[w].answer.Some?)) then
        At(s.(count := WrappingSub(c, s.count, 1)), w, s.calls[w].(phase := DroppingBytes(s.calls[w].phase.Ended?)))
      else s
    case DropBytes(w) =>
      if In(s, w) && s.calls[w].phase.DroppingBytes? then
        var call := s.calls[w];
        At(s.(bytes := WrappingSub(c, s.bytes, call.bytes)), w, call.(phase := if call.phase.permit then DroppingPermit else Gone))
      else s
    case DropPermit(w, panicked) =>
      if In(s, w) && s.calls[w].phase.DroppingPermit? then
        At(s.(permits := s.permits + 1), w, 
           Answered(s.calls[w].(phase := Gone), if panicked then OutcomeUnknown("io") else Finished))
      else s
    case Close => s.(closed := true)
  }

  function Run(c: Config, s: Sys, events: seq<Event>): Sys {
    if events == [] then s
    else Step(c, Run(c, s, events[..|events| - 1]), events[|events| - 1])
  }

  function Start(c: Config): Sys {
    Sys([], 0, 0, c.maxInFlight, false)
  }

  // ---- Who holds what ----

  datatype Resource = Count | Bytes | Permit | Task

  predicate HoldsCount(p: Phase) {
    p.Counted? || p.BytesSeen? || p.Queued? || p.Permitted? || p.Spawned? || p.Dispatching? || p.Ended?
  }

  predicate HoldsBytes(p: Phase) {
    p.Queued? || p.Permitted? || p.Spawned? || p.Dispatching? || p.Ended? || p.DroppingBytes?
  }

  predicate HoldsPermit(p: Phase) {
    p.Permitted? || p.Spawned? || p.Dispatching? || p.Ended? || (p.DroppingBytes? && p.permit) || p.DroppingPermit?
  }

  function Weight(call: Call, r: Resource): nat {
    match r
    case Count => if HoldsCount(call.phase) then 1 else 0
    case Bytes => if HoldsBytes(call.phase) then call.bytes else 0
    case Permit => if HoldsPermit(call.phase) then 1 else 0
    case Task => if call.phase.Dispatching? then 1 else 0
  }

  function Total(calls: seq<Call>, r: Resource): nat {
    if calls == [] then 0 else Total(calls[..|calls| - 1], r) + Weight(calls[|calls| - 1], r)
  }

  lemma {:induction false} TotalUpdate(calls: seq<Call>, w: nat, call: Call, r: Resource)
    requires w < |calls|
    ensures Total(calls, r) >= Weight(calls[w], r)
    ensures Total(calls[w := call], r) == Total(calls, r) - Weight(calls[w], r) + Weight(call, r)
  {
    hide Weight;
    var n := |calls| - 1;
    if w == n {
      assert calls[w := call][..n] == calls[..n];
    } else {
      TotalUpdate(calls[..n], w, call, r);
      assert calls[w := call][..n] == calls[..n][w := call];
    }
  }

  lemma {:induction false} TaskHoldsPermit(calls: seq<Call>)
    ensures Total(calls, Task) <= Total(calls, Permit)
  {
    if calls != [] {
      TaskHoldsPermit(calls[..|calls| - 1]);
    }
  }

  /** The answer and the dispatch mark fit the phase: a call answered as not started has no task and never had one. */
  predicate Honest(call: Call) {
    && (HasTask(call.phase) ==> !(call.answer.Some? && call.answer.value.NotStarted?))
    && (call.dispatched ==> call.phase.Dispatching? || call.phase.Ended? || call.phase == DroppingBytes(true) || call.phase.DroppingPermit? || call.phase.Gone?)
    && (call.phase.Queued? ==> call.answer.None? || call.answer.value.NotStarted?)
    && (call.phase == DroppingBytes(false) ==> call.answer.Some? && call.answer.value.NotStarted?)
    && (call.phase.Gone? ==> call.answer.Some? && (call.dispatched ==> !call.answer.value.NotStarted?))
    && (call.phase.Arrived? || call.phase.CountSeen? || call.phase.Counted? || call.phase.BytesSeen? || call.phase.Permitted? ==> call.answer.None?)
  }

  predicate CountConserved(c: Config, s: Sys) {
    s.count == Total(s.calls, Count) <= c.maxPending
  }

  predicate BytesConserved(c: Config, s: Sys) {
    s.bytes == Total(s.calls, Bytes) <= c.maxPendingBytes
  }

  predicate PermitsConserved(c: Config, s: Sys) {
    s.permits + Total(s.calls, Permit) == c.maxInFlight
  }

  predicate AllHonest(s: Sys) {
    forall w :: 0 <= w < |s.calls| ==> Honest(s.calls[w])
  }

  predicate Conserved(c: Config, s: Sys) {
    CountConserved(c, s) && BytesConserved(c, s) && PermitsConserved(c, s) && AllHonest(s)
  }

  lemma ArriveTotal(c: Config, s: Sys, bytes: nat, r: Resource)
    ensures Total(Step(c, s, Arrive(bytes)).calls, r) == Total(s.calls, r)
  {
    assert Step(c, s, Arrive(bytes)).calls[..|s.calls|] == s.calls;
  }

  /** The event belongs to a call that is there. */
  predicate Targets(s: Sys, e: Event) {
    !e.Arrive? && !e.Close? && In(s, e.w)
  }

  /** A step changes at most the call it belongs to. */
  lemma OneCallChanges(c: Config, s: Sys, e: Event)
    requires Targets(s, e)
    ensures |Step(c, s, e).calls| == |s.calls|
    ensures Step(c, s, e).calls == s.calls[e.w := Step(c, s, e).calls[e.w]]
  {
    hide WrappingSub, SaturatingAdd;
  }

  lemma LocalCount(c: Config, s: Sys, e: Event)
    requires Targets(s, e) && Weight(s.calls[e.w], Count) <= s.count <= c.maxPending
    ensures Step(c, s, e).count == s.count - Weight(s.calls[e.w], Count) + Weight(Step(c, s, e).calls[e.w], Count) <= c.maxPending
  {
    hide SaturatingAdd;
  }

  lemma LocalBytes(c: Config, s: Sys, e: Event)
    requires ValidConfig(c) && Targets(s, e) && Weight(s.calls[e.w], Bytes) <= s.bytes <= c.maxPendingBytes
    ensures Step(c, s, e).bytes == s.bytes - Weight(s.calls[e.w], Bytes) + Weight(Step(c, s, e).calls[e.w], Bytes) <= c.maxPendingBytes
  {
  }

  lemma LocalPermits(c: Config, s: Sys, e: Event)
    requires Targets(s, e)
    ensures Step(c, s, e).permits + Weight(Step(c, s, e).calls[e.w], Permit) == s.permits + Weight(s.calls[e.w], Permit)
  {
    hide SaturatingAdd, WrappingSub;
  }

  lemma CountKept(c: Config, s: Sys, e: Event)
    requires CountConserved(c, s)
    ensures CountConserved(c, Step(c, s, e))
  {
    if e.Arrive? {
      ArriveTotal(c, s, e.bytes, Count);
    } else if Targets(s, e) {
      hide Step, Total, Weight;
      OneCallChanges(c, s, e);
      TotalUpdate(s.calls, e.w, Step(c, s, e).calls[e.w], Count);
      LocalCount(c, s, e);
    }
  }

  lemma BytesKept(c: Config, s: Sys, e: Event)
    requires ValidConfig(c) && BytesConserved(c, s)
    ensures BytesConserved(c, Step(c, s, e))
  {
    if e.Arrive? {
      ArriveTotal(c, s, e.bytes, Bytes);
    } else if Targets(s, e) {
      hide Step, Total, Weight;
      OneCallChanges(c, s, e);
      TotalUpdate(s.calls, e.w, Step(c, s, e).calls[e.w], Bytes);
      LocalBytes(c, s, e);
    }
  }

  lemma PermitsKept(c: Config, s: Sys, e: Event)
    requires PermitsConserved(c, s)
    ensures PermitsConserved(c, Step(c, s, e))
  {
    if e.Arrive? {
      ArriveTotal(c, s, e.bytes, Permit);
    } else if Targets(s, e) {
      hide Step, Total, Weight;
      OneCallChanges(c, s, e);
      TotalUpdate(s.calls, e.w, Step(c, s, e).calls[e.w], Permit);
      LocalPermits(c, s, e);
    }
  }

  lemma LocalHonest(c: Config, s: Sys, e: Event)
    requires Targets(s, e) && Honest(s.calls[e.w])
    ensures In(Step(c, s, e), e.w) && Honest(Step(c, s, e).calls[e.w])
  {
    hide WrappingSub, SaturatingAdd;
  }

  lemma HonestKept(c: Config, s: Sys, e: Event)
    requires AllHonest(s)
    ensures AllHonest(Step(c, s, e))
  {
    if Targets(s, e) {
      hide Step, Honest;
      OneCallChanges(c, s, e);
      LocalHonest(c, s, e);
    }
  }

  lemma StepConserves(c: Config, s: Sys, e: Event)
    requires ValidConfig(c) && Conserved(c, s)
    ensures Conserved(c, Step(c, s, e))
  {
    hide Step, CountConserved, BytesConserved, PermitsConserved, AllHonest;
    CountKept(c, s, e);
    BytesKept(c, s, e);
    PermitsKept(c, s, e);
    HonestKept(c, s, e);
  }

  /**
   Conservation at every point of every run: the counters equal the number and the byte sum of the
   calls that hold them, calls between the two loops and guards half dropped included, and never
   exceed their limits; the free permits and the held ones add up to the limit; and no more tasks are
   dispatching than there are permits, whether or not their callers still wait.
   */
  lemma {:induction false} AdmissionConserves(c: Config, events: seq<Event>)
    requires ValidConfig(c)
    ensures Conserved(c, Run(c, Start(c), events))
    ensures Total(Run(c, Start(c), events).calls, Task) <= c.maxInFlight
  {
    hide Step;
    if events != [] {
      AdmissionConserves(c, events[..|events| - 1]);
      StepConserves(c, Run(c, Start(c), events[..|events| - 1]), events[|events| - 1]);
    }
    TaskHoldsPermit(Run(c, Start(c), events).calls);
  }

  /** No release ever wraps: what a call gives back is contained in the counter it gives it back to. */
  lemma ReleasesFit(c: Config, events: seq<Event>, w: nat)
    requires ValidConfig(c) && In(Run(c, Start(c), events), w)
    ensures var s := Run(c, Start(c), events);
            && (HoldsCount(s.calls[w].phase) ==> WrappingSub(c, s.count, 1) == s.count - 1)
            && (HoldsBytes(s.calls[w].phase) ==> WrappingSub(c, s.bytes, s.calls[w].bytes) == s.bytes - s.calls[w].bytes)
            && (HoldsPermit(s.calls[w].phase) ==> s.permits < c.maxInFlight)
  {
    AdmissionConserves(c, events);
    var s := Run(c, Start(c), events);
    TotalUpdate(s.calls, w, s.calls[w], Count);
    TotalUpdate(s.calls, w, s.calls[w], Bytes);
    TotalUpdate(s.calls, w, s.calls[w], Permit);
  }

  lemma {:induction false} NothingHeld(calls: seq<Call>, r: Resource)
    requires forall w :: 0 <= w < |calls| ==> calls[w].phase.Gone?
    ensures Total(calls, r) == 0
  {
    if calls != [] {
      NothingHeld(calls[..|calls| - 1], r);
    }
  }

  /** Nothing leaks: once every call is gone, both counters are zero and every permit is free. */
  lemma NothingLeaks(c: Config, events: seq<Event>)
    requires ValidConfig(c)
    requires forall w :: 0 <= w < |Run(c, Start(c), events).calls| ==> Run(c, Start(c), events).calls[w].phase.Gone?
    ensures var s := Run(c, Start(c), events); s.count == 0 && s.bytes == 0 && s.permits == c.maxInFlight
  {
    AdmissionConserves(c, events);
    var calls := Run(c, Start(c), events).calls;
    NothingHeld(calls, Count);
    NothingHeld(calls, Bytes);
    NothingHeld(calls, Permit);
  }

  predicate ToldNotStarted(s: Sys, w: nat) {
    In(s, w) && s.calls[w].answer.Some? && s.calls[w].answer.value.NotStarted?
  }

  lemma AnswerStands(c: Config, s: Sys, e: Event, w: nat)
    requires In(s, w) && s.calls[w].answer.Some?
    ensures In(Step(c, s, e), w) && Step(c, s, e).calls[w].answer == s.calls[w].answer
  {
    hide WrappingSub, SaturatingAdd;
  }

  lemma {:induction false} RunConserves(c: Config, s: Sys, events: seq<Event>)
    requires ValidConfig(c) && Conserved(c, s)
    ensures Conserved(c, Run(c, s, events))
  {
    hide Step, Conserved;
    if events != [] {
      RunConserves(c, s, events[..|events| - 1]);
      StepConserves(c, Run(c, s, events[..|events| - 1]), events[|events| - 1]);
    }
  }

  /** A call told that it was not started keeps that answer and is never dispatched, before or after. */
  lemma {:induction false} NotStartedIsTrue(c: Config, s: Sys, later: seq<Event>, w: nat)
    requires ValidConfig(c) && Conserved(c, s) && ToldNotStarted(s, w)
    ensures ToldNotStarted(Run(c, s, later), w) && !Run(c, s, later).calls[w].dispatched
  {
    hide Step, CountConserved, BytesConserved, PermitsConserved;
    RunConserves(c, s, later);
    if later != [] {
      NotStartedIsTrue(c, s, later[..|later| - 1], w);
      AnswerStands(c, Run(c, s, later[..|later| - 1]), later[|later| - 1], w);
    }
    assert Honest(Run(c, s, later).calls[w]);
  }

  /** A caller that stops waiting frees nothing: its task keeps its place, its bytes and its permit. */
  lemma StopWaitingFreesNothing(c: Config, s: Sys, w: nat, code: string)
    requires In(s, w) && HasTask(s.calls[w].phase)
    ensures var s' := Step(c, s, StopWaiting(w, code));
            && (s'.count, s'.bytes, s'.permits) == (s.count, s.bytes, s.permits)
            && s'.calls[w].phase == s.calls[w].phase
            && s'.calls[w].answer == (if s.calls[w].answer.Some? then s.calls[w].answer else Some(OutcomeUnknown(code)))
            && forall r :: Total(s'.calls, r) == Total(s.calls, r)
  {
    var call := Step(c, s, StopWaiting(w, code)).calls[w];
    forall r
      ensures Total(s.calls[w := call], r) == Total(s.calls, r)
    {
      TotalUpdate(s.calls, w, call, r);
    }
  }

  /** A call is turned away at once if and only if the client is closed or the payload is over 10 MiB, and is then over; otherwise it goes on. */
  lemma ArrivalMeans(c: Config, s: Sys, payload: nat)
    ensures var s' := Step(c, s, Arrive(payload));
            && |s'.calls| == |s.calls| + 1 && s'.calls[..|s.calls|] == s.calls && s' == s.(calls := s'.calls)
            && var call := s'.calls[|s.calls|];
               && call.bytes == payload && !call.dispatched
               && (call.phase.Gone? <==> s.closed || payload > 10_485_760) && (!call.phase.Gone? ==> call.phase.Arrived? && call.answer.None?)
               && (s.closed ==> call.answer == Some(NotStarted("conflict")))
               && (!s.closed && payload > 10_485_760 ==> call.answer == Some(NotStarted("invalid_input")))
  {
  }

  /** Once closed, the client stays closed: whoever arrives in any continuation is turned away. */
  lemma {:induction false} ClosedForever(c: Config, s: Sys, later: seq<Event>, payload: nat)
    ensures var end := Run(c, Step(c, s, Close), later);
            end.closed && Step(c, end, Arrive(payload)).calls[|end.calls|] == Call(payload, Gone, Some(NotStarted("conflict")), false)
  {
    hide WrappingSub, SaturatingAdd, Answered;
    if later != [] {
      ClosedForever(c, s, later[..|later| - 1], payload);
    }
  }

  // ---- One call's admission as the caller runs it ----

  ghost predicate Reaches(c: Config, start: Sys, trace: seq<Event>, s: Sys) {
    Run(c, start, trace) == s
  }

  lemma Extend(c: Config, start: Sys, trace: seq<Event>, s: Sys, e: Event)
    requires Reaches(c, start, trace, s)
    ensures Reaches(c, start, trace + [e], Step(c, s, e))
  {
    assert (trace + [e])[..|trace|] == trace;
  }

  class ClientInner {
    const config: Config
    var pendingCount: nat
    var pendingBytes: nat
    var permits: nat
    var closed: bool
    ghost var calls: seq<Call>

    constructor (config: Config)
      ensures this.config == config && State() == Start(config)
    {
      this.config := config;
      pendingCount, pendingBytes, permits, closed := 0, 0, config.maxInFlight, false;
      calls := [];
    }

    ghost function State(): Sys
      reads this
    {
      Sys(calls, pendingCount, pendingBytes, permits, closed)
    }

    /** compare_exchange_weak: may fail although the value is the expected one. */
    method ExchangeCount(expected: nat, next: nat, spurious: bool) returns (ok: bool, actual: nat)
      modifies this`pendingCount
      ensures ok == (!spurious && old(pendingCount) == expected) && actual == old(pendingCount)
      ensures pendingCount == if ok then next else old(pendingCount)
    {
      actual := pendingCount;
      ok := !spurious && pendingCount == expected;
      if ok {
        pendingCount := next;
      }
    }

    method ExchangeBytes(expected: nat, next: nat, spurious: bool) returns (ok: bool, actual: nat)
      modifies this`pendingBytes
      ensures ok == (!spurious && old(pendingBytes) == expected) && actual == old(pendingBytes)
      ensures pendingBytes == if ok then next else old(pendingBytes)
    {
      actual := pendingBytes;
      ok := !spurious && pendingBytes == expected;
      if ok {
        pendingBytes := next;
      }
    }

    /**
     Admits a call or answers it, undisturbed but for `failures` spurious exchange failures: it is
     admitted exactly when it is open, small enough, and fits both limits, and a refusal leaves both
     counters as they were.
     */
    method Admit(payload: nat, failures: nat) returns (answer: Option<Answer>, ghost trace: seq<Event>)
      requires ValidConfig(config) && Conserved(config, State())
      modifies this`pendingCount, this`pendingBytes, this`calls
      ensures Reaches(config, old(State()), trace, State()) && Conserved(config, State())
      ensures answer.None? <==> !closed && payload <= 10_485_760
                                && old(pendingCount) < config.maxPending && old(pendingBytes) + payload <= config.maxPendingBytes
      ensures answer.Some? ==>
                answer.value == NotStarted(if closed then "conflict" else if payload > 10_485_760 then "invalid_input" else "resource_exhausted")
      ensures pendingCount == if answer.None? then old(pendingCount) + 1 else old(pendingCount)
      ensures pendingBytes == if answer.None? then old(pendingBytes) + payload else old(pendingBytes)
      ensures |calls| == old(|calls|) + 1 && calls[|calls| - 1].answer == answer
      ensures calls[|calls| - 1].phase == if answer.None? then Queued else Gone
    {
      ghost var start, w := State(), |calls|;
      Extend(config, start, [], start, Arrive(payload));
      trace := [] + [Arrive(payload)];
      calls := Step(config, start, Arrive(payload)).calls;
      RunConserves(config, start, trace);
      if closed {
        return Some(NotStarted("conflict")), trace;
      }
      if payload > MAX_PAYLOAD_BYTES {
        return Some(NotStarted("invalid_input")), trace;
      }
      answer, trace := AdmitCount(start, trace, w, payload, failures);
      if answer.None? {
        answer, trace := AdmitBytes(start, trace, w, payload, failures);
      }
      RunConserves(config, start, trace);
    }

    method AdmitCount(ghost start: Sys, ghost before: seq<Event>, ghost w: nat, payload: nat, failures: nat)
      returns (answer: Option<Answer>, ghost trace: seq<Event>)
      requires In(State(), w) && calls[w] == Call(payload, Arrived, None, false)
      requires Reaches(config, start, before, State())
      modifies this`pendingCount, this`calls
      ensures Reaches(config, start, trace, State())
      ensures |calls| == old(|calls|)
      ensures answer.None? <==> old(pendingCount) < config.maxPending
      ensures answer.Some? ==> answer == Some(NotStarted("resource_exhausted"))
      ensures pendingCount == if answer.None? then old(pendingCount) + 1 else old(pendingCount)
      ensures calls[w] == Call(payload, if answer.None? then Counted else Gone, answer, false)
    {
      var current, left := pendingCount, failures;
      Extend(config, start, before, State(), LoadCount(w, current));
      trace := before + [LoadCount(w, current)];
      calls := calls[w := calls[w].(phase := CountSeen(current))];
      while true
        invariant current == pendingCount == old(pendingCount) && |calls| == old(|calls|)
        invariant calls[w] == Call(payload, CountSeen(current), None, false)
        invariant Reaches(config, start, trace, State())
        decreases left
      {
        hide Reaches;
        ghost var s := State();
        if current >= config.maxPending {
          Extend(config, start, trace, s, TryCount(w, false, 0));
          calls := calls[w := Call(payload, Gone, Some(NotStarted("resource_exhausted")), false)];
          return Some(NotStarted("resource_exhausted")), trace + [TryCount(w, false, 0)];
        }
        var ok, actual := ExchangeCount(current, current + 1, left > 0);
        Extend(config, start, trace, s, TryCount(w, left > 0, actual));
        trace := trace + [TryCount(w, left > 0, actual)];
        calls := calls[w := calls[w].(phase := if ok then Counted else CountSeen(actual))];
        if ok {
          return None, trace;
        }
        current, left := actual, left - 1;
      }
    }

    method AdmitBytes(ghost start: Sys, ghost before: seq<Event>, ghost w: nat, payload: nat, failures: nat)
      returns (answer: Option<Answer>, ghost trace: seq<Event>)
      requires ValidConfig(config) && payload <= MAX_PAYLOAD_BYTES && pendingCount > 0 && pendingBytes <= config.maxPendingBytes
      requires In(State(), w) && calls[w] == Call(payload, Counted, None, false)
      requires Reaches(config, start, before, State())
      modifies this`pendingCount, this`pendingBytes, this`calls
      ensures Reaches(config, start, trace, State())
      ensures |calls| == old(|calls|)
      ensures answer.None? <==> old(pendingBytes) + payload <= config.maxPendingBytes
      ensures answer.Some? ==> answer == Some(NotStarted("resource_exhausted"))
      ensures pendingCount == if answer.None? then old(pendingCount) else old(pendingCount) - 1
      ensures pendingBytes == if answer.None? then old(pendingBytes) + payload else old(pendingBytes)
      ensures calls[w] == Call(payload, if answer.None? then Queued else Gone, answer, false)
    {
      var current, left := pendingBytes, failures;
      Extend(config, start, before, State(), LoadBytes(w, current));
      trace := before + [LoadBytes(w, current)];
      calls := calls[w := calls[w].(phase := BytesSeen(current))];
      while true
        invariant current == pendingBytes == old(pendingBytes) && pendingCount == old(pendingCount) && |calls| == old(|calls|)
        invariant calls[w] == Call(payload, BytesSeen(current), None, false)
        invariant Reaches(config, start, trace, State())
        decreases left
      {
        hide Reaches;
        ghost var s := State();
        if SaturatingAdd(config, current, payload) > config.maxPendingBytes {
          Extend(config, start, trace, s, TryBytes(w, false, 0));
          pendingCount := WrappingSub(config, pendingCount, 1);
          calls := calls[w := Call(payload, Gone, Some(NotStarted("resource_exhausted")), false)];
          return Some(NotStarted("resource_exhausted")), trace + [TryBytes(w, false, 0)];
        }
        var ok, actual := ExchangeBytes(current, current + payload, left > 0);
        Extend(config, start, trace, s, TryBytes(w, left > 0, actual));
        trace := trace + [TryBytes(w, left > 0, actual)];
        calls := calls[w := calls[w].(phase := if ok then Queued else BytesSeen(actual))];
        if ok {
          return None, trace;
        }
        current, left := actual, left - 1;
      }
    }

    /** The guard's drop once the dispatched work has ended. */
    method DropGuard(ghost w: nat, bytes: nat) returns (ghost trace: seq<Event>)
      requires ValidConfig(config) && Conserved(config, State())
      requires In(State(), w) && calls[w].phase.Ended? && calls[w].bytes == bytes
      modifies this`pendingCount, this`pendingBytes, this`calls
      ensures Reaches(config, old(State()), trace, State()) && Conserved(config, State())
      ensures pendingCount == old(pendingCount) - 1 && pendingBytes == old(pendingBytes) - bytes
      ensures calls == old(calls)[w := old(calls)[w].(phase := DroppingPermit)]
    {
      ghost var start := State();
      TotalUpdate(calls, w, calls[w], Count);
      TotalUpdate(calls, w, calls[w], Bytes);
      hide Total, Weight, Conserved;
      Extend(config, start, [], start, DropCount(w));
      pendingCount := WrappingSub(config, pendingCount, 1);
      calls := calls[w := calls[w].(phase := DroppingBytes(true))];
      trace := [] + [DropCount(w)];
      Extend(config, start, trace, State(), DropBytes(w));
      pendingBytes := WrappingSub(config, pendingBytes, bytes);
      calls := calls[w := calls[w].(phase := DroppingPermit)];
      trace := trace + [DropBytes(w)];
      RunConserves(config, start, trace);
    }
  }
}
