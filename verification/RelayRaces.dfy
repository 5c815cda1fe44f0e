/**
 * Any number of outbox relays at once, as when the Redis lock has expired or Redis is
 * away: each reads some batch of PENDING rows and works through it, with publishing, marking and the two
 * halves of `recordFailure` as separate steps that the others may come between.
 */
module RelayRaces {
  import opened Prelude
  import opened Tables
  import opened OutboxRelay

  /** What a relay does next with the current event of its batch. */
  datatype Stage = Publishing | Marking | ReadingRetries | WritingRetries(next: nat)

  datatype Relay = Relay(batch: seq<nat>, position: nat, stage: Stage)

  /** The table, the rows the broker has ever accepted, and the relays at work. */
  datatype State = State(rows: seq<OutboxEvent>, accepted: set<nat>, relays: map<nat, Relay>)

  datatype Step =
    | Arrive(event: OutboxEvent)
    | Start(relay: nat, batch: seq<nat>)
    | Publish(relay: nat, ok: bool)
    | MarkPublished(relay: nat)
    | MarkingFails(relay: nat)
    | ReadRetries(relay: nat)
    | WriteRetries(relay: nat)
    | Crash(relay: nat)
    | Replay(row: nat)

  /** A row as it is inserted. */
  function Inserted(e: OutboxEvent): OutboxEvent {
    e.(status := OutboxStatus.Pending, retryCount := 0)
  }

  predicate IsAt(s: State, relay: nat) {
    relay in s.relays && s.relays[relay].position < |s.relays[relay].batch|
    && s.relays[relay].batch[s.relays[relay].position] < |s.rows|
  }

  function Current(s: State, relay: nat): (row: nat)
    requires IsAt(s, relay)
    ensures row < |s.rows|
  {
    s.relays[relay].batch[s.relays[relay].position]
  }

  function To(s: State, relay: nat, stage: Stage): State
    requires relay in s.relays
  {
    s.(relays := s.relays[relay := s.relays[relay].(stage := stage)])
  }

  function Next(s: State, relay: nat): State
    requires relay in s.relays
  {
    s.(relays := s.relays[relay := s.relays[relay].(position := s.relays[relay].position + 1, stage := Publishing)])
  }

  function Apply(s: State, step: Step): State {
    match step
    case Arrive(event) => s.(rows := s.rows + [Inserted(event)])
    case Start(r, batch) =>
      if IsAt(s, r) || !IsSomeBatch(s.rows, batch) then s
      else s.(relays := s.relays[r := Relay(batch, 0, Publishing)])
    case Publish(r, ok) =>
      if !IsAt(s, r) || !s.relays[r].stage.Publishing? then s
      else if s.rows[Current(s, r)].eventType.Unknown? then To(s, r, Marking)
      else if ok then To(s, r, Marking).(accepted := s.accepted + {Current(s, r)})
      else To(s, r, ReadingRetries)
    case MarkPublished(r) =>
      if !IsAt(s, r) || !s.relays[r].stage.Marking? then s
      else Next(s, r).(rows := s.rows[Current(s, r) := s.rows[Current(s, r)].(status := Published)])
    case MarkingFails(r) =>
      // A database error while marking is caught and recorded like a failed publish.
      if !IsAt(s, r) || !s.relays[r].stage.Marking? then s else To(s, r, ReadingRetries)
    case ReadRetries(r) =>
      if !IsAt(s, r) || !s.relays[r].stage.ReadingRetries? then s
      else To(s, r, WritingRetries(s.rows[Current(s, r)].retryCount + 1))
    case WriteRetries(r) =>
      if !IsAt(s, r) || !s.relays[r].stage.WritingRetries? then s
      else
        var next := s.relays[r].stage.next;
        Next(s, r).(rows := s.rows[Current(s, r) := s.rows[Current(s, r)].(
          retryCount := next,
          status := if next >= MAX_OUTBOX_RETRIES then OutboxStatus.Failed else OutboxStatus.Pending)])
    case Crash(r) => s.(relays := s.relays - {r})
    case Replay(row) =>
      if row >= |s.rows| then s
      else s.(rows := s.rows[row := s.rows[row].(status := OutboxStatus.Pending, retryCount := 0)])
  }

  function Exec(s: State, steps: seq<Step>): State {
    if steps == [] then s else Apply(Exec(s, steps[..|steps| - 1]), steps[|steps| - 1])
  }

  const EMPTY := State([], {}, map[])

  /** The row may be marked: the broker has accepted it, or its type is not published. */
  predicate MayMark(s: State, row: nat)
    requires row < |s.rows|
  {
    s.rows[row].eventType.Unknown? || row in s.accepted
  }

  ghost predicate BatchesAreRows(s: State) {
    forall r, i :: r in s.relays && 0 <= i < |s.relays[r].batch| ==> s.relays[r].batch[i] < |s.rows|
  }

  ghost predicate PublishedWereAccepted(s: State) {
    forall i :: 0 <= i < |s.rows| && s.rows[i].status == Published ==> MayMark(s, i)
  }

  ghost predicate MarksAreEarned(s: State) {
    forall r :: IsAt(s, r) && s.relays[r].stage.Marking? ==> MayMark(s, Current(s, r))
  }

  ghost predicate StateOk(s: State) {
    RetriesAreSound(s.rows) && BatchesAreRows(s) && PublishedWereAccepted(s) && MarksAreEarned(s)
  }

  lemma StepKeepsRetries(s: State, step: Step)
    requires RetriesAreSound(s.rows)
    ensures RetriesAreSound(Apply(s, step).rows)
  {
  }

  lemma StepKeepsBatches(s: State, step: Step)
    requires BatchesAreRows(s)
    ensures BatchesAreRows(Apply(s, step))
  {
  }

  /** What may be marked stays so: a row keeps its type, and the broker forgets nothing. */
  lemma StepKeepsPublished(s: State, step: Step)
    requires PublishedWereAccepted(s) && MarksAreEarned(s)
    ensures PublishedWereAccepted(Apply(s, step))
    ensures forall i :: 0 <= i < |s.rows| && MayMark(s, i) ==> MayMark(Apply(s, step), i)
  {
  }

  lemma StepKeepsMarks(s: State, step: Step, r: nat)
    requires BatchesAreRows(s) && MarksAreEarned(s)
    requires forall i :: 0 <= i < |s.rows| && MayMark(s, i) ==> MayMark(Apply(s, step), i)
    requires IsAt(Apply(s, step), r) && Apply(s, step).relays[r].stage.Marking?
    ensures MayMark(Apply(s, step), Current(Apply(s, step), r))
  {
    if !step.Arrive? && !step.Replay? && step.relay != r {
      assert Apply(s, step).relays[r] == s.relays[r];
    }
  }

  lemma StepKeepsState(s: State, step: Step)
    requires StateOk(s)
    ensures StateOk(Apply(s, step))
  {
    hide Apply, MayMark, Current;
    StepKeepsRetries(s, step);
    StepKeepsBatches(s, step);
    StepKeepsPublished(s, step);
    forall r | IsAt(Apply(s, step), r) && Apply(s, step).relays[r].stage.Marking?
      ensures MayMark(Apply(s, step), Current(Apply(s, step), r))
    {
      StepKeepsMarks(s, step, r);
    }
  }

  /**
   * With any number of relays, crashes, replays and lost updates: a PENDING row has
   * attempts left, a dead letter has none, and a PUBLISHED row of a known type was
   * accepted by the broker.
   */
  lemma {:induction false} RelaysKeepTableSound(steps: seq<Step>)
    ensures var s := Exec(EMPTY, steps);
            && (forall i :: 0 <= i < |s.rows| ==>
                  && (s.rows[i].status == OutboxStatus.Pending ==> s.rows[i].retryCount < MAX_OUTBOX_RETRIES)
                  && (s.rows[i].status == OutboxStatus.Failed ==> s.rows[i].retryCount >= MAX_OUTBOX_RETRIES))
            && (forall i :: 0 <= i < |s.rows| && s.rows[i].status == Published && !s.rows[i].eventType.Unknown? ==>
                  i in s.accepted)
    ensures StateOk(Exec(EMPTY, steps))
  {
    hide Apply;
    if steps != [] {
      RelaysKeepTableSound(steps[..|steps| - 1]);
      StepKeepsState(Exec(EMPTY, steps[..|steps| - 1]), steps[|steps| - 1]);
    }
  }

  /**
   * Delivery is at least once, not exactly once: a step takes a row out of PUBLISHED
   * if and only if it replays the row, or is the second half of a failure recorded
   * for it, whoever has published it meanwhile.
   */
  lemma PublishedIsLeftBy(s: State, step: Step, i: nat)
    requires i < |s.rows| && s.rows[i].status == Published
    ensures i < |Apply(s, step).rows|
    ensures Apply(s, step).rows[i].status != Published <==>
            step == Replay(i)
            || (step.WriteRetries? && IsAt(s, step.relay) && Current(s, step.relay) == i
                && s.relays[step.relay].stage.WritingRetries?)
  {
  }

  /** A relay that has been refused records the failure after another has published the row. */
  function LateFailure(e: OutboxEvent): seq<Step> {
    [Arrive(e), Start(0, [0]), Start(1, [0]), Publish(0, false), Publish(1, true), MarkPublished(1), ReadRetries(0),
     WriteRetries(0)]
  }

  lemma ExecOneMore(s: State, steps: seq<Step>, step: Step)
    ensures Exec(s, steps + [step]) == Apply(Exec(s, steps), step)
  {
    assert (steps + [step])[..|steps|] == steps;
  }

  /** A run in which a row of a known type is PUBLISHED and goes back to PENDING, without a replay. */
  lemma LateFailureRevivesPublished(e: OutboxEvent)
    requires !e.eventType.Unknown?
    ensures var run := LateFailure(e);
            && |Exec(EMPTY, run[..6]).rows| == |Exec(EMPTY, run).rows| == 1
            && Exec(EMPTY, run[..6]).rows[0].status == Published
            && IsPending(Exec(EMPTY, run).rows[0])
  {
    var run := LateFailure(e);
    var row, failed := Inserted(e), Relay([0], 0, ReadingRetries);
    var published := State([row.(status := Published)], {0}, map[0 := failed, 1 := Relay([0], 1, Publishing)]);
    BothTry(e);
    assert Exec(EMPTY, run[..6]) == published by {
      assert run[..6] == run[..5] + [MarkPublished(1)];
      ExecOneMore(EMPTY, run[..5], MarkPublished(1));
      assert [row][0 := row.(status := Published)] == [row.(status := Published)];
    }
    assert run == run[..6] + [ReadRetries(0)] + [WriteRetries(0)];
    ExecOneMore(EMPTY, run[..6], ReadRetries(0));
    ExecOneMore(EMPTY, run[..6] + [ReadRetries(0)], WriteRetries(0));
  }

  lemma BothStart(e: OutboxEvent)
    ensures Exec(EMPTY, [Arrive(e)] + [Start(0, [0])] + [Start(1, [0])]) ==
            State([Inserted(e)], {}, map[0 := Relay([0], 0, Publishing), 1 := Relay([0], 0, Publishing)])
  {
    assert [] + [Arrive(e)] == [Arrive(e)];
    ExecOneMore(EMPTY, [], Arrive(e));
    ExecOneMore(EMPTY, [Arrive(e)], Start(0, [0]));
    ExecOneMore(EMPTY, [Arrive(e)] + [Start(0, [0])], Start(1, [0]));
    assert Apply(EMPTY, Arrive(e)) == State([Inserted(e)], {}, map[]);
    assert Apply(State([Inserted(e)], {}, map[]), Start(0, [0])) ==
           State([Inserted(e)], {}, map[0 := Relay([0], 0, Publishing)]);
  }

  /** The run up to the point where one relay has been refused and the other accepted. */
  lemma BothTry(e: OutboxEvent)
    requires !e.eventType.Unknown?
    ensures Exec(EMPTY, LateFailure(e)[..5]) ==
            State([Inserted(e)], {0}, map[0 := Relay([0], 0, ReadingRetries), 1 := Relay([0], 0, Marking)])
  {
    var front := [Arrive(e)] + [Start(0, [0])] + [Start(1, [0])];
    assert LateFailure(e)[..5] == front + [Publish(0, false)] + [Publish(1, true)];
    BothStart(e);
    ExecOneMore(EMPTY, front, Publish(0, false));
    ExecOneMore(EMPTY, front + [Publish(0, false)], Publish(1, true));
    var s := State([Inserted(e)], {}, map[0 := Relay([0], 0, Publishing), 1 := Relay([0], 0, Publishing)]);
    assert Apply(s, Publish(0, false)) ==
           State([Inserted(e)], {}, map[0 := Relay([0], 0, ReadingRetries), 1 := Relay([0], 0, Publishing)]);
  }

  /** The steps a relay takes on its current event in answer to `reply`. */
  function OneEvent(s: State, r: nat, reply: Reply): State
    requires IsAt(s, r)
  {
    var tried := Apply(s, Publish(r, reply != Rejected));
    if IsDelivered(s.rows[Current(s, r)], reply) then Apply(tried, MarkPublished(r))
    else
      var failed := if reply == NotMarked then Apply(tried, MarkingFails(r)) else tried;
      Apply(Apply(failed, ReadRetries(r)), WriteRetries(r))
  }

  /** A relay at the start of an event of its batch. */
  predicate IsReady(s: State, r: nat) {
    && r in s.relays && s.relays[r].stage.Publishing? && s.relays[r].position <= |s.relays[r].batch|
    && forall i :: 0 <= i < |s.relays[r].batch| ==> s.relays[r].batch[i] < |s.rows|
  }

  lemma OneEventIsAnAttempt(s: State, r: nat, reply: Reply)
    requires IsReady(s, r) && IsAt(s, r)
    ensures var s' := OneEvent(s, r, reply); var id := Current(s, r);
            && s'.rows == s.rows[id := Attempt(s.rows[id], reply)]
            && IsReady(s', r) && s'.relays[r] == s.relays[r].(position := s.relays[r].position + 1)
  {
    var id := Current(s, r);
    var tried := Apply(s, Publish(r, reply != Rejected));
    assert IsAt(tried, r) && Current(tried, r) == id && tried.rows == s.rows;
    if !IsDelivered(s.rows[id], reply) {
      var failed := if reply == NotMarked then Apply(tried, MarkingFails(r)) else tried;
      assert IsAt(failed, r) && Current(failed, r) == id && failed.rows == s.rows;
      var read := Apply(failed, ReadRetries(r));
      assert IsAt(read, r) && read.relays[r].stage == WritingRetries(s.rows[id].retryCount + 1);
    }
  }

  /** The rest of the batch, with nothing in between. */
  function RestOfBatch(s: State, r: nat, replies: nat -> Reply): State
    requires r in s.relays
    decreases if r in s.relays then |s.relays[r].batch| - s.relays[r].position else 0
  {
    if !IsReady(s, r) || !IsAt(s, r) then s
    else
      OneEventIsAnAttempt(s, r, replies(Current(s, r)));
      RestOfBatch(OneEvent(s, r, replies(Current(s, r))), r, replies)
  }

  lemma {:induction false} RestOfBatchIsTried(s: State, r: nat, replies: nat -> Reply, rows: seq<OutboxEvent>)
    requires IsReady(s, r)
    requires var batch := s.relays[r].batch;
             && (forall i, j :: 0 <= i < j < |batch| ==> batch[i] != batch[j])
             && Tried(rows, replies, batch[..s.relays[r].position], s.rows)
    ensures Tried(rows, replies, s.relays[r].batch, RestOfBatch(s, r, replies).rows)
    decreases |s.relays[r].batch| - s.relays[r].position
  {
    hide OneEvent, Apply, Attempt;
    var batch, n := s.relays[r].batch, s.relays[r].position;
    if n == |batch| {
      assert batch[..n] == batch;
    } else {
      var id := batch[n];
      OneEventIsAnAttempt(s, r, replies(id));
      assert batch[..n + 1] == batch[..n] + [id];
      assert id !in batch[..n];
      RestOfBatchIsTried(OneEvent(s, r, replies(id)), r, replies, rows);
    }
  }

  /** A relay that nothing interrupts does exactly one cycle over the batch it has read. */
  lemma AloneIsACycle(s: State, r: nat, batch: seq<nat>, replies: nat -> Reply)
    requires !IsAt(s, r) && IsSomeBatch(s.rows, batch)
    ensures var started := Apply(s, Start(r, batch));
            r in started.relays && RestOfBatch(started, r, replies).rows == Cycle(s.rows, batch, replies)
  {
    hide RestOfBatch, Cycle;
    var started := Apply(s, Start(r, batch));
    assert batch[..0] == [] && Tried(s.rows, replies, [], started.rows);
    RestOfBatchIsTried(started, r, replies, s.rows);
    TriedIsCycle(s.rows, replies, batch, RestOfBatch(started, r, replies).rows);
  }
}
