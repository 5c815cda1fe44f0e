/**
 * What runs of any number of relays do to single rows and to the logs they carry: when a
 * PUBLISHED row is published for good, and that no log of the ledger is lost on the way.
 */
module RelayDelivery {
  import opened Tables
  import opened OutboxRelay
  import opened RelayRaces
  import LedgerMachine
  import OrderEvents
  import SubscriptionExpiry

  /** The relay has yet to try row `i`, or is trying it. */
  predicate IsAhead(s: State, r: nat, i: nat) {
    r in s.relays && exists p :: s.relays[r].position <= p < |s.relays[r].batch| && s.relays[r].batch[p] == i
  }

  predicate NoReplayOf(steps: seq<Step>, i: nat) {
    forall n :: 0 <= n < |steps| ==> steps[n] != Replay(i)
  }

  predicate IsPublished(s: State, i: nat) {
    i < |s.rows| && s.rows[i].status == Published
  }

  /** The row is PUBLISHED after every continuation that does not replay it. */
  ghost predicate StaysPublished(s: State, i: nat) {
    forall more :: NoReplayOf(more, i) ==> IsPublished(Exec(s, more), i)
  }

  lemma StepKeepsPublished(s: State, step: Step, i: nat)
    requires IsPublished(s, i) && (forall r :: !IsAhead(s, r, i)) && step != Replay(i)
    ensures IsPublished(Apply(s, step), i)
  {
    PublishedIsLeftBy(s, step, i);
    if step.WriteRetries? && IsAt(s, step.relay) {
      assert !IsAhead(s, step.relay, i);
    }
  }

  lemma StepBringsNoneAhead(s: State, step: Step, r: nat, i: nat)
    requires IsPublished(s, i) && !IsAhead(s, r, i)
    ensures !IsAhead(Apply(s, step), r, i)
  {
    var s' := Apply(s, step);
    if step.Start? && step.relay == r && r in s'.relays && s'.relays[r].batch == step.batch && !IsAt(s, r) {
      assert IsSomeBatch(s.rows, step.batch) ==>
          forall p :: 0 <= p < |step.batch| ==> s.rows[step.batch[p]].status != Published;
    }
  }

  lemma {:induction false} PublishedForGood(s: State, more: seq<Step>, i: nat)
    requires IsPublished(s, i) && (forall r :: !IsAhead(s, r, i)) && NoReplayOf(more, i)
    ensures IsPublished(Exec(s, more), i) && forall r :: !IsAhead(Exec(s, more), r, i)
  {
    hide Apply, IsPublished, IsAhead;
    if more != [] {
      var n := |more| - 1;
      PublishedForGood(s, more[..n], i);
      StepKeepsPublished(Exec(s, more[..n]), more[n], i);
      forall r
        ensures !IsAhead(Exec(s, more), r, i)
      {
        StepBringsNoneAhead(Exec(s, more[..n]), more[n], r, i);
      }
    }
  }

  /** Where a relay stands, all rows of its batch existing. */
  predicate StandsAt(s: State, r: nat, relay: Relay) {
    && r in s.relays && s.relays[r] == relay
    && forall k :: 0 <= k < |relay.batch| ==> relay.batch[k] < |s.rows|
  }

  predicate HasCurrent(relay: Relay) {
    relay.position < |relay.batch|
  }

  function Done(relay: Relay): Relay {
    relay.(position := relay.position + 1, stage := Publishing)
  }

  lemma PublishesCurrent(s: State, r: nat, relay: Relay)
    requires StandsAt(s, r, relay) && HasCurrent(relay) && relay.stage.Publishing?
    ensures StandsAt(Apply(s, Publish(r, true)), r, relay.(stage := Marking))
  {
  }

  lemma FailsToMark(s: State, r: nat, relay: Relay)
    requires StandsAt(s, r, relay) && HasCurrent(relay) && relay.stage.Marking?
    ensures StandsAt(Apply(s, MarkingFails(r)), r, relay.(stage := ReadingRetries))
  {
  }

  lemma ReadsCurrent(s: State, r: nat, relay: Relay) returns (next: nat)
    requires StandsAt(s, r, relay) && HasCurrent(relay) && relay.stage.ReadingRetries?
    ensures StandsAt(Apply(s, ReadRetries(r)), r, relay.(stage := WritingRetries(next)))
  {
    next := s.rows[relay.batch[relay.position]].retryCount + 1;
  }

  lemma WritesCurrent(s: State, r: nat, relay: Relay)
    requires StandsAt(s, r, relay) && HasCurrent(relay) && relay.stage.WritingRetries?
    ensures StandsAt(Apply(s, WriteRetries(r)), r, Done(relay))
    ensures !IsPublished(Apply(s, WriteRetries(r)), relay.batch[relay.position])
  {
  }

  predicate NoReplays(steps: seq<Step>) {
    forall n :: 0 <= n < |steps| ==> !steps[n].Replay?
  }

  /** Whatever it is about to do, a relay can still fail to mark its current row and record that. */
  lemma CurrentCanFail(s: State, r: nat, relay: Relay) returns (more: seq<Step>)
    requires StandsAt(s, r, relay) && HasCurrent(relay)
    ensures NoReplays(more) && StandsAt(Exec(s, more), r, Done(relay))
    ensures !IsPublished(Exec(s, more), relay.batch[relay.position])
  {
    hide Apply, StandsAt, IsPublished;
    var now := relay;
    more := [];
    if now.stage.Publishing? {
      PublishesCurrent(s, r, now);
      ExecOneMore(s, more, Publish(r, true));
      more, now := more + [Publish(r, true)], now.(stage := Marking);
    }
    if now.stage.Marking? {
      FailsToMark(Exec(s, more), r, now);
      ExecOneMore(s, more, MarkingFails(r));
      more, now := more + [MarkingFails(r)], now.(stage := ReadingRetries);
    }
    if now.stage.ReadingRetries? {
      var next := ReadsCurrent(Exec(s, more), r, now);
      ExecOneMore(s, more, ReadRetries(r));
      more, now := more + [ReadRetries(r)], now.(stage := WritingRetries(next));
    }
    WritesCurrent(Exec(s, more), r, now);
    ExecOneMore(s, more, WriteRetries(r));
    more := more + [WriteRetries(r)];
  }

  lemma {:induction false} ExecFrom(s: State, front: seq<Step>, rest: seq<Step>)
    ensures Exec(s, front + rest) == Exec(Exec(s, front), rest)
  {
    hide Apply;
    if rest == [] {
      assert front + rest == front;
    } else {
      var n := |rest| - 1;
      ExecFrom(s, front, rest[..n]);
      assert (front + rest)[..|front| + n] == front + rest[..n];
    }
  }

  /** A relay can still record a failure for every row ahead of it. */
  lemma {:induction false} RowCanFail(s: State, r: nat, relay: Relay, k: nat) returns (more: seq<Step>)
    requires StandsAt(s, r, relay) && relay.position <= k < |relay.batch|
    ensures NoReplays(more) && !IsPublished(Exec(s, more), relay.batch[k])
    decreases k - relay.position
  {
    hide Exec, StandsAt, IsPublished;
    more := CurrentCanFail(s, r, relay);
    if relay.position < k {
      var rest := RowCanFail(Exec(s, more), r, Done(relay), k);
      ExecFrom(s, more, rest);
      more := more + rest;
    }
  }

  /**
   * In every run, a PUBLISHED row stays so in every continuation that does not replay
   * it if and only if no relay at work has it ahead in its batch.
   */
  lemma PublishedStays(steps: seq<Step>, i: nat)
    requires IsPublished(Exec(EMPTY, steps), i)
    ensures StaysPublished(Exec(EMPTY, steps), i) <==> forall r :: !IsAhead(Exec(EMPTY, steps), r, i)
  {
    var s := Exec(EMPTY, steps);
    if r :| IsAhead(s, r, i) {
      var k :| s.relays[r].position <= k < |s.relays[r].batch| && s.relays[r].batch[k] == i;
      RelaysKeepTableSound(steps);
      assert StandsAt(s, r, s.relays[r]);
      var more := RowCanFail(s, r, s.relays[r], k);
      assert NoReplayOf(more, i);
    } else {
      forall more | NoReplayOf(more, i)
        ensures IsPublished(Exec(s, more), i)
      {
        PublishedForGood(s, more, i);
      }
    }
  }

  /** The events written to the outbox during a run of the relays. */
  function Arrivals(steps: seq<Step>): seq<OutboxEvent> {
    if steps == [] then []
    else
      var n := |steps| - 1;
      Arrivals(steps[..n]) + if steps[n].Arrive? then [Inserted(steps[n].event)] else []
  }

  /** The same events in the same order, whatever has become of their delivery. */
  predicate SameEvents(a: seq<OutboxEvent>, b: seq<OutboxEvent>) {
    |a| == |b| && forall i :: 0 <= i < |a| ==> a[i].eventType == b[i].eventType && a[i].payload == b[i].payload
  }

  lemma StepKeepsEvents(s: State, step: Step, rows: seq<OutboxEvent>)
    requires SameEvents(rows, s.rows)
    ensures SameEvents(rows + (if step.Arrive? then [Inserted(step.event)] else []), Apply(s, step).rows)
  {
  }

  lemma {:induction false} RunKeepsEvents(s: State, steps: seq<Step>)
    ensures SameEvents(s.rows + Arrivals(steps), Exec(s, steps).rows)
  {
    hide Apply;
    if steps != [] {
      var n := |steps| - 1;
      RunKeepsEvents(s, steps[..n]);
      StepKeepsEvents(Exec(s, steps[..n]), steps[n], s.rows + Arrivals(steps[..n]));
      assert s.rows + Arrivals(steps) ==
             (s.rows + Arrivals(steps[..n])) + (if steps[n].Arrive? then [Inserted(steps[n].event)] else []);
    }
  }

  lemma {:induction false} SameEventsSameLogs(a: seq<OutboxEvent>, b: seq<OutboxEvent>, key: string, id: Uuid)
    requires SameEvents(a, b)
    ensures OrderEvents.OrderLog(a, key) == OrderEvents.OrderLog(b, key)
    ensures SubscriptionExpiry.SubscriptionLog(a, id) == SubscriptionExpiry.SubscriptionLog(b, id)
  {
    if a != [] {
      SameEventsSameLogs(a[..|a| - 1], b[..|b| - 1], key, id);
    }
  }

  /** Over all runs of the relays, every log of the table is what has been written to it, in that order. */
  lemma RelaysKeepLogs(s: State, steps: seq<Step>, key: string, id: Uuid)
    ensures var rows := s.rows + Arrivals(steps);
            && OrderEvents.OrderLog(Exec(s, steps).rows, key) == OrderEvents.OrderLog(rows, key)
            && SubscriptionExpiry.SubscriptionLog(Exec(s, steps).rows, id) ==
                SubscriptionExpiry.SubscriptionLog(rows, id)
  {
    RunKeepsEvents(s, steps);
    SameEventsSameLogs(s.rows + Arrivals(steps), Exec(s, steps).rows, key, id);
  }

  /** So when the relays work on what a run of the ledger has written, they leave it all the logs of that run. */
  lemma LedgerLogsSurviveRelays(
      plans: map<Uuid, Plan>, run: seq<LedgerMachine.Step>, steps: seq<Step>, key: string, id: Uuid)
    requires SameEvents(LedgerMachine.Exec(LedgerMachine.Initial(plans), run).db.outbox, Arrivals(steps))
    ensures var written := LedgerMachine.Exec(LedgerMachine.Initial(plans), run).db.outbox;
            && OrderEvents.OrderLog(Exec(EMPTY, steps).rows, key) == OrderEvents.OrderLog(written, key)
            && SubscriptionExpiry.SubscriptionLog(Exec(EMPTY, steps).rows, id)
               == SubscriptionExpiry.SubscriptionLog(written, id)
  {
    hide LedgerMachine.Exec, Exec;
    RelaysKeepLogs(EMPTY, steps, key, id);
    assert EMPTY.rows + Arrivals(steps) == Arrivals(steps);
    SameEventsSameLogs(LedgerMachine.Exec(LedgerMachine.Initial(plans), run).db.outbox, Arrivals(steps), key, id);
  }
}
