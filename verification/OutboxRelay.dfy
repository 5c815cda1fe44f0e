/**
 * One outbox relay: the batch it reads, what a cycle does to the table, how long an
 * event can wait, and why the table drains.
 */
module OutboxRelay {
  import opened Prelude
  import opened Tables
  import opened Redis

  const MAX_OUTBOX_RETRIES := 5
  const BATCH_SIZE := 20

  predicate IsPending(e: OutboxEvent) { e.status == OutboxStatus.Pending }

  /** The number of PENDING rows before row `i`. */
  function PendingBefore(rows: seq<OutboxEvent>, i: nat): nat
    requires i <= |rows|
  {
    if i == 0 then 0 else PendingBefore(rows, i - 1) + if IsPending(rows[i - 1]) then 1 else 0
  }

  /** What comes of publishing an event and marking its row; a row that could not be marked counts as failed. */
  datatype Reply = Accepted | Rejected | NotMarked

  /** An event of an unknown type is not published and counts as delivered once its row is marked. */
  predicate IsDelivered(e: OutboxEvent, reply: Reply) {
    reply == Accepted || (e.eventType.Unknown? && reply != NotMarked)
  }

  function AfterFailure(e: OutboxEvent): OutboxEvent {
    var next := e.retryCount + 1;
    e.(retryCount := next,
       status := if next >= MAX_OUTBOX_RETRIES then OutboxStatus.Failed else OutboxStatus.Pending)
  }

  function Attempt(e: OutboxEvent, reply: Reply): OutboxEvent {
    if IsDelivered(e, reply) then e.(status := Published) else AfterFailure(e)
  }

  /** The table after each event of a batch has been tried once. */
  function Cycle(rows: seq<OutboxEvent>, batch: seq<nat>, replies: nat -> Reply): (after: seq<OutboxEvent>)
    ensures |after| == |rows|
  {
    seq(|rows|, i requires 0 <= i < |rows| => if i in batch then Attempt(rows[i], replies(i)) else rows[i])
  }

  lemma CycleAt(rows: seq<OutboxEvent>, batch: seq<nat>, replies: nat -> Reply, i: nat)
    requires i < |rows|
    ensures Cycle(rows, batch, replies)[i] == if i in batch then Attempt(rows[i], replies(i)) else rows[i]
  {
  }

  /** Up to twenty PENDING rows, each once. */
  predicate IsSomeBatch(rows: seq<OutboxEvent>, batch: seq<nat>) {
    && |batch| <= BATCH_SIZE
    && (forall k :: 0 <= k < |batch| ==> batch[k] < |rows| && IsPending(rows[batch[k]]))
    && (forall j, k :: 0 <= j < k < |batch| ==> batch[j] != batch[k])
  }

  /**
   * What `findMany` of PENDING rows ordered by creation time may return: the oldest, in
   * order. Among rows of the same creation time the database is free.
   */
  predicate IsBatch(rows: seq<OutboxEvent>, createdAt: nat -> Instant, batch: seq<nat>) {
    && IsSomeBatch(rows, batch)
    && (forall j, k :: 0 <= j < k < |batch| ==> createdAt(batch[j]) <= createdAt(batch[k]))
    && (forall i :: 0 <= i < |rows| && IsPending(rows[i]) && i !in batch ==>
          |batch| == BATCH_SIZE && forall k :: 0 <= k < |batch| ==> createdAt(batch[k]) <= createdAt(i))
  }

  /** Rows are created one after the other, never two at the same instant. */
  ghost predicate AreDistinctTimes(createdAt: nat -> Instant) {
    forall i: nat, j: nat :: i < j ==> createdAt(i) < createdAt(j)
  }

  /** `findMany` of PENDING rows, oldest first. */
  function FirstPending(rows: seq<OutboxEvent>, i: nat, limit: nat): (ids: seq<nat>)
    requires i <= |rows|
    ensures |ids| <= limit
    ensures forall k :: 0 <= k < |ids| ==> i <= ids[k] < |rows| && IsPending(rows[ids[k]])
    ensures forall j, k :: 0 <= j < k < |ids| ==> ids[j] < ids[k]
    decreases |rows| - i
  {
    if i == |rows| || limit == 0 then []
    else if IsPending(rows[i]) then [i] + FirstPending(rows, i + 1, limit - 1)
    else FirstPending(rows, i + 1, limit)
  }

  /** The rows found are exactly the PENDING ones with few enough PENDING rows before them. */
  lemma {:induction false} FirstPendingIsBatch(rows: seq<OutboxEvent>, i: nat, limit: nat, j: nat)
    requires i <= j < |rows|
    ensures j in FirstPending(rows, i, limit) <==>
            IsPending(rows[j]) && PendingBefore(rows, j) - PendingBefore(rows, i) < limit
    decreases |rows| - i
  {
    PendingBeforeGrows(rows, i, j);
    if limit > 0 {
      if i < j {
        FirstPendingIsBatch(rows, i + 1, if IsPending(rows[i]) then limit - 1 else limit, j);
        PendingBeforeGrows(rows, i + 1, j);
      }
    }
  }

  lemma {:induction false} PendingBeforeGrows(rows: seq<OutboxEvent>, i: nat, j: nat)
    requires i <= j <= |rows|
    ensures PendingBefore(rows, i) <= PendingBefore(rows, j)
    decreases j - i
  {
    if i < j {
      PendingBeforeGrows(rows, i, j - 1);
    }
  }

  lemma {:induction false} FirstPendingIsOldest(rows: seq<OutboxEvent>, i: nat, limit: nat)
    requires i <= |rows|
    ensures var ids := FirstPending(rows, i, limit);
            forall j :: i <= j < |rows| && IsPending(rows[j]) && j !in ids ==>
              |ids| == limit && forall k :: 0 <= k < |ids| ==> ids[k] < j
    decreases |rows| - i
  {
    if i < |rows| && limit > 0 {
      FirstPendingIsOldest(rows, i + 1, if IsPending(rows[i]) then limit - 1 else limit);
    }
  }

  /** A list, in table order, of PENDING rows from row `i` on that misses none before a row it has. */
  predicate AreFirst(rows: seq<OutboxEvent>, i: nat, limit: nat, ids: seq<nat>) {
    && |ids| <= limit
    && (forall k :: 0 <= k < |ids| ==> i <= ids[k] < |rows| && IsPending(rows[ids[k]]))
    && (forall j, k :: 0 <= j < k < |ids| ==> ids[j] < ids[k])
    && (forall j :: i <= j < |rows| && IsPending(rows[j]) && j !in ids ==>
          |ids| == limit && forall k :: 0 <= k < |ids| ==> ids[k] < j)
  }

  lemma AreFirstTail(rows: seq<OutboxEvent>, i: nat, limit: nat, ids: seq<nat>)
    requires AreFirst(rows, i, limit, ids) && i < |rows| && limit > 0 && IsPending(rows[i])
    ensures ids != [] && ids[0] == i && AreFirst(rows, i + 1, limit - 1, ids[1..])
  {
    assert i in ids;
    assert ids[0] == i;
    forall j | i + 1 <= j < |rows| && IsPending(rows[j]) && j !in ids[1..]
      ensures |ids[1..]| == limit - 1 && forall k :: 0 <= k < |ids[1..]| ==> ids[1..][k] < j
    {
      assert j !in ids;
    }
  }

  lemma FirstIsInRange(rows: seq<OutboxEvent>, i: nat, limit: nat, ids: seq<nat>)
    requires AreFirst(rows, i, limit, ids) && |ids| > 0
    ensures i <= ids[0] < |rows|
  {
  }

  lemma AreFirstEnd(rows: seq<OutboxEvent>, i: nat, limit: nat, ids: seq<nat>)
    requires AreFirst(rows, i, limit, ids) && (i == |rows| || limit == 0)
    ensures ids == []
  {
    if limit > 0 && |ids| > 0 {
      FirstIsInRange(rows, i, limit, ids);
    }
  }

  lemma AreFirstSkip(rows: seq<OutboxEvent>, i: nat, limit: nat, ids: seq<nat>)
    requires AreFirst(rows, i, limit, ids) && i < |rows| && !IsPending(rows[i])
    ensures AreFirst(rows, i + 1, limit, ids)
  {
    forall k | 0 <= k < |ids|
      ensures ids[k] != i
    {
    }
  }

  lemma {:induction false} FirstPendingIsUnique(rows: seq<OutboxEvent>, i: nat, limit: nat, ids: seq<nat>)
    requires i <= |rows| && AreFirst(rows, i, limit, ids)
    ensures ids == FirstPending(rows, i, limit)
    decreases |rows| - i
  {
    hide AreFirst, IsPending;
    if i == |rows| || limit == 0 {
      AreFirstEnd(rows, i, limit, ids);
    } else if IsPending(rows[i]) {
      AreFirstTail(rows, i, limit, ids);
      FirstPendingIsUnique(rows, i + 1, limit - 1, ids[1..]);
      assert ids == [i] + ids[1..];
    } else {
      AreFirstSkip(rows, i, limit, ids);
      FirstPendingIsUnique(rows, i + 1, limit, ids);
    }
  }

  lemma EarlierRowsAreOlder(createdAt: nat -> Instant, i: nat, j: nat)
    requires AreDistinctTimes(createdAt) && createdAt(i) <= createdAt(j)
    ensures i <= j
  {
  }

  lemma OldestIsABatch(rows: seq<OutboxEvent>, createdAt: nat -> Instant)
    requires AreDistinctTimes(createdAt)
    ensures IsBatch(rows, createdAt, FirstPending(rows, 0, BATCH_SIZE))
  {
    FirstPendingIsOldest(rows, 0, BATCH_SIZE);
    hide FirstPending;
  }

  lemma BatchesAreFirst(rows: seq<OutboxEvent>, createdAt: nat -> Instant, batch: seq<nat>)
    requires AreDistinctTimes(createdAt) && IsBatch(rows, createdAt, batch)
    ensures AreFirst(rows, 0, BATCH_SIZE, batch)
  {
    hide AreDistinctTimes;
    forall j, k | 0 <= j < k < |batch|
      ensures batch[j] < batch[k]
    {
      EarlierRowsAreOlder(createdAt, batch[j], batch[k]);
    }
    forall i | 0 <= i < |rows| && IsPending(rows[i]) && i !in batch
      ensures |batch| == BATCH_SIZE && forall k :: 0 <= k < |batch| ==> batch[k] < i
    {
      forall k | 0 <= k < |batch|
        ensures batch[k] < i
      {
        EarlierRowsAreOlder(createdAt, batch[k], i);
      }
    }
  }

  /** With distinct creation times the query has one answer: the first PENDING rows of the table. */
  lemma DistinctTimesLeaveNoChoice(rows: seq<OutboxEvent>, createdAt: nat -> Instant, batch: seq<nat>)
    requires AreDistinctTimes(createdAt)
    ensures IsBatch(rows, createdAt, batch) <==> batch == FirstPending(rows, 0, BATCH_SIZE)
  {
    hide IsBatch, AreFirst, AreDistinctTimes, FirstPending;
    OldestIsABatch(rows, createdAt);
    if IsBatch(rows, createdAt, batch) {
      BatchesAreFirst(rows, createdAt, batch);
      FirstPendingIsUnique(rows, 0, BATCH_SIZE, batch);
    }
  }

  /** The events `ids` have been tried once each, and no other. */
  ghost predicate Tried(rows: seq<OutboxEvent>, replies: nat -> Reply, ids: seq<nat>, after: seq<OutboxEvent>) {
    |after| == |rows| &&
    forall i :: 0 <= i < |rows| ==> after[i] == if i in ids then Attempt(rows[i], replies(i)) else rows[i]
  }

  lemma TriedIsCycle(rows: seq<OutboxEvent>, replies: nat -> Reply, ids: seq<nat>, after: seq<OutboxEvent>)
    requires Tried(rows, replies, ids, after)
    ensures after == Cycle(rows, ids, replies)
  {
    forall i | 0 <= i < |rows|
      ensures after[i] == Cycle(rows, ids, replies)[i]
    {
      CycleAt(rows, ids, replies, i);
    }
  }

  class OutboxRepository {
    const db: Database

    constructor (db: Database)
      ensures this.db == db
    {
      this.db := db;
    }

    /** Whether the query for PENDING rows may return `batch`, when row `i` was created at `createdAt(i)`. */
    predicate FindsPendingEvents(createdAt: nat -> Instant, batch: seq<nat>)
      reads db
    {
      IsBatch(db.outbox, createdAt, batch)
    }

    method MarkPublished(id: nat)
      requires id < |db.outbox|
      modifies db`outbox
      ensures db.outbox == old(db.outbox)[id := old(db.outbox)[id].(status := Published)]
    {
      db.outbox := db.outbox[id := db.outbox[id].(status := Published)];
    }

    method RecordFailure(id: nat) returns (isDeadLetter: bool, retryCount: nat)
      requires id < |db.outbox|
      modifies db`outbox
      ensures db.outbox == old(db.outbox)[id := AfterFailure(old(db.outbox)[id])]
      ensures retryCount == db.outbox[id].retryCount && (isDeadLetter <==> db.outbox[id].status == OutboxStatus.Failed)
    {
      retryCount := db.outbox[id].retryCount + 1;
      isDeadLetter := retryCount >= MAX_OUTBOX_RETRIES;
      db.outbox := db.outbox[id := db.outbox[id].(
        retryCount := retryCount,
        status := if isDeadLetter then OutboxStatus.Failed else OutboxStatus.Pending)];
    }

    method ReplayDeadLetter(id: nat)
      requires id < |db.outbox|
      modifies db`outbox
      ensures db.outbox == old(db.outbox)[id := old(db.outbox)[id].(status := OutboxStatus.Pending, retryCount := 0)]
    {
      db.outbox := db.outbox[id := db.outbox[id].(status := OutboxStatus.Pending, retryCount := 0)];
    }
  }

  const RELAY_LOCK := "lock:outbox-relay"

  class OutboxRelayService {
    const outbox: OutboxRepository
    const redis: RedisService
    var isProcessing: bool

    constructor (outbox: OutboxRepository, redis: RedisService)
      ensures this.outbox == outbox && this.redis == redis && !isProcessing
    {
      this.outbox, this.redis := outbox, redis;
      isProcessing := false;
    }

    /**
     * One cycle, or nothing when this service or another holder of the lock is at work.
     * `query` is the answer of the query, or its error. When the failure of event number
     * `lost` cannot be recorded either, the error leaves the rest of the batch untried.
     */
    method ProcessPendingEvents(
        ghost createdAt: nat -> Instant, query: Result<seq<nat>, DomainError>, replies: nat -> Reply, lost: Option<nat>)
      returns (r: Result<(), DomainError>)
      requires query.Ok? ==> outbox.FindsPendingEvents(createdAt, query.value)
      modifies this`isProcessing, redis`store, outbox.db`outbox
      ensures var busy := old(isProcessing) || (redis.isOpen && RELAY_LOCK in old(redis.store));
              && (busy ==> r.Ok? && outbox.db.outbox == old(outbox.db.outbox) && isProcessing == old(isProcessing)
                           && redis.store == old(redis.store))
              && (!busy && query.Err? ==> r == Err(query.error) && outbox.db.outbox == old(outbox.db.outbox))
              && (!busy && query.Ok? ==>
                    var reached := Reached(old(outbox.db.outbox), query.value, replies, lost);
                    && outbox.db.outbox == Cycle(old(outbox.db.outbox), query.value[..reached], replies)
                    && (r.Ok? <==> reached == |query.value|))
              && (!busy ==> !isProcessing && redis.store == old(redis.store))
    {
      if isProcessing {
        return Ok(());
      }
      var hasLock := redis.AcquireLock(RELAY_LOCK);
      if !hasLock {
        return Ok(());
      }
      isProcessing := true;
      if query.Ok? {
        r := TryEach(createdAt, query.value, replies, lost);
      } else {
        r := Err(query.error);
      }
      isProcessing := false;
      redis.ReleaseLock(RELAY_LOCK);
    }

    /** The loop over the events of a batch. */
    method TryEach(
        ghost createdAt: nat -> Instant, pendingEvents: seq<nat>, replies: nat -> Reply, lost: Option<nat>)
      returns (r: Result<(), DomainError>)
      requires outbox.FindsPendingEvents(createdAt, pendingEvents)
      modifies outbox.db`outbox
      ensures var reached := Reached(old(outbox.db.outbox), pendingEvents, replies, lost);
              && outbox.db.outbox == Cycle(old(outbox.db.outbox), pendingEvents[..reached], replies)
              && (r.Ok? <==> reached == |pendingEvents|)
    {
      r := Ok(());
      ghost var rows := outbox.db.outbox;
      var n := 0;
      while n < |pendingEvents| && r.Ok?
        invariant n <= Reached(rows, pendingEvents, replies, lost)
        invariant Tried(rows, replies, pendingEvents[..n], outbox.db.outbox)
        invariant r.Err? ==> n == Reached(rows, pendingEvents, replies, lost) && n < |pendingEvents|
        decreases |pendingEvents| - n, r.Ok?
      {
        var id := pendingEvents[n];
        assert pendingEvents[..n + 1] == pendingEvents[..n] + [id];
        assert id !in pendingEvents[..n];
        if IsDelivered(outbox.db.outbox[id], replies(id)) {
          outbox.MarkPublished(id);
          n := n + 1;
        } else if lost != Some(n) {
          var isDeadLetter, retryCount := outbox.RecordFailure(id);
          n := n + 1;
        } else {
          r := Err(DatabaseFailure);
        }
      }
      assert n == |pendingEvents| ==> pendingEvents[..n] == pendingEvents;
      TriedIsCycle(rows, replies, pendingEvents[..n], outbox.db.outbox);
    }
  }

  /** How many events of a batch a cycle gets through. */
  function Reached(rows: seq<OutboxEvent>, batch: seq<nat>, replies: nat -> Reply, lost: Option<nat>): (n: nat)
    requires IsSomeBatch(rows, batch)
    ensures n <= |batch|
  {
    if lost.Some? && lost.value < |batch|
        && !IsDelivered(rows[batch[lost.value]], replies(batch[lost.value])) then lost.value
    else |batch|
  }

  /** A cycle without database errors, then whatever is written to the outbox before the next one. */
  datatype Round = Round(batch: seq<nat>, replies: nat -> Reply, arrivals: seq<OutboxEvent>)

  function Turn(rows: seq<OutboxEvent>, r: Round): seq<OutboxEvent> {
    Cycle(rows, r.batch, r.replies) + r.arrivals
  }

  function Rounds(rows: seq<OutboxEvent>, rounds: seq<Round>): (after: seq<OutboxEvent>)
    ensures |after| >= |rows|
    decreases |rounds|
  {
    if rounds == [] then rows else Rounds(Turn(rows, rounds[0]), rounds[1..])
  }

  /** Every batch is an answer of the query on the table of its time. */
  predicate FollowQuery(rows: seq<OutboxEvent>, createdAt: nat -> Instant, rounds: seq<Round>)
    decreases |rounds|
  {
    rounds == [] ||
    (IsBatch(rows, createdAt, rounds[0].batch) && FollowQuery(Turn(rows, rounds[0]), createdAt, rounds[1..]))
  }

  lemma {:induction false} RoundsCompose(rows: seq<OutboxEvent>, createdAt: nat -> Instant, a: seq<Round>,
                                         b: seq<Round>)
    ensures Rounds(rows, a + b) == Rounds(Rounds(rows, a), b)
    ensures FollowQuery(rows, createdAt, a + b) <==>
            FollowQuery(rows, createdAt, a) && FollowQuery(Rounds(rows, a), createdAt, b)
    decreases |a|
  {
    if a == [] {
      assert a + b == b;
    } else {
      assert (a + b)[0] == a[0] && (a + b)[1..] == a[1..] + b;
      RoundsCompose(Turn(rows, a[0]), createdAt, a[1..], b);
    }
  }

  lemma {:induction false} DoneStaysDone(rows: seq<OutboxEvent>, createdAt: nat -> Instant, rounds: seq<Round>, i: nat)
    requires i < |rows| && !IsPending(rows[i]) && FollowQuery(rows, createdAt, rounds)
    ensures !IsPending(Rounds(rows, rounds)[i])
    decreases |rounds|
  {
    if rounds != [] {
      CycleAt(rows, rounds[0].batch, rounds[0].replies, i);
      DoneStaysDone(Turn(rows, rounds[0]), createdAt, rounds[1..], i);
    }
  }

  /** `after` has no PENDING row that `rows` did not have, among the first `n`. */
  predicate NoNewPending(rows: seq<OutboxEvent>, after: seq<OutboxEvent>, n: nat)
    requires n <= |rows| && n <= |after|
  {
    forall j :: 0 <= j < n && IsPending(after[j]) ==> IsPending(rows[j])
  }

  lemma {:induction false} QueueOnlyShrinks(rows: seq<OutboxEvent>, after: seq<OutboxEvent>, n: nat)
    requires n <= |rows| && n <= |after| && NoNewPending(rows, after, n)
    ensures PendingBefore(after, n) <= PendingBefore(rows, n)
  {
    if n > 0 {
      QueueOnlyShrinks(rows, after, n - 1);
    }
  }

  lemma TurnAddsNoPending(rows: seq<OutboxEvent>, r: Round)
    requires IsSomeBatch(rows, r.batch)
    ensures NoNewPending(rows, Turn(rows, r), |rows|)
  {
    forall j | 0 <= j < |rows| && IsPending(Turn(rows, r)[j])
      ensures IsPending(rows[j])
    {
      CycleAt(rows, r.batch, r.replies, j);
    }
  }

  /** A row at the front of the queue is tried in every round, so it is gone after five. */
  lemma {:induction false} FrontLeavesInFive(rows: seq<OutboxEvent>, createdAt: nat -> Instant, rounds: seq<Round>,
                                             i: nat)
    requires AreDistinctTimes(createdAt) && FollowQuery(rows, createdAt, rounds)
    requires i < |rows| && PendingBefore(rows, i) < BATCH_SIZE
    ensures IsPending(Rounds(rows, rounds)[i]) ==>
              |rounds| == 0 || rows[i].retryCount + |rounds| < MAX_OUTBOX_RETRIES
    decreases |rounds|
  {
    hide IsBatch, AreDistinctTimes;
    if rounds != [] {
      var next := Turn(rows, rounds[0]);
      DistinctTimesLeaveNoChoice(rows, createdAt, rounds[0].batch);
      FirstPendingIsBatch(rows, 0, BATCH_SIZE, i);
      CycleAt(rows, rounds[0].batch, rounds[0].replies, i);
      if IsPending(next[i]) {
        FirstPendingIsSomeBatch(rows);
        TurnAddsNoPending(rows, rounds[0]);
        QueueOnlyShrinks(rows, next, i);
        FrontLeavesInFive(next, createdAt, rounds[1..], i);
      } else {
        DoneStaysDone(next, createdAt, rounds[1..], i);
      }
    }
  }

  lemma FirstPendingIsSomeBatch(rows: seq<OutboxEvent>)
    ensures IsSomeBatch(rows, FirstPending(rows, 0, BATCH_SIZE))
  {
  }

  /** When everything at the front is gone, the queue before a row is shorter by a batch. */
  lemma {:induction false} QueueLosesABatch(rows: seq<OutboxEvent>, after: seq<OutboxEvent>, n: nat)
    requires n <= |rows| && n <= |after| && NoNewPending(rows, after, n)
    requires forall j :: 0 <= j < n && PendingBefore(rows, j) < BATCH_SIZE ==> !IsPending(after[j])
    ensures PendingBefore(after, n) <=
            if PendingBefore(rows, n) <= BATCH_SIZE then 0 else PendingBefore(rows, n) - BATCH_SIZE
  {
    if n > 0 {
      QueueLosesABatch(rows, after, n - 1);
    }
  }

  lemma {:induction false} RoundsAddNoPending(rows: seq<OutboxEvent>, createdAt: nat -> Instant, rounds: seq<Round>,
                                              n: nat)
    requires n <= |rows| && FollowQuery(rows, createdAt, rounds)
    ensures NoNewPending(rows, Rounds(rows, rounds), n)
    decreases |rounds|
  {
    if rounds != [] {
      TurnAddsNoPending(rows, rounds[0]);
      RoundsAddNoPending(Turn(rows, rounds[0]), createdAt, rounds[1..], n);
    }
  }

  lemma FiveRoundsClearTheFront(rows: seq<OutboxEvent>, createdAt: nat -> Instant, rounds: seq<Round>, i: nat)
    requires AreDistinctTimes(createdAt) && FollowQuery(rows, createdAt, rounds)
    requires i < |rows| && |rounds| == MAX_OUTBOX_RETRIES
    ensures PendingBefore(rows, i) < BATCH_SIZE ==> !IsPending(Rounds(rows, rounds)[i])
    ensures PendingBefore(rows, i) >= BATCH_SIZE ==>
              PendingBefore(Rounds(rows, rounds), i) <= PendingBefore(rows, i) - BATCH_SIZE
  {
    hide Rounds, FollowQuery, AreDistinctTimes;
    var after := Rounds(rows, rounds);
    forall j | 0 <= j <= i && PendingBefore(rows, j) < BATCH_SIZE
      ensures !IsPending(after[j])
    {
      FrontLeavesInFive(rows, createdAt, rounds, j);
    }
    RoundsAddNoPending(rows, createdAt, rounds, i);
    QueueLosesABatch(rows, after, i);
  }

  /** Math.ceil(k / 20) */
  function Batches(k: nat): nat {
    (k + BATCH_SIZE - 1) / BATCH_SIZE
  }

  /**
   * No starvation, where no two rows were created at the same instant: the k-th oldest
   * PENDING event has left PENDING after five rounds for each started batch of twenty,
   * whatever the broker answers and whatever arrives.
   */
  lemma {:induction false} NoStarvation(rows: seq<OutboxEvent>, createdAt: nat -> Instant, rounds: seq<Round>, i: nat)
    requires AreDistinctTimes(createdAt) && FollowQuery(rows, createdAt, rounds)
    requires i < |rows| && IsPending(rows[i])
    requires |rounds| >= MAX_OUTBOX_RETRIES * Batches(PendingBefore(rows, i) + 1)
    ensures !IsPending(Rounds(rows, rounds)[i])
    decreases |rounds|
  {
    hide Rounds, FollowQuery, AreDistinctTimes;
    var ahead := PendingBefore(rows, i);
    assert Batches(ahead + 1) >= 1;
    var first, rest := rounds[..MAX_OUTBOX_RETRIES], rounds[MAX_OUTBOX_RETRIES..];
    assert first + rest == rounds;
    RoundsCompose(rows, createdAt, first, rest);
    FiveRoundsClearTheFront(rows, createdAt, first, i);
    var after := Rounds(rows, first);
    if IsPending(after[i]) {
      assert Batches(PendingBefore(after, i) + 1) <= Batches(ahead + 1) - 1 by {
        BatchesStep(PendingBefore(after, i) + 1, ahead + 1);
      }
      NoStarvation(after, createdAt, rest, i);
    } else {
      DoneStaysDone(after, createdAt, rest, i);
    }
  }

  lemma BatchesStep(a: nat, b: nat)
    requires a + BATCH_SIZE <= b
    ensures Batches(a) + 1 <= Batches(b)
  {
  }

  /** The attempts a row has left; a PENDING row has at least one. */
  function Left(e: OutboxEvent): nat {
    if !IsPending(e) then 0 else if e.retryCount < MAX_OUTBOX_RETRIES then MAX_OUTBOX_RETRIES - e.retryCount else 1
  }

  /** The attempts that those of the first `n` rows have left that `counts` selects. */
  function Load(rows: seq<OutboxEvent>, n: nat, counts: nat -> bool): nat
    requires n <= |rows|
  {
    if n == 0 then 0 else Load(rows, n - 1, counts) + if counts(n - 1) then Left(rows[n - 1]) else 0
  }

  function Work(rows: seq<OutboxEvent>): nat {
    Load(rows, |rows|, i => true)
  }

  /** The selected ones among the first `n` rows that a batch tries. */
  function Hits(batch: seq<nat>, n: nat, counts: nat -> bool): set<nat> {
    set i | i in batch && i < n && counts(i)
  }

  /** Each attempt uses up at least one. */
  lemma AttemptUsesUpOne(rows: seq<OutboxEvent>, r: Round, i: nat)
    requires IsSomeBatch(rows, r.batch) && i < |rows|
    ensures Left(Turn(rows, r)[i]) + (if i in r.batch then 1 else 0) <= Left(rows[i])
  {
    CycleAt(rows, r.batch, r.replies, i);
    if i in r.batch {
      var k :| 0 <= k < |r.batch| && r.batch[k] == i;
      assert IsPending(rows[r.batch[k]]);
    }
  }

  lemma HitsGrow(batch: seq<nat>, n: nat, counts: nat -> bool)
    ensures Hits(batch, 0, counts) == {}
    ensures |Hits(batch, n + 1, counts)| == |Hits(batch, n, counts)| + if n in batch && counts(n) then 1 else 0
  {
    if n in batch && counts(n) {
      assert Hits(batch, n + 1, counts) == Hits(batch, n, counts) + {n};
    } else {
      assert Hits(batch, n + 1, counts) == Hits(batch, n, counts);
    }
  }

  lemma {:induction false} LoadShrinks(rows: seq<OutboxEvent>, r: Round, n: nat, counts: nat -> bool)
    requires IsSomeBatch(rows, r.batch) && n <= |rows|
    ensures Load(Turn(rows, r), n, counts) + |Hits(r.batch, n, counts)| <= Load(rows, n, counts)
  {
    hide IsSomeBatch, Turn, Left, Hits;
    if n == 0 {
      HitsGrow(r.batch, 0, counts);
    } else {
      LoadShrinks(rows, r, n - 1, counts);
      AttemptUsesUpOne(rows, r, n - 1);
      HitsGrow(r.batch, n - 1, counts);
    }
  }

  /** What every cycle keeps: PENDING rows have attempts left, dead letters have none. */
  predicate RetriesAreSound(rows: seq<OutboxEvent>) {
    forall i :: 0 <= i < |rows| ==>
      && (rows[i].status == OutboxStatus.Pending ==> rows[i].retryCount < MAX_OUTBOX_RETRIES)
      && (rows[i].status == OutboxStatus.Failed ==> rows[i].retryCount >= MAX_OUTBOX_RETRIES)
  }

  lemma {:induction false} PendingRowsAreWork(rows: seq<OutboxEvent>, n: nat)
    requires n <= |rows|
    ensures Load(rows, n, i => true) == 0 <==> PendingBefore(rows, n) == 0
  {
    if n > 0 {
      PendingRowsAreWork(rows, n - 1);
    }
  }

  lemma {:induction false} PendingRowExists(rows: seq<OutboxEvent>, n: nat) returns (i: nat)
    requires n <= |rows| && PendingBefore(rows, n) > 0
    ensures i < n && IsPending(rows[i])
  {
    if IsPending(rows[n - 1]) {
      return n - 1;
    }
    i := PendingRowExists(rows, n - 1);
  }

  /** The attempts left over the PENDING rows shrink in every cycle that finds one, whichever rows it finds first. */
  lemma WorkShrinks(rows: seq<OutboxEvent>, createdAt: nat -> Instant, r: Round)
    requires IsBatch(rows, createdAt, r.batch) && r.arrivals == []
    ensures |Turn(rows, r)| == |rows| && Work(Turn(rows, r)) <= Work(rows)
    ensures PendingBefore(rows, |rows|) > 0 ==> Work(Turn(rows, r)) < Work(rows)
  {
    hide IsPending;
    LoadShrinks(rows, r, |rows|, i => true);
    if PendingBefore(rows, |rows|) > 0 {
      var i := PendingRowExists(rows, |rows|);
      assert |r.batch| > 0;
      assert r.batch[0] in Hits(r.batch, |rows|, i => true);
    }
  }

  /** Without arrivals every cycle uses up work while there is any, so the table drains. */
  lemma {:induction false} TableDrains(rows: seq<OutboxEvent>, createdAt: nat -> Instant, rounds: seq<Round>)
    requires FollowQuery(rows, createdAt, rounds) && forall i :: 0 <= i < |rounds| ==> rounds[i].arrivals == []
    requires |rounds| >= Work(rows)
    ensures PendingBefore(Rounds(rows, rounds), |Rounds(rows, rounds)|) == 0
    decreases |rounds|
  {
    hide IsBatch, Turn;
    PendingRowsAreWork(rows, |rows|);
    if rounds != [] {
      WorkShrinks(rows, createdAt, rounds[0]);
      TableDrains(Turn(rows, rounds[0]), createdAt, rounds[1..]);
    }
  }

  /** `m` full batches dead-lettered, the next one tried `c` times, the rest untouched. */
  predicate IsStuck(rows: seq<OutboxEvent>, m: nat, c: nat) {
    forall i :: 0 <= i < |rows| ==>
      && !rows[i].eventType.Unknown?
      && (i < BATCH_SIZE * m ==> rows[i].status == OutboxStatus.Failed)
      && (i >= BATCH_SIZE * m ==> IsPending(rows[i]) && rows[i].retryCount == if i < BATCH_SIZE * (m + 1) then c else 0)
  }

  lemma {:induction false} StuckQueue(rows: seq<OutboxEvent>, m: nat, c: nat, i: nat)
    requires IsStuck(rows, m, c) && i <= |rows|
    ensures PendingBefore(rows, i) == if i <= BATCH_SIZE * m then 0 else i - BATCH_SIZE * m
  {
    if i > 0 {
      StuckQueue(rows, m, c, i - 1);
    }
  }

  function Oldest(rows: seq<OutboxEvent>): seq<nat> {
    FirstPending(rows, 0, BATCH_SIZE)
  }

  lemma RejectedCycle(rows: seq<OutboxEvent>, m: nat, c: nat)
    requires IsStuck(rows, m, c) && c < MAX_OUTBOX_RETRIES
    ensures c + 1 < MAX_OUTBOX_RETRIES ==> IsStuck(Cycle(rows, Oldest(rows), i => Rejected), m, c + 1)
    ensures c + 1 == MAX_OUTBOX_RETRIES ==> IsStuck(Cycle(rows, Oldest(rows), i => Rejected), m + 1, 0)
  {
    forall i | 0 <= i < |rows|
      ensures Cycle(rows, Oldest(rows), i => Rejected)[i] ==
              if BATCH_SIZE * m <= i < BATCH_SIZE * (m + 1) then AfterFailure(rows[i]) else rows[i]
    {
      StuckQueue(rows, m, c, i);
      FirstPendingIsBatch(rows, 0, BATCH_SIZE, i);
      CycleAt(rows, Oldest(rows), i => Rejected, i);
    }
  }

  function AllRejected(rows: seq<OutboxEvent>, n: nat): seq<OutboxEvent> {
    if n == 0 then rows else Cycle(AllRejected(rows, n - 1), Oldest(AllRejected(rows, n - 1)), i => Rejected)
  }

  /**
   * The bound is attained: when every publish of a fresh table fails, a row is still
   * PENDING one cycle before it.
   */
  lemma {:induction false} BoundIsTight(rows: seq<OutboxEvent>, n: nat)
    requires IsStuck(rows, 0, 0)
    ensures IsStuck(AllRejected(rows, n), n / MAX_OUTBOX_RETRIES, n % MAX_OUTBOX_RETRIES)
    ensures |AllRejected(rows, n)| == |rows|
    ensures forall i ::
            0 <= i < |rows| && n < MAX_OUTBOX_RETRIES * Batches(i + 1) ==> IsPending(AllRejected(rows, n)[i])
  {
    if n > 0 {
      BoundIsTight(rows, n - 1);
      RejectedCycle(AllRejected(rows, n - 1), (n - 1) / MAX_OUTBOX_RETRIES, (n - 1) % MAX_OUTBOX_RETRIES);
      assert if (n - 1) % MAX_OUTBOX_RETRIES + 1 < MAX_OUTBOX_RETRIES
        then n / MAX_OUTBOX_RETRIES == (n - 1) / MAX_OUTBOX_RETRIES
            && n % MAX_OUTBOX_RETRIES == (n - 1) % MAX_OUTBOX_RETRIES + 1
        else n / MAX_OUTBOX_RETRIES == (n - 1) / MAX_OUTBOX_RETRIES + 1 && n % MAX_OUTBOX_RETRIES == 0;
    }
    forall i | 0 <= i < |rows| && n < MAX_OUTBOX_RETRIES * Batches(i + 1)
      ensures IsPending(AllRejected(rows, n)[i])
    {
      assert i >= BATCH_SIZE * (n / MAX_OUTBOX_RETRIES);
    }
  }
}
