/**
 * How long an event can wait when several rows were created at the same instant, as a
 * sweep does: the query then leaves the database a choice, which may be against a row
 * each time.
 */
module OutboxTies {
  import opened Tables
  import opened OutboxRelay

  /** Row `j` may be found before row `i`: it was created no later. */
  function Rivals(createdAt: nat -> Instant, i: nat): nat -> bool {
    (j: nat) => j != i && createdAt(j) <= createdAt(i)
  }

  /** The other PENDING rows among the first `n` that were created no later than row `i`. */
  function NoLater(rows: seq<OutboxEvent>, createdAt: nat -> Instant, i: nat, n: nat): nat
    requires n <= |rows|
  {
    if n == 0 then 0
    else NoLater(rows, createdAt, i, n - 1) + if IsPending(rows[n - 1]) && Rivals(createdAt, i)(n - 1) then 1 else 0
  }

  lemma {:induction false} RivalsHaveFiveEach(rows: seq<OutboxEvent>, createdAt: nat -> Instant, i: nat, n: nat)
    requires n <= |rows|
    ensures Load(rows, n, Rivals(createdAt, i)) <= MAX_OUTBOX_RETRIES * NoLater(rows, createdAt, i, n)
  {
    if n > 0 {
      RivalsHaveFiveEach(rows, createdAt, i, n - 1);
    }
  }

  function Elements(ids: seq<nat>): set<nat> {
    set i | i in ids
  }

  lemma {:induction false} DistinctElements(ids: seq<nat>)
    requires forall j, k :: 0 <= j < k < |ids| ==> ids[j] != ids[k]
    ensures |Elements(ids)| == |ids|
  {
    if ids == [] {
      assert Elements(ids) == {};
    } else {
      var n := |ids| - 1;
      DistinctElements(ids[..n]);
      assert ids[n] !in Elements(ids[..n]);
      assert Elements(ids) == Elements(ids[..n]) + {ids[n]};
    }
  }

  /** A PENDING row that a batch leaves out has lost to twenty rivals. */
  lemma SkippedForTwenty(rows: seq<OutboxEvent>, createdAt: nat -> Instant, batch: seq<nat>, i: nat, n: nat)
    requires IsBatch(rows, createdAt, batch) && i < n <= |rows| && IsPending(rows[i]) && i !in batch
    requires forall j: nat :: j >= n ==> createdAt(i) < createdAt(j)
    ensures |Hits(batch, n, Rivals(createdAt, i))| == BATCH_SIZE
  {
    forall j | j in batch
      ensures j < n && Rivals(createdAt, i)(j)
    {
      var k :| 0 <= k < |batch| && batch[k] == j;
      assert createdAt(batch[k]) <= createdAt(i);
    }
    assert Hits(batch, n, Rivals(createdAt, i)) == Elements(batch);
    DistinctElements(batch);
  }

  /** Every round spends one of the row's own attempts, or twenty of its rivals'. */
  lemma {:induction false} WaitIsPaidFor(rows: seq<OutboxEvent>, createdAt: nat -> Instant, rounds: seq<Round>, i: nat,
                                         n: nat)
    requires FollowQuery(rows, createdAt, rounds) && i < n <= |rows|
    requires forall j: nat :: j >= n ==> createdAt(i) < createdAt(j)
    ensures IsPending(Rounds(rows, rounds)[i]) ==>
              BATCH_SIZE * |rounds| + BATCH_SIZE <= BATCH_SIZE * Left(rows[i]) + Load(rows, n, Rivals(createdAt, i))
    decreases |rounds|
  {
    hide IsBatch, Rivals;
    if rounds != [] {
      var r := rounds[0];
      BatchIsSome(rows, createdAt, r.batch);
      LoadShrinks(rows, r, n, Rivals(createdAt, i));
      CycleAt(rows, r.batch, r.replies, i);
      WaitIsPaidFor(Turn(rows, r), createdAt, rounds[1..], i, n);
      if !IsPending(Turn(rows, r)[i]) {
        DoneStaysDone(Turn(rows, r), createdAt, rounds[1..], i);
      } else if i !in r.batch {
        SkippedForTwenty(rows, createdAt, r.batch, i, n);
      } else {
        assert exists k :: 0 <= k < |r.batch| && r.batch[k] == i;
      }
    }
  }

  lemma BatchIsSome(rows: seq<OutboxEvent>, createdAt: nat -> Instant, batch: seq<nat>)
    requires IsBatch(rows, createdAt, batch)
    ensures IsSomeBatch(rows, batch)
  {
  }

  /** A batch tries no more rivals than there are. */
  lemma {:induction false} HitsAreRivals(
      rows: seq<OutboxEvent>, createdAt: nat -> Instant, batch: seq<nat>, i: nat, n: nat)
    requires IsSomeBatch(rows, batch) && n <= |rows|
    ensures |Hits(batch, n, Rivals(createdAt, i))| <= NoLater(rows, createdAt, i, n)
  {
    hide Hits;
    if n == 0 {
      HitsGrow(batch, 0, Rivals(createdAt, i));
    } else {
      HitsAreRivals(rows, createdAt, batch, i, n - 1);
      HitsGrow(batch, n - 1, Rivals(createdAt, i));
      assert n - 1 in batch ==> exists k :: 0 <= k < |batch| && batch[k] == n - 1;
    }
  }

  lemma {:induction false} NoLaterShrinks(
      rows: seq<OutboxEvent>, after: seq<OutboxEvent>, createdAt: nat -> Instant, i: nat, n: nat)
    requires n <= |rows| && n <= |after| && NoNewPending(rows, after, n)
    ensures NoLater(after, createdAt, i, n) <= NoLater(rows, createdAt, i, n)
  {
    if n > 0 {
      NoLaterShrinks(rows, after, createdAt, i, n - 1);
    }
  }

  /** A row with fewer than twenty rivals is tried in every round. */
  lemma {:induction false} FewRivalsNeverWait(
      rows: seq<OutboxEvent>, createdAt: nat -> Instant, rounds: seq<Round>, i: nat, n: nat)
    requires FollowQuery(rows, createdAt, rounds) && i < n <= |rows|
    requires forall j: nat :: j >= n ==> createdAt(i) < createdAt(j)
    requires NoLater(rows, createdAt, i, n) < BATCH_SIZE
    ensures IsPending(Rounds(rows, rounds)[i]) ==> |rounds| < Left(rows[i])
    decreases |rounds|
  {
    hide IsBatch, Rivals;
    if rounds != [] {
      var r := rounds[0];
      BatchIsSome(rows, createdAt, r.batch);
      CycleAt(rows, r.batch, r.replies, i);
      TurnAddsNoPending(rows, r);
      NoLaterShrinks(rows, Turn(rows, r), createdAt, i, n);
      FewRivalsNeverWait(Turn(rows, r), createdAt, rounds[1..], i, n);
      if !IsPending(Turn(rows, r)[i]) {
        DoneStaysDone(Turn(rows, r), createdAt, rounds[1..], i);
      } else if i !in r.batch {
        SkippedForTwenty(rows, createdAt, r.batch, i, n);
        HitsAreRivals(rows, createdAt, r.batch, i, n);
      } else {
        AttemptUsesUpOne(rows, r, i);
      }
    }
  }

  /** The groups of four rivals that can keep a row with `n` rivals waiting. */
  function Groups(n: nat): nat {
    if n < BATCH_SIZE then 0 else n / 4
  }

  /** The rounds after which a row with `n` rivals has left PENDING for certain. */
  function LongestWait(n: nat): nat {
    MAX_OUTBOX_RETRIES + Groups(n)
  }

  /**
   * No starvation, whatever order the database gives rows of equal creation time: a
   * PENDING row with n rivals has left PENDING after five rounds if n < 20, and after
   * 5 + n / 4 otherwise, as long as later rows are created strictly later.
   */
  lemma NoStarvationWithTies(rows: seq<OutboxEvent>, createdAt: nat -> Instant, rounds: seq<Round>, i: nat)
    requires FollowQuery(rows, createdAt, rounds) && i < |rows| && IsPending(rows[i])
    requires forall j: nat :: j >= |rows| ==> createdAt(i) < createdAt(j)
    requires |rounds| >= LongestWait(NoLater(rows, createdAt, i, |rows|))
    ensures !IsPending(Rounds(rows, rounds)[i])
  {
    hide Rounds, FollowQuery;
    if NoLater(rows, createdAt, i, |rows|) < BATCH_SIZE {
      FewRivalsNeverWait(rows, createdAt, rounds, i, |rows|);
    } else {
      WaitIsPaidFor(rows, createdAt, rounds, i, |rows|);
      RivalsHaveFiveEach(rows, createdAt, i, |rows|);
    }
  }

  /** Rows 0 to `n` are created at one instant, the others later. */
  function Tie(n: nat): nat -> Instant {
    (i: nat) => if i <= n then 0 else i
  }

  const SAMPLE := OutboxEvent(OrderCaptured, 0, SubscriptionPayload(0, 0, 0), OutboxStatus.Pending, 0)

  /** Round `c` of `q` tries the five groups from number `c` on, in a circle. */
  predicate InWindow(q: nat, g: nat, c: nat) {
    c <= g <= c + 4 || g + q <= c + 4
  }

  function Clamp(x: int, most: nat): (r: nat)
    ensures r <= most
  {
    if x < 0 then 0 else if x > most then most else x
  }

  /** How often group `g` has been tried before round `c`. */
  function GroupTries(q: nat, g: nat, c: nat): nat {
    if g >= 4 then Clamp(c - (g - 4), 5) else Clamp(c, g + 1) + Clamp(c - (q - 4 + g), 4 - g)
  }

  lemma GroupsAreTriedFive(q: nat, g: nat, c: nat)
    requires 5 <= q && g < q && c < q
    ensures GroupTries(q, g, 0) == 0 && GroupTries(q, g, q) == 5
    ensures GroupTries(q, g, c + 1) == GroupTries(q, g, c) + if InWindow(q, g, c) then 1 else 0
    ensures InWindow(q, g, c) ==> GroupTries(q, g, c) < 5
  {
  }

  /** The attempts that row `i` has had before round `c`; the last row is the unlucky one. */
  function Tries(n: nat, i: nat, c: nat): nat {
    var q := Groups(n);
    if i < 4 * q then (if c < q then GroupTries(q, i / 4, c) else 5)
    else if c < q then 0
    else c - q
  }

  /** A row and `n` rivals before round `c`, all publishes having failed. */
  function TiedRows(n: nat, c: nat): (rows: seq<OutboxEvent>)
    ensures |rows| == n + 1
  {
    seq(n + 1, i requires 0 <= i < n + 1 =>
      SAMPLE.(retryCount := Tries(n, i, c),
              status := if Tries(n, i, c) >= MAX_OUTBOX_RETRIES then OutboxStatus.Failed else OutboxStatus.Pending))
  }

  function Wrap(x: nat, q: nat): nat {
    if x < q then x else x - q
  }

  /** While there are groups left the database prefers five of them, then it finds what is left. */
  function UnluckyBatch(n: nat, c: nat): seq<nat> {
    var q := Groups(n);
    if c < q then seq(20, k requires 0 <= k < 20 => 4 * Wrap(c + k / 4, q) + k % 4)
    else seq(n + 1 - 4 * q, k requires 0 <= k < n + 1 - 4 * q => 4 * q + k)
  }

  predicate InUnluckyBatch(n: nat, i: nat, c: nat) {
    var q := Groups(n);
    if c < q then i < 4 * q && InWindow(q, i / 4, c) else 4 * q <= i <= n
  }

  lemma UnluckyBatchHolds(n: nat, c: nat, i: nat)
    ensures i in UnluckyBatch(n, c) <==> InUnluckyBatch(n, i, c)
  {
    var q, batch := Groups(n), UnluckyBatch(n, c);
    if InUnluckyBatch(n, i, c) {
      if c < q {
        var g := i / 4;
        var k := 4 * (if g >= c then g - c else g + q - c) + i % 4;
        assert k / 4 == (if g >= c then g - c else g + q - c) && k % 4 == i % 4;
        assert batch[k] == i;
      } else {
        assert batch[i - 4 * q] == i;
      }
    }
  }

  lemma UnluckyRound(n: nat, c: nat)
    requires c < Groups(n) + 4
    ensures Cycle(TiedRows(n, c), UnluckyBatch(n, c), i => Rejected) == TiedRows(n, c + 1)
  {
    var q, after, next := Groups(n), Cycle(TiedRows(n, c), UnluckyBatch(n, c), i => Rejected), TiedRows(n, c + 1);
    forall i | 0 <= i < n + 1
      ensures after[i] == next[i]
    {
      UnluckyBatchHolds(n, c, i);
      CycleAt(TiedRows(n, c), UnluckyBatch(n, c), i => Rejected, i);
      if c < q && i < 4 * q {
        GroupsAreTriedFive(q, i / 4, c);
      }
    }
  }

  lemma UnluckyBatchIsSome(n: nat, c: nat)
    requires c < Groups(n) + 4
    ensures IsSomeBatch(TiedRows(n, c), UnluckyBatch(n, c))
  {
    var q, batch := Groups(n), UnluckyBatch(n, c);
    forall k | 0 <= k < |batch|
      ensures batch[k] < |TiedRows(n, c)| && IsPending(TiedRows(n, c)[batch[k]])
    {
      assert batch[k] in batch;
      UnluckyBatchHolds(n, c, batch[k]);
      if c < q {
        GroupsAreTriedFive(q, batch[k] / 4, c);
      }
    }
    forall j, k | 0 <= j < k < |batch|
      ensures batch[j] != batch[k]
    {
      if c < q {
        WrapIsInjective(c, j / 4, k / 4, q);
      }
    }
  }

  lemma WrapIsInjective(c: nat, d: nat, e: nat, q: nat)
    requires 5 <= q && c < q && d <= e <= 4
    ensures Wrap(c + d, q) == Wrap(c + e, q) ==> d == e
  {
  }

  lemma UnluckyBatchIsABatch(n: nat, c: nat)
    requires c < Groups(n) + 4
    ensures IsBatch(TiedRows(n, c), Tie(n), UnluckyBatch(n, c))
  {
    UnluckyBatchIsSome(n, c);
    var batch := UnluckyBatch(n, c);
    forall i | 0 <= i < n + 1 && IsPending(TiedRows(n, c)[i]) && i !in batch
      ensures |batch| == BATCH_SIZE
    {
      UnluckyBatchHolds(n, c, i);
    }
  }

  function UnluckyRounds(n: nat, c: nat, length: nat): (rounds: seq<Round>)
    ensures |rounds| == length
    decreases length
  {
    if length == 0 then [] else [Round(UnluckyBatch(n, c), i => Rejected, [])] + UnluckyRounds(n, c + 1, length - 1)
  }

  lemma {:induction false} UnluckyRun(n: nat, c: nat, length: nat)
    requires c + length <= Groups(n) + 4
    ensures FollowQuery(TiedRows(n, c), Tie(n), UnluckyRounds(n, c, length))
    ensures Rounds(TiedRows(n, c), UnluckyRounds(n, c, length)) == TiedRows(n, c + length)
    decreases length
  {
    hide IsBatch, TiedRows, UnluckyBatch, Cycle;
    if length > 0 {
      UnluckyBatchIsABatch(n, c);
      UnluckyRound(n, c);
      var r := UnluckyRounds(n, c, length)[0];
      assert Turn(TiedRows(n, c), r) == TiedRows(n, c + 1);
      assert UnluckyRounds(n, c, length)[1..] == UnluckyRounds(n, c + 1, length - 1);
      UnluckyRun(n, c + 1, length - 1);
    }
  }

  lemma {:induction false} CountTies(n: nat, m: nat)
    requires m <= n
    ensures NoLater(TiedRows(n, 0), Tie(n), n, m) == m
  {
    if m > 0 {
      CountTies(n, m - 1);
      FreshRow(n, m - 1);
    }
  }

  lemma FreshRow(n: nat, i: nat)
    requires i < n
    ensures IsPending(TiedRows(n, 0)[i]) && Rivals(Tie(n), n)(i)
  {
    if i < 4 * Groups(n) {
      GroupsAreTriedFive(Groups(n), i / 4, 0);
    }
  }

  /**
   * The bound is attained for every number of rivals: a row with `n` of them can still
   * be PENDING one round before it.
   */
  lemma LongestWaitIsAttained(n: nat)
    ensures var rows, rounds := TiedRows(n, 0), UnluckyRounds(n, 0, LongestWait(n) - 1);
            && FollowQuery(rows, Tie(n), rounds) && |rounds| == LongestWait(n) - 1
            && IsPending(rows[n]) && NoLater(rows, Tie(n), n, |rows|) == n
            && (forall j: nat :: j >= |rows| ==> Tie(n)(n) < Tie(n)(j))
            && IsPending(Rounds(rows, rounds)[n])
  {
    hide UnluckyRounds, FollowQuery, Rounds, NoLater, Rivals, Tie, TiedRows;
    UnluckyRun(n, 0, LongestWait(n) - 1);
    CountTies(n, n);
    TheRowItself(n);
  }

  lemma TheRowItself(n: nat)
    ensures NoLater(TiedRows(n, 0), Tie(n), n, n + 1) == NoLater(TiedRows(n, 0), Tie(n), n, n)
    ensures IsPending(TiedRows(n, 0)[n]) && IsPending(TiedRows(n, Groups(n) + 4)[n])
    ensures forall j: nat :: j >= n + 1 ==> Tie(n)(n) < Tie(n)(j)
  {
  }

  /** Every run takes a row with `n` rivals out of PENDING within the bound for distinct creation times. */
  ghost predicate TiesCostNothing(n: nat) {
    forall rows: seq<OutboxEvent>, createdAt: nat -> Instant, rounds: seq<Round>, i: nat ::
      IsRunFor(rows, createdAt, rounds, i, n) && |rounds| >= MAX_OUTBOX_RETRIES * Batches(n + 1) ==>
        !IsPending(Rounds(rows, rounds)[i])
  }

  ghost predicate IsRunFor(rows: seq<OutboxEvent>, createdAt: nat -> Instant, rounds: seq<Round>, i: nat, n: nat) {
    && FollowQuery(rows, createdAt, rounds) && i < |rows| && IsPending(rows[i])
    && (forall j: nat :: j >= |rows| ==> createdAt(i) < createdAt(j))
    && NoLater(rows, createdAt, i, |rows|) == n
  }

  /**
   * The bound for distinct creation times survives ties if and only if the row has
   * fewer than twenty rivals, or fewer than four beyond full batches of them.
   */
  lemma TiesCost(n: nat)
    ensures TiesCostNothing(n) <==> n < BATCH_SIZE || n % BATCH_SIZE < 4
  {
    hide Rounds, FollowQuery, NoLater;
    BoundsCompare(n);
    if LongestWait(n) <= MAX_OUTBOX_RETRIES * Batches(n + 1) {
      forall rows: seq<OutboxEvent>, createdAt: nat -> Instant, rounds: seq<Round>, i: nat |
        IsRunFor(rows, createdAt, rounds, i, n) && |rounds| >= MAX_OUTBOX_RETRIES * Batches(n + 1)
        ensures !IsPending(Rounds(rows, rounds)[i])
      {
        NoStarvationWithTies(rows, createdAt, rounds, i);
      }
    } else {
      LongestWaitIsAttained(n);
      var rows, rounds := TiedRows(n, 0), UnluckyRounds(n, 0, LongestWait(n) - 1);
      assert IsRunFor(rows, Tie(n), rounds, n, n);
    }
  }

  lemma BoundsCompare(n: nat)
    ensures LongestWait(n) <= MAX_OUTBOX_RETRIES * Batches(n + 1) <==> n < BATCH_SIZE || n % BATCH_SIZE < 4
  {
    assert Batches(n + 1) == n / 20 + 1;
    assert n / 4 == 5 * (n / 20) + (n % 20) / 4;
  }
}
