/** Enqueueing a batch: the caps every task is checked against, the columns a
    batch is turned into, and the accounting of idempotency conflicts. */
module Push {
  import opened Rows
  import opened Sequences

  newtype Byte = x: int | 0 <= x < 256
  type Text = seq<Byte>

  const MAX_METADATA_PAYLOAD_LEN := 8 * 1024
  const MAX_QUEUE_NAME_LEN := 255
  const MAX_IDEMPOTENCY_KEY_LEN := 1024
  const MAX_JOB_PAYLOAD_LEN := 1024 * 1024

  /** `runAt` is `None` when it does not fit the timestamp range. */
  datatype Task = Task(
    id: nat, payload: Text, runAt: Option<int>, metadata: Text, maxAttempts: int, priority: int, key: Option<Text>)

  datatype Rejection = QueueTooLong | PayloadTooLong | RunAtOutOfRange | MetadataTooLong | KeyTooLong

  datatype Validation = Valid | Invalid(rejection: Rejection)

  function ValidateQueue(queue: Text): Validation {
    if |queue| > MAX_QUEUE_NAME_LEN then Invalid(QueueTooLong) else Valid
  }

  function ValidateColumns(task: Task): Validation {
    if |task.payload| > MAX_JOB_PAYLOAD_LEN then Invalid(PayloadTooLong)
    else if task.runAt.None? then Invalid(RunAtOutOfRange)
    else if |task.metadata| > MAX_METADATA_PAYLOAD_LEN then Invalid(MetadataTooLong)
    else if task.key.Some? && |task.key.value| > MAX_IDEMPOTENCY_KEY_LEN then Invalid(KeyTooLong)
    else Valid
  }

  /** The check a task passes before it is buffered. */
  function ValidateTask(queue: Text, task: Task): Validation {
    if ValidateQueue(queue).Valid? then ValidateColumns(task) else ValidateQueue(queue)
  }

  predicate Accepted(queue: Text, task: Task) {
    ValidateTask(queue, task).Valid?
  }

  /** The caps in numbers: 255 bytes of queue name, 1 MiB of payload, 8 KiB of
      metadata, 1 KiB of key, and a schedule the server can represent. The first
      cap a task exceeds is the one reported. */
  lemma AcceptedWithinTheCaps(queue: Text, task: Task)
    ensures Accepted(queue, task) <==>
              && |queue| <= 255 && |task.payload| <= 1_048_576 && task.runAt.Some? && |task.metadata| <= 8_192
              && (task.key.Some? ==> |task.key.value| <= 1_024)
    ensures ValidateTask(queue, task) == Invalid(QueueTooLong) <==> 255 < |queue|
    ensures ValidateTask(queue, task) == Invalid(PayloadTooLong) <==> |queue| <= 255 && 1_048_576 < |task.payload|
    ensures ValidateTask(queue, task) == Invalid(RunAtOutOfRange) <==>
              |queue| <= 255 && |task.payload| <= 1_048_576 && task.runAt.None?
    ensures ValidateTask(queue, task) == Invalid(MetadataTooLong) <==>
              |queue| <= 255 && |task.payload| <= 1_048_576 && task.runAt.Some? && 8_192 < |task.metadata|
  {
  }

  predicate AllAccepted(queue: Text, tasks: seq<Task>) {
    forall i :: 0 <= i < |tasks| ==> Accepted(queue, tasks[i])
  }

  /** The bind arrays, one per column. */
  datatype Columns = Columns(
    ids: seq<nat>, jobs: seq<Text>, maxAttempts: seq<int>, runAts: seq<int>, priorities: seq<int>,
    metadata: seq<Text>, keys: seq<Option<Text>>)

  /** Row `i` of the columns is task `i`. */
  ghost predicate Transposes(columns: Columns, tasks: seq<Task>) {
    && |columns.ids| == |columns.jobs| == |columns.maxAttempts| == |columns.runAts| == |tasks|
    && |columns.priorities| == |columns.metadata| == |columns.keys| == |tasks|
    && forall i :: 0 <= i < |tasks| ==>
         && tasks[i] == Task(columns.ids[i], columns.jobs[i], Some(columns.runAts[i]), columns.metadata[i],
                             columns.maxAttempts[i], columns.priorities[i], columns.keys[i])
  }

  datatype Prepared = Empty | Batch(columns: Columns) | Rejected(rejection: Rejection)

  /** `prepare_batch`. A task that was accepted one by one is never rejected in
      a batch. */
  method PrepareBatch(queue: Text, tasks: seq<Task>) returns (prepared: Prepared)
    ensures prepared.Empty? <==> tasks == []
    ensures prepared.Batch? ==> Transposes(prepared.columns, tasks)
    ensures prepared.Rejected? <==> !AllAccepted(queue, tasks)
    ensures prepared.Rejected? ==>
              exists i :: 0 <= i < |tasks| && AllAccepted(queue, tasks[..i])
                          && ValidateTask(queue, tasks[i]) == Invalid(prepared.rejection)
  {
    if tasks == [] {
      return Empty;
    }
    if ValidateQueue(queue).Invalid? {
      assert !Accepted(queue, tasks[0]) && AllAccepted(queue, tasks[..0]);
      return Rejected(ValidateQueue(queue).rejection);
    }
    var columns := Columns([], [], [], [], [], [], []);
    for i := 0 to |tasks|
      invariant Transposes(columns, tasks[..i])
      invariant AllAccepted(queue, tasks[..i])
    {
      var task := tasks[i];
      if ValidateColumns(task).Invalid? {
        assert !Accepted(queue, tasks[i]);
        return Rejected(ValidateColumns(task).rejection);
      }
      columns := Columns(columns.ids + [task.id], columns.jobs + [task.payload],
                         columns.maxAttempts + [task.maxAttempts], columns.runAts + [task.runAt.value],
                         columns.priorities + [task.priority], columns.metadata + [task.metadata],
                         columns.keys + [task.key]);
      assert Accepted(queue, tasks[i]);
    }
    assert tasks[..|tasks|] == tasks;
    prepared := Batch(columns);
  }

  // --------------------------------------------------------- the statement

  /** `ON CONFLICT DO NOTHING` on the keys of one queue: the first row of a key
      lands, in statement order, and later ones do not. */
  function Landed(stored: set<Text>, keys: seq<Option<Text>>): seq<Option<Text>>
    decreases |keys|
  {
    if keys == [] then []
    else if keys[0].Some? && keys[0].value in stored then Landed(stored, keys[1..])
    else [keys[0]] + Landed(if keys[0].Some? then stored + {keys[0].value} else stored, keys[1..])
  }

  function Submitted(keys: seq<Option<Text>>): seq<Text> {
    if keys == [] then []
    else (if keys[0].Some? then [keys[0].value] else []) + Submitted(keys[1..])
  }

  /** How often a key occurs. */
  function Count(keys: seq<Text>, key: Text): nat {
    multiset(keys)[key]
  }

  lemma CountHead(keys: seq<Text>, key: Text)
    requires keys != []
    ensures Count(keys, key) == (if keys[0] == key then 1 else 0) + Count(keys[1..], key)
  {
    assert keys == [keys[0]] + keys[1..];
  }

  lemma CountAppend(keys: seq<Text>, last: Text, key: Text)
    ensures Count(keys + [last], key) == Count(keys, key) + (if last == key then 1 else 0)
  {
  }

  lemma SubmittedHead(keys: seq<Option<Text>>, key: Text)
    requires keys != []
    ensures Count(Submitted(keys), key) == (if keys[0] == Some(key) then 1 else 0) + Count(Submitted(keys[1..]), key)
  {
    if keys[0].Some? {
      CountHead(Submitted(keys), key);
      assert Submitted(keys)[1..] == Submitted(keys[1..]);
    } else {
      assert Submitted(keys) == Submitted(keys[1..]);
    }
  }

  /** A key lands once if it was submitted and not stored, and never otherwise. */
  lemma {:induction false} LandsOnce(stored: set<Text>, keys: seq<Option<Text>>, key: Text)
    ensures Count(Submitted(Landed(stored, keys)), key) ==
            if key !in stored && Count(Submitted(keys), key) > 0 then 1 else 0
    decreases |keys|
  {
    if keys != [] {
      SubmittedHead(keys, key);
      if keys[0].Some? && keys[0].value in stored {
        LandsOnce(stored, keys[1..], key);
      } else {
        var after := if keys[0].Some? then stored + {keys[0].value} else stored;
        var landed := [keys[0]] + Landed(after, keys[1..]);
        assert landed[1..] == Landed(after, keys[1..]);
        SubmittedHead(landed, key);
        LandsOnce(after, keys[1..], key);
      }
    }
  }

  /** Fewer rows land than were submitted just when some key conflicts. */
  lemma {:induction false} FewerLandIffConflict(stored: set<Text>, keys: seq<Option<Text>>)
    ensures |Landed(stored, keys)| <= |keys|
    ensures |Landed(stored, keys)| < |keys| <==> exists key :: Conflicts(stored, Submitted(keys), key)
    decreases |keys|
  {
    if keys != [] {
      var head, rest := keys[0], keys[1..];
      if head.None? {
        FewerLandIffConflict(stored, rest);
        assert Submitted(keys) == Submitted(rest);
      } else if head.value in stored {
        FewerLandIffConflict(stored, rest);
        SubmittedHead(keys, head.value);
        assert Conflicts(stored, Submitted(keys), head.value);
      } else {
        FewerLandIffConflict(stored + {head.value}, rest);
        ConflictsAfterFirst(stored, keys);
      }
    }
  }

  lemma ConflictsAfterFirst(stored: set<Text>, keys: seq<Option<Text>>)
    requires keys != [] && keys[0].Some? && keys[0].value !in stored
    ensures (exists key :: Conflicts(stored, Submitted(keys), key)) <==>
            (exists key :: Conflicts(stored + {keys[0].value}, Submitted(keys[1..]), key))
  {
    forall key
      ensures Conflicts(stored, Submitted(keys), key) <==>
              Conflicts(stored + {keys[0].value}, Submitted(keys[1..]), key)
    {
      SubmittedHead(keys, key);
    }
  }

  /** A submitted key collides with a stored row or with another task of the batch. */
  predicate Conflicts(stored: set<Text>, submitted: seq<Text>, key: Text) {
    Count(submitted, key) > 0 && (key in stored || Count(submitted, key) > 1)
  }

  /** Resubmitting one task per key can only collide with stored rows. */
  lemma ResubmittingOnePerKey(stored: set<Text>, submitted: seq<Text>, key: Text)
    requires Distinct(submitted)
    ensures Conflicts(stored, submitted, key) <==> key in submitted && key in stored
  {
    DistinctCountsOnce(submitted, key);
  }

  lemma {:induction false} DistinctCountsOnce(submitted: seq<Text>, key: Text)
    requires Distinct(submitted)
    ensures Count(submitted, key) == if key in submitted then 1 else 0
    decreases |submitted|
  {
    if submitted != [] {
      CountHead(submitted, key);
      DistinctCountsOnce(submitted[1..], key);
    }
  }

  // -------------------------------------------------------- the accountant

  function CountIn(counts: map<Text, nat>, key: Text): nat {
    if key in counts then counts[key] else 0
  }

  /** Inserted rows of a key that the submitted ones did not use up. */
  function Unclaimed(inserted: seq<Text>, submitted: seq<Text>, key: Text): nat {
    if Count(submitted, key) <= Count(inserted, key) then Count(inserted, key) - Count(submitted, key) else 0
  }

  ghost predicate Tallies(counts: map<Text, nat>, inserted: seq<Text>, submitted: seq<Text>) {
    forall key :: CountIn(counts, key) == Unclaimed(inserted, submitted, key)
  }

  lemma TallyInserted(counts: map<Text, nat>, inserted: seq<Text>, key: Text)
    requires Tallies(counts, inserted, [])
    ensures Tallies(counts[key := CountIn(counts, key) + 1], inserted + [key], [])
  {
    var after := counts[key := CountIn(counts, key) + 1];
    forall k
      ensures CountIn(after, k) == Unclaimed(inserted + [key], [], k)
    {
      CountAppend(inserted, key, k);
      assert CountIn(counts, k) == Unclaimed(inserted, [], k);
    }
  }

  lemma TallySubmitted(counts: map<Text, nat>, inserted: seq<Text>, submitted: seq<Text>, key: Text)
    requires Tallies(counts, inserted, submitted)
    ensures var after := if CountIn(counts, key) > 0 then counts[key := counts[key] - 1] else counts;
            Tallies(after, inserted, submitted + [key])
    ensures CountIn(counts, key) == 0 <==> Count(submitted + [key], key) > Count(inserted, key)
    ensures forall k :: k != key ==> Count(submitted + [key], k) == Count(submitted, k)
    ensures Count(submitted + [key], key) == Count(submitted, key) + 1
  {
    var after := if CountIn(counts, key) > 0 then counts[key := counts[key] - 1] else counts;
    assert CountIn(counts, key) == Unclaimed(inserted, submitted, key);
    forall k
      ensures CountIn(after, k) == Unclaimed(inserted, submitted + [key], k)
    {
      CountAppend(submitted, key, k);
      assert CountIn(counts, k) == Unclaimed(inserted, submitted, k);
    }
  }

  /** Walk the submitted keys and consume one inserted row each; a key left
      without one is reported, once. */
  method ConflictingKeys(submitted: seq<Text>, inserted: seq<Text>) returns (conflicting: seq<Text>)
    ensures Distinct(conflicting)
    ensures forall key :: key in conflicting <==> Count(submitted, key) > Count(inserted, key)
  {
    var remaining: map<Text, nat> := map[];
    for i := 0 to |inserted|
      invariant Tallies(remaining, inserted[..i], [])
    {
      var key := inserted[i];
      assert inserted[..i + 1] == inserted[..i] + [key];
      TallyInserted(remaining, inserted[..i], key);
      remaining := remaining[key := CountIn(remaining, key) + 1];
    }
    assert inserted[..|inserted|] == inserted;
    var seen: set<Text> := {};
    conflicting := [];
    for i := 0 to |submitted|
      invariant Tallies(remaining, inserted, submitted[..i])
      invariant forall key :: key in conflicting <==> Count(submitted[..i], key) > Count(inserted, key)
      invariant Distinct(conflicting)
      invariant forall key :: key in seen <==> key in conflicting
    {
      var key := submitted[i];
      assert submitted[..i + 1] == submitted[..i] + [key];
      TallySubmitted(remaining, inserted, submitted[..i], key);
      if CountIn(remaining, key) > 0 {
        remaining := remaining[key := remaining[key] - 1];
      } else if key !in seen {
        seen := seen + {key};
        conflicting := conflicting + [key];
      }
    }
    assert submitted[..|submitted|] == submitted;
  }

  datatype Enqueue = Enqueued | IdempotencyConflict(keys: seq<Text>, total: nat)

  /** `insert_reporting_conflicts` over the stored keys of the queue: every row
      lands, or none does and the collisions are named. */
  method InsertReportingConflicts(stored: set<Text>, keys: seq<Option<Text>>)
    returns (result: Enqueue, after: set<Text>)
    ensures result.IdempotencyConflict? <==> exists key :: Conflicts(stored, Submitted(keys), key)
    ensures result.IdempotencyConflict? ==>
              && after == stored && result.total == |keys| && result.keys != [] && Distinct(result.keys)
              && forall key :: key in result.keys <==> Conflicts(stored, Submitted(keys), key)
    ensures result.Enqueued? ==> after == stored + (set key | key in Submitted(keys))
  {
    var landed := Landed(stored, keys);
    FewerLandIffConflict(stored, keys);
    if |landed| < |keys| {
      var conflicting := ConflictingKeys(Submitted(keys), Submitted(landed));
      forall key
        ensures key in conflicting <==> Conflicts(stored, Submitted(keys), key)
      {
        LandsOnce(stored, keys, key);
      }
      return IdempotencyConflict(conflicting, |keys|), stored;
    }
    result, after := Enqueued, stored + (set key | key in Submitted(landed));
    forall key
      ensures key in Submitted(landed) || key in stored <==> key in Submitted(keys) || key in stored
    {
      LandsOnce(stored, keys, key);
    }
  }
}
