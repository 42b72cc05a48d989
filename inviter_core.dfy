/**
 * The invitation engine of inviter_core.py: the per-username outcome state
 * machine, the batch processor with its adaptive delay, and the batch driver
 * that resumes from a checkpoint and saves progress after every batch.
 *
 * The remote platform (get_users, get_chat_member, add_chat_members, get_chat)
 * is an oracle: every username comes with a `Reply` saying how each call
 * ended. Sleeps are not timed; they are recorded in the ghost `waits` log.
 */
module InviterCore {
  import opened Seqs
  import opened ProgressStore

  /** The tunables config.py supplies to the inviter. */
  datatype Settings = Settings(
    initialDelay: int,
    delayIncrement: int,
    maxDelay: int,
    chunkSize: nat,
    chunkPause: int)
  {
    predicate Valid()
    {
      chunkSize > 0 && delayIncrement >= 0 && initialDelay <= maxDelay
    }
  }

  /** The values config.py ships with. */
  function ConfigSettings(): (s: Settings)
    ensures s.Valid()
  {
    Settings(15, 5, 60, 50, 300)
  }

  // ---------------------------------------------------------------------------
  // The remote platform, as seen by one username
  // ---------------------------------------------------------------------------

  /** The exception classes the per-username handler tells apart. */
  datatype RpcError =
    | FloodWait(value: int)
    | UserAlreadyParticipant
    | UserPrivacyRestricted
    | InvalidUsername   // PeerIdInvalid, UsernameInvalid, UsernameNotOccupied
    | OtherError

  datatype Call = Returned | Raised(error: RpcError)

  /** get_chat_member either answers with a status or raises (any exception, FloodWait included). */
  datatype MemberLookup = Status(status: string) | LookupRaised

  /** How each remote call made for one username ends; later calls are ignored when not reached. */
  datatype Reply = Reply(getUsers: Call, getChatMember: MemberLookup, addChatMembers: Call)

  const MemberStatuses: set<string> := {"member", "administrator", "creator"}

  predicate InChat(m: MemberLookup)
  {
    m.Status? && m.status in MemberStatuses
  }

  /** The add attempt is made when get_users answered and the membership check did not find the user. */
  predicate ReachesAdd(r: Reply)
  {
    r.getUsers.Returned? && !InChat(r.getChatMember)
  }

  /** The result class of one username. */
  datatype Outcome = Invited | Skipped | Failed | Throttled(wait: int)

  /** The `except` clauses of _process_chunk, in order. */
  function OnError(e: RpcError): Outcome
  {
    match e
    case FloodWait(value) => Throttled(value)
    case UserAlreadyParticipant => Skipped
    case UserPrivacyRestricted => Skipped
    case InvalidUsername => Failed
    case OtherError => Failed
  }

  /** The errors _process_chunk counts as skips: the user is already in, or cannot be invited. */
  predicate SkipError(e: RpcError)
  {
    e == UserAlreadyParticipant || e == UserPrivacyRestricted
  }

  /** The errors _process_chunk counts as failures: a bad username, or anything unexpected. */
  predicate FailError(e: RpcError)
  {
    e == InvalidUsername || e == OtherError
  }

  /** The per-username state machine of _process_chunk. */
  function Classify(r: Reply): (o: Outcome)
    ensures o.Invited? <==> ReachesAdd(r) && r.addChatMembers.Returned?
    ensures r.getUsers.Returned? && InChat(r.getChatMember) ==> o == Skipped
    ensures r.getUsers.Returned? && r.getChatMember.LookupRaised? ==>
      o == (if r.addChatMembers.Returned? then Invited else OnError(r.addChatMembers.error))
    ensures o.Throttled? <==>
      (r.getUsers.Raised? && r.getUsers.error.FloodWait?) ||
      (ReachesAdd(r) && r.addChatMembers.Raised? && r.addChatMembers.error.FloodWait?)
    ensures o.Throttled? && r.getUsers.Raised? ==> r.getUsers.error == FloodWait(o.wait)
    ensures o.Throttled? && r.getUsers.Returned? ==> r.addChatMembers.error == FloodWait(o.wait)
    ensures o == Skipped <==>
      (r.getUsers.Returned? && InChat(r.getChatMember)) ||
      (r.getUsers.Raised? && SkipError(r.getUsers.error)) ||
      (ReachesAdd(r) && r.addChatMembers.Raised? && SkipError(r.addChatMembers.error))
    ensures o == Failed <==>
      (r.getUsers.Raised? && FailError(r.getUsers.error)) ||
      (ReachesAdd(r) && r.addChatMembers.Raised? && FailError(r.addChatMembers.error))
  {
    if r.getUsers.Raised? then OnError(r.getUsers.error)
    else if InChat(r.getChatMember) then Skipped
    else if r.addChatMembers.Raised? then OnError(r.addChatMembers.error)
    else Invited
  }

  datatype Kind = Success | Skip | Failure | Throttle

  function KindOf(o: Outcome): Kind
  {
    match o
    case Invited => Success
    case Skipped => Skip
    case Failed => Failure
    case Throttled(_) => Throttle
  }

  /** How many replies fall into class `k`. */
  function Count(replies: seq<Reply>, k: Kind): nat
  {
    if replies == [] then 0
    else
      var n := |replies| - 1;
      Count(replies[..n], k) + (if KindOf(Classify(replies[n])) == k then 1 else 0)
  }

  // ---------------------------------------------------------------------------
  // One batch, as a function of the replies
  // ---------------------------------------------------------------------------

  /** What asyncio.sleep was asked to wait, and why. */
  datatype Wait = Pacing(seconds: int) | FloodPause(seconds: int) | BatchPause(seconds: int)

  /** The tallies, lists, delay and waits of a batch processed so far. */
  datatype ChunkState = ChunkState(
    success: nat,
    skipped: nat,
    failed: nat,
    processed: seq<string>,
    skippedNames: seq<string>,
    delay: int,
    waits: seq<Wait>)

  function StartChunk(delay: int): ChunkState
  {
    ChunkState(0, 0, 0, [], [], delay, [])
  }

  function Min(a: int, b: int): int
  {
    if a <= b then a else b
  }

  /** `min(current_delay + delay_increment, max_delay)` */
  function RaiseDelay(delay: int, s: Settings): (d: int)
    ensures d <= s.maxDelay
    ensures d == s.maxDelay || d == delay + s.delayIncrement
    ensures d <= delay + s.delayIncrement
    ensures s.Valid() && delay <= s.maxDelay ==> delay <= d
  {
    Min(delay + s.delayIncrement, s.maxDelay)
  }

  /** One iteration of the loop in _process_chunk. */
  function Step(st: ChunkState, name: string, r: Reply, s: Settings): ChunkState
  {
    match Classify(r)
    case Invited =>
      st.(success := st.success + 1, processed := st.processed + [name],
          waits := st.waits + [Pacing(st.delay)])
    case Skipped =>
      st.(skipped := st.skipped + 1, processed := st.processed + [name],
          skippedNames := st.skippedNames + [name])
    case Failed =>
      st.(failed := st.failed + 1, processed := st.processed + [name])
    case Throttled(value) =>
      st.(processed := st.processed + [name], waits := st.waits + [FloodPause(value)],
          delay := RaiseDelay(st.delay, s))
  }

  /** The whole loop of _process_chunk, name by name in batch order. */
  function Process(st: ChunkState, chunk: seq<string>, replies: seq<Reply>, s: Settings): ChunkState
    requires |replies| == |chunk|
  {
    if chunk == [] then st
    else
      var n := |chunk| - 1;
      Step(Process(st, chunk[..n], replies[..n], s), chunk[n], replies[n], s)
  }

  function CountPacing(ws: seq<Wait>): nat
  {
    if ws == [] then 0 else CountPacing(ws[..|ws| - 1]) + (if ws[|ws| - 1].Pacing? then 1 else 0)
  }

  function CountFloodPauses(ws: seq<Wait>): nat
  {
    if ws == [] then 0 else CountFloodPauses(ws[..|ws| - 1]) + (if ws[|ws| - 1].FloodPause? then 1 else 0)
  }

  function CountBatchPauses(ws: seq<Wait>): nat
  {
    if ws == [] then 0 else CountBatchPauses(ws[..|ws| - 1]) + (if ws[|ws| - 1].BatchPause? then 1 else 0)
  }

  lemma CountsAppend(ws: seq<Wait>, w: Wait)
    ensures CountPacing(ws + [w]) == CountPacing(ws) + (if w.Pacing? then 1 else 0)
    ensures CountFloodPauses(ws + [w]) == CountFloodPauses(ws) + (if w.FloodPause? then 1 else 0)
    ensures CountBatchPauses(ws + [w]) == CountBatchPauses(ws) + (if w.BatchPause? then 1 else 0)
  {
    assert (ws + [w])[..|ws|] == ws;
  }

  lemma {:induction false} CountsConcat(a: seq<Wait>, b: seq<Wait>)
    ensures CountPacing(a + b) == CountPacing(a) + CountPacing(b)
    ensures CountFloodPauses(a + b) == CountFloodPauses(a) + CountFloodPauses(b)
    ensures CountBatchPauses(a + b) == CountBatchPauses(a) + CountBatchPauses(b)
  {
    if b != [] {
      var n := |b| - 1;
      CountsConcat(a, b[..n]);
      assert a + b == (a + b[..n]) + [b[n]];
      assert b == b[..n] + [b[n]];
      CountsAppend(a + b[..n], b[n]);
      CountsAppend(b[..n], b[n]);
    } else {
      assert a + b == a;
    }
  }

  /** Every username of the batch is appended to the processed list exactly once, in order. */
  lemma {:induction false} ProcessedIsChunk(st: ChunkState, chunk: seq<string>, replies: seq<Reply>, s: Settings)
    requires |replies| == |chunk|
    ensures Process(st, chunk, replies, s).processed == st.processed + chunk
  {
    if chunk != [] {
      var n := |chunk| - 1;
      ProcessedIsChunk(st, chunk[..n], replies[..n], s);
      assert chunk == chunk[..n] + [chunk[n]];
    }
  }

  /** Each counter grows by exactly the number of replies of its class; a throttle counts nowhere. */
  lemma {:induction false} ProcessTallies(st: ChunkState, chunk: seq<string>, replies: seq<Reply>, s: Settings)
    requires |replies| == |chunk|
    ensures var r := Process(st, chunk, replies, s);
      r.success == st.success + Count(replies, Success) &&
      r.skipped == st.skipped + Count(replies, Skip) &&
      r.failed == st.failed + Count(replies, Failure)
  {
    if chunk != [] {
      var n := |chunk| - 1;
      ProcessTallies(st, chunk[..n], replies[..n], s);
    }
  }

  /** Every reply falls into exactly one class. */
  lemma {:induction false} CountPartition(replies: seq<Reply>)
    ensures Count(replies, Success) + Count(replies, Skip) + Count(replies, Failure) + Count(replies, Throttle)
            == |replies|
  {
    if replies != [] {
      CountPartition(replies[..|replies| - 1]);
    }
  }

  /** success + skipped + failed is the batch size less the throttled names. */
  lemma {:induction false} TalliesAddUp(chunk: seq<string>, replies: seq<Reply>, s: Settings, delay: int)
    requires |replies| == |chunk|
    ensures var r := Process(StartChunk(delay), chunk, replies, s);
      r.success + r.skipped + r.failed == |chunk| - Count(replies, Throttle)
  {
    ProcessTallies(StartChunk(delay), chunk, replies, s);
    CountPartition(replies);
  }

  /** A name enters the skipped list exactly when its reply is of the Skip class. */
  lemma {:induction false} SkippedNamesMembership(st: ChunkState, chunk: seq<string>, replies: seq<Reply>, s: Settings)
    requires |replies| == |chunk|
    ensures forall x :: x in Process(st, chunk, replies, s).skippedNames <==>
      x in st.skippedNames || exists i :: 0 <= i < |chunk| && chunk[i] == x && Classify(replies[i]).Skipped?
  {
    if chunk != [] {
      var n := |chunk| - 1;
      SkippedNamesMembership(st, chunk[..n], replies[..n], s);
      forall x
        ensures x in Process(st, chunk, replies, s).skippedNames <==>
          x in st.skippedNames || exists i :: 0 <= i < |chunk| && chunk[i] == x && Classify(replies[i]).Skipped?
      {
        if exists i :: 0 <= i < |chunk| && chunk[i] == x && Classify(replies[i]).Skipped? {
          var i :| 0 <= i < |chunk| && chunk[i] == x && Classify(replies[i]).Skipped?;
          if i < n {
            assert chunk[..n][i] == x && replies[..n][i] == replies[i];
          }
        }
        if exists i :: 0 <= i < n && chunk[..n][i] == x && Classify(replies[..n][i]).Skipped? {
          var i :| 0 <= i < n && chunk[..n][i] == x && Classify(replies[..n][i]).Skipped?;
          assert chunk[i] == x && Classify(replies[i]).Skipped?;
        }
      }
    }
  }

  /** The skipped list only ever receives names of the batch. */
  lemma SkippedNamesFromChunk(st: ChunkState, chunk: seq<string>, replies: seq<Reply>, s: Settings)
    requires |replies| == |chunk|
    ensures ToSet(Process(st, chunk, replies, s).skippedNames) <= ToSet(st.skippedNames) + ToSet(chunk)
  {
    SkippedNamesMembership(st, chunk, replies, s);
  }

  /**
   * After a batch with t throttles the delay is min(d + t * increment, max):
   * the repeated clamp of line 97 in closed form.
   */
  lemma {:induction false} DelayClosedForm(st: ChunkState, chunk: seq<string>, replies: seq<Reply>, s: Settings)
    requires |replies| == |chunk|
    requires s.Valid() && st.delay <= s.maxDelay
    ensures Process(st, chunk, replies, s).delay ==
      RaisedDelay(st.delay, Count(replies, Throttle), s)
  {
    if chunk != [] {
      var n := |chunk| - 1;
      DelayClosedForm(st, chunk[..n], replies[..n], s);
      var prev := Process(st, chunk[..n], replies[..n], s);
      var t := Count(replies[..n], Throttle);
      if Classify(replies[n]).Throttled? {
        assert Count(replies, Throttle) == t + 1;
        assert Process(st, chunk, replies, s).delay == RaiseDelay(prev.delay, s);
      } else {
        assert Count(replies, Throttle) == t;
        assert Process(st, chunk, replies, s).delay == prev.delay;
      }
    }
  }

  /** The delay never decreases, never passes the cap, and moves only on a throttle. */
  lemma {:induction false} DelayBounds(st: ChunkState, chunk: seq<string>, replies: seq<Reply>, s: Settings)
    requires |replies| == |chunk|
    requires s.Valid() && st.delay <= s.maxDelay
    ensures var d := Process(st, chunk, replies, s).delay;
      st.delay <= d <= s.maxDelay &&
      (Count(replies, Throttle) == 0 ==> d == st.delay)
  {
    DelayClosedForm(st, chunk, replies, s);
    RaisedDelayClosedForm(st.delay, Count(replies, Throttle), s);
  }

  /**
   * The waits of a batch: one pacing wait per successful invitation, one
   * flood pause per throttle, and no batch pause.
   */
  lemma {:induction false} WaitsFollowOutcomes(st: ChunkState, chunk: seq<string>, replies: seq<Reply>, s: Settings)
    requires |replies| == |chunk|
    ensures var ws := Process(st, chunk, replies, s).waits;
      CountPacing(ws) == CountPacing(st.waits) + Count(replies, Success) &&
      CountFloodPauses(ws) == CountFloodPauses(st.waits) + Count(replies, Throttle) &&
      CountBatchPauses(ws) == CountBatchPauses(st.waits)
  {
    if chunk != [] {
      var n := |chunk| - 1;
      var prev := Process(st, chunk[..n], replies[..n], s);
      WaitsFollowOutcomes(st, chunk[..n], replies[..n], s);
      assert Process(st, chunk, replies, s) == Step(prev, chunk[n], replies[n], s);
      assert Count(replies, Success) == Count(replies[..n], Success) + (if Classify(replies[n]).Invited? then 1 else 0);
      assert Count(replies, Throttle) == Count(replies[..n], Throttle) + (if Classify(replies[n]).Throttled? then 1 else 0);
      match Classify(replies[n])
      case Invited => CountsAppend(prev.waits, Pacing(prev.delay));
      case Throttled(v) => CountsAppend(prev.waits, FloodPause(v));
      case Skipped =>
      case Failed =>
    }
  }

  /** The sleep a username's outcome calls for when the delay stands at `delay`. */
  function WaitOf(r: Reply, delay: int): seq<Wait>
  {
    match Classify(r)
    case Invited => [Pacing(delay)]
    case Throttled(value) => [FloodPause(value)]
    case Skipped => []
    case Failed => []
  }

  /**
   * The sleeps of a batch, name by name in batch order: name i sleeps as
   * WaitOf says, at the delay the throttles before it have raised the
   * starting delay `d0` to.
   */
  function BatchWaits(replies: seq<Reply>, d0: int, s: Settings): seq<Wait>
  {
    if replies == [] then []
    else
      var n := |replies| - 1;
      BatchWaits(replies[..n], d0, s) +
      WaitOf(replies[n], RaisedDelay(d0, Count(replies[..n], Throttle), s))
  }

  /**
   * A batch sleeps exactly BatchWaits: `current_delay` after each successful
   * add, `e.value` after each throttle, nothing otherwise, in batch order.
   */
  lemma {:induction false} WaitsInOrder(st: ChunkState, chunk: seq<string>, replies: seq<Reply>, s: Settings)
    requires |replies| == |chunk|
    requires s.Valid() && st.delay <= s.maxDelay
    ensures Process(st, chunk, replies, s).waits == st.waits + BatchWaits(replies, st.delay, s)
  {
    if chunk != [] {
      var n := |chunk| - 1;
      var prev := Process(st, chunk[..n], replies[..n], s);
      WaitsInOrder(st, chunk[..n], replies[..n], s);
      DelayClosedForm(st, chunk[..n], replies[..n], s);
      assert Process(st, chunk, replies, s) == Step(prev, chunk[n], replies[n], s);
      assert BatchWaits(replies, st.delay, s) ==
        BatchWaits(replies[..n], st.delay, s) + WaitOf(replies[n], prev.delay);
    }
  }

  /** Counting distributes over concatenation. */
  lemma {:induction false} CountAppend(a: seq<Reply>, b: seq<Reply>, k: Kind)
    ensures Count(a + b, k) == Count(a, k) + Count(b, k)
  {
    if b != [] {
      var n := |b| - 1;
      assert (a + b)[..|a + b| - 1] == a + b[..n];
      CountAppend(a, b[..n], k);
    } else {
      assert a + b == a;
    }
  }

  /** The names whose replies classify as skips. */
  ghost function SkipSet(names: seq<string>, replies: seq<Reply>): set<string>
    requires |replies| == |names|
    decreases |names|
  {
    if names == [] then {}
    else
      var n := |names| - 1;
      SkipSet(names[..n], replies[..n]) + (if Classify(replies[n]).Skipped? then {names[n]} else {})
  }

  /** The skipped list of a batch gains exactly the names of SkipSet. */
  lemma {:induction false} SkippedNamesAreSkipSet(st: ChunkState, chunk: seq<string>, replies: seq<Reply>, s: Settings)
    requires |replies| == |chunk|
    ensures ToSet(Process(st, chunk, replies, s).skippedNames) == ToSet(st.skippedNames) + SkipSet(chunk, replies)
  {
    if chunk != [] {
      var n := |chunk| - 1;
      SkippedNamesAreSkipSet(st, chunk[..n], replies[..n], s);
      var prev := Process(st, chunk[..n], replies[..n], s);
      assert Process(st, chunk, replies, s) == Step(prev, chunk[n], replies[n], s);
      if Classify(replies[n]).Skipped? {
        ToSetAppend(prev.skippedNames, [chunk[n]]);
      } else {
        assert Step(prev, chunk[n], replies[n], s).skippedNames == prev.skippedNames;
      }
    }
  }

  lemma {:induction false} SkipSetAppend(a: seq<string>, ra: seq<Reply>, b: seq<string>, rb: seq<Reply>)
    requires |ra| == |a| && |rb| == |b|
    ensures SkipSet(a + b, ra + rb) == SkipSet(a, ra) + SkipSet(b, rb)
    decreases |b|
  {
    if b == [] {
      assert a + b == a && ra + rb == ra;
    } else {
      var n := |b| - 1;
      assert (a + b)[..|a| + n] == a + b[..n];
      assert (ra + rb)[..|a| + n] == ra + rb[..n];
      SkipSetAppend(a, ra, b[..n], rb[..n]);
      assert (a + b)[|a| + n] == b[n] && (ra + rb)[|a| + n] == rb[n];
    }
  }

  /** The delay after t throttles from d: line 97's clamped raise, applied t times. */
  function RaisedDelay(d: int, t: nat, s: Settings): int
    decreases t
  {
    if t == 0 then d else RaiseDelay(RaisedDelay(d, t - 1, s), s)
  }

  /** t clamped raises in a row are one: min(d + t * delay_increment, max_delay). */
  lemma {:induction false} RaisedDelayClosedForm(d: int, t: nat, s: Settings)
    requires s.Valid() && d <= s.maxDelay
    ensures RaisedDelay(d, t, s) == Min(d + s.delayIncrement * t, s.maxDelay)
  {
    if t > 0 {
      RaisedDelayClosedForm(d, t - 1, s);
      MulSucc(s.delayIncrement, t - 1);
    }
  }

  /** Raising by a throttles and then by b is raising by a + b. */
  lemma {:induction false} RaisedTwice(d: int, a: nat, b: nat, s: Settings)
    ensures RaisedDelay(RaisedDelay(d, a, s), b, s) == RaisedDelay(d, a + b, s)
    decreases b
  {
    if b > 0 {
      RaisedTwice(d, a, b - 1, s);
    }
  }

  // ---------------------------------------------------------------------------
  // Batches
  // ---------------------------------------------------------------------------

  /** `[xs[i:i+c] for i in range(0, len(xs), c)]` */
  function Chunks<T>(xs: seq<T>, c: nat): seq<seq<T>>
    requires c > 0
    decreases |xs|
  {
    if xs == [] then []
    else
      var k := Min(c, |xs|);
      [xs[..k]] + Chunks(xs[k..], c)
  }

  /** The batches concatenate back to the list, and each is non-empty and at most c long. */
  lemma {:induction false} ChunksTile<T>(xs: seq<T>, c: nat)
    requires c > 0
    ensures Concat(Chunks(xs, c)) == xs
    ensures forall j :: 0 <= j < |Chunks(xs, c)| ==> 0 < |Chunks(xs, c)[j]| <= c
    decreases |xs|
  {
    if xs != [] {
      var k := Min(c, |xs|);
      ChunksTile(xs[k..], c);
      assert xs[..k] + xs[k..] == xs;
    }
  }

  /** q batches of at most c names cover the list, and q - 1 of them would not. */
  lemma {:induction false} ChunksCover<T>(xs: seq<T>, c: nat)
    requires c > 0
    ensures var q := |Chunks(xs, c)|;
      |xs| <= Offset(q, c) && (q > 0 ==> Offset(q - 1, c) < |xs|)
    decreases |xs|
  {
    if xs != [] {
      var k := Min(c, |xs|);
      ChunksCover(xs[k..], c);
    }
  }

  /** There are ceil(len / c) batches: the `total_chunks` of run_invitation. */
  lemma ChunksCount<T>(xs: seq<T>, c: nat)
    requires c > 0
    ensures |Chunks(xs, c)| == (|xs| + c - 1) / c
  {
    var q := |Chunks(xs, c)|;
    ChunksCover(xs, c);
    OffsetIsProduct(q, c);
    if q > 0 {
      OffsetIsProduct(q - 1, c);
      assert q * c == (q - 1) * c + c;
    }
    DivUnique(|xs| + c - 1, c, q);
  }

  /** The batch starting at offset i is `xs[i:i+c]`, followed by the batches from i + c. */
  lemma ChunksAt<T>(xs: seq<T>, i: nat, c: nat)
    requires c > 0 && i < |xs|
    ensures Chunks(Drop(xs, i), c) == [xs[i..Min(i + c, |xs|)]] + Chunks(Drop(xs, i + c), c)
  {
    var ys := Drop(xs, i);
    var k := Min(c, |ys|);
    assert ys == xs[i..];
    assert ys[..k] == xs[i..Min(i + c, |xs|)];
    assert ys[k..] == Drop(xs, i + c);
  }

  /** q * c, counted up one batch at a time: the offset of batch number q + 1. */
  function Offset(q: nat, c: nat): (i: nat)
  {
    if q == 0 then 0 else Offset(q - 1, c) + c
  }

  lemma {:induction false} OffsetIsProduct(q: nat, c: nat)
    ensures Offset(q, c) == q * c
  {
    if q > 0 {
      OffsetIsProduct(q - 1, c);
      assert q * c == (q - 1) * c + c;
    }
  }

  /**
   * The batch loop has reached offset i of xs, having started at `start`:
   * `visited` is what lies between, and `done` the batches taken so far.
   */
  ghost predicate Walked<T>(xs: seq<T>, start: nat, i: nat, c: nat, visited: seq<T>, done: seq<seq<T>>)
    requires c > 0
  {
    Drop(xs, start) == visited + Drop(xs, i) &&
    Chunks(Drop(xs, start), c) == done + Chunks(Drop(xs, i), c)
  }

  lemma {:induction false} OffsetAdd(a: nat, b: nat, c: nat)
    ensures Offset(a, c) + Offset(b, c) == Offset(a + b, c)
    decreases b
  {
    if b > 0 {
      OffsetAdd(a, b - 1, c);
    }
  }

  /** At offset (lastChunk + k) * c, `i // c + 1` is batch number lastChunk + k + 1. */
  lemma BatchNumberAt(start: nat, lastChunk: nat, k: nat, i: nat, c: nat)
    requires c > 0 && start == Offset(lastChunk, c) && i == start + Offset(k, c)
    ensures i / c == lastChunk + k
  {
    OffsetAdd(lastChunk, k, c);
    OffsetIsProduct(lastChunk + k, c);
    DivUnique(i, c, lastChunk + k);
  }

  /** Taking the batch at offset i moves the walk on to offset i + c. */
  lemma NextBatch<T>(xs: seq<T>, start: nat, i: nat, c: nat, visited: seq<T>, done: seq<seq<T>>, chunk: seq<T>,
                     i': nat, visited': seq<T>, done': seq<seq<T>>)
    requires c > 0 && i < |xs|
    requires Walked(xs, start, i, c, visited, done)
    requires chunk == xs[i..Min(i + c, |xs|)]
    requires i' == i + c && visited' == visited + chunk && done' == done + [chunk]
    ensures Drop(xs, start) == visited' + Drop(xs, i')
    ensures Walked(xs, start, i', c, visited', done')
  {
    DropAt(xs, i, i + c);
    ChunksAt(xs, i, c);
    MoveFront(Drop(xs, start), visited, Drop(xs, i), chunk, Drop(xs, i'), visited');
    MoveFront(Chunks(Drop(xs, start), c), done, Chunks(Drop(xs, i), c), [chunk], Chunks(Drop(xs, i'), c), done');
  }

  /** The names from offset i are the batch at i followed by the names from i + c. */
  lemma DropAt<T>(xs: seq<T>, i: nat, j: nat)
    requires i < j && i < |xs|
    ensures Drop(xs, i) == xs[i..Min(j, |xs|)] + Drop(xs, j)
  {
    if j <= |xs| {
      assert xs[i..] == xs[i..j] + xs[j..];
    } else {
      assert xs[i..] == xs[i..|xs|] + [];
    }
  }

  /** Moving a piece from the front of the rest to the back of the front keeps the whole. */
  lemma MoveFront<U>(whole: seq<U>, front: seq<U>, rest: seq<U>, piece: seq<U>, rest': seq<U>, front': seq<U>)
    requires whole == front + rest && rest == piece + rest' && front' == front + piece
    ensures whole == front' + rest'
  {
    AppendAssoc(front, piece, rest');
  }

  lemma AppendAssoc<T>(a: seq<T>, b: seq<T>, c: seq<T>)
    ensures a + (b + c) == (a + b) + c
  {
  }

  /** What the walk has visited lies in the part of the list it walks. */
  lemma PrefixInside<T>(whole: seq<T>, front: seq<T>, back: seq<T>)
    requires whole == front + back
    ensures ToSet(front) <= ToSet(whole)
  {
    forall x | x in front ensures x in whole {
      var j :| 0 <= j < |front| && front[j] == x;
      assert whole[j] == x;
    }
  }

  lemma MulSucc(a: int, t: int)
    ensures a * (t + 1) == a * t + a
  {
  }

  lemma MulAtLeast(a: int, c: int)
    requires a >= 1 && c > 0
    ensures a * c >= c
    decreases a
  {
    if a > 1 {
      MulAtLeast(a - 1, c);
      assert a * c == (a - 1) * c + c;
    }
  }

  /** Integer division is pinned down by its bounds. */
  lemma DivUnique(x: int, c: int, q: int)
    requires c > 0 && q * c <= x < q * c + c
    ensures x / c == q
  {
    var d := x / c;
    assert d * c <= x < d * c + c;
    assert q * c - d * c == (q - d) * c;
    if d < q {
      MulAtLeast(q - d, c);
      assert false;
    } else if d > q {
      MulAtLeast(d - q, c);
      assert false;
    }
  }

  // ---------------------------------------------------------------------------
  // The inviter
  // ---------------------------------------------------------------------------

  /** What get_chat and get_chat_member("me") say about the target chat. */
  datatype ChatAccess =
    | ChatLookupRaised(valueError: bool)         // get_chat or get_chat_member raised
    | SelfMember(canInviteUsers: Option<bool>)   // None: no privileges object

  datatype Abort = ConfigurationError | FatalError

  datatype RunOutcome = Completed | Aborted(reason: Abort)

  /** _get_chat_info: None when the run may go ahead, else how the run ends. */
  function GetChatInfo(inviteLink: string, access: ChatAccess): (r: Option<Abort>)
    ensures r.None? <==> inviteLink != [] && access == SelfMember(Some(true))
    ensures inviteLink == [] ==> r == Some(ConfigurationError)
    ensures access.SelfMember? && access.canInviteUsers != Some(true) ==> r == Some(ConfigurationError)
  {
    if inviteLink == [] then Some(ConfigurationError)
    else
      match access
      case ChatLookupRaised(valueError) => Some(if valueError then ConfigurationError else FatalError)
      case SelfMember(canInvite) => if canInvite == Some(true) then None else Some(ConfigurationError)
  }

  /** The clock reading and the fate of the write for one save_progress call. */
  datatype SaveEnv = SaveEnv(now: int, outcome: WriteOutcome)

  /**
   * One batch of a run: its number, its names and the replies they got, what
   * was saved after it, the file then, and whether a pause followed.
   */
  datatype Batch = Batch(number: int, chunk: seq<string>, replies: seq<Reply>, saved: Progress, file: FileState,
                         paused: bool)

  /** The names of each batch of a log, in order. */
  function ChunkSeq(bs: seq<Batch>): (r: seq<seq<string>>)
    ensures |r| == |bs|
  {
    if bs == [] then [] else ChunkSeq(bs[..|bs| - 1]) + [bs[|bs| - 1].chunk]
  }

  /** The replies of each batch of a log, in order. */
  function ReplySeq(bs: seq<Batch>): (r: seq<seq<Reply>>)
    ensures |r| == |bs|
  {
    if bs == [] then [] else ReplySeq(bs[..|bs| - 1]) + [bs[|bs| - 1].replies]
  }

  /**
   * Batch numbering and the pause rule of run_invitation: batch j of the run
   * is number lastChunk + j + 1, and a pause follows it unless it is the
   * last (`more` says whether batches are still to come).
   */
  ghost predicate Numbered(bs: seq<Batch>, lastChunk: nat, more: bool)
  {
    forall j :: 0 <= j < |bs| ==>
      bs[j].number == lastChunk + j + 1 && bs[j].saved.lastChunk == bs[j].number &&
      bs[j].paused == (j + 1 < |bs| || more)
  }

  /**
   * What each checkpoint holds: processed and skipped without repeats, the
   * batch's names and all earlier progress among the processed, nothing from
   * outside the list, every skipped name processed (or skipped before the
   * run), and a delay between the run's starting delay and the cap.
   */
  ghost predicate SavedRecords(bs: seq<Batch>, before: set<string>, skippedBefore: set<string>,
                               pool: set<string>, minDelay: int, maxDelay: int)
  {
    forall j :: 0 <= j < |bs| ==> SavedRecord(bs[j], before, skippedBefore, pool, minDelay, maxDelay)
  }

  /** The checkpoint of one batch, as SavedRecords describes it. */
  ghost predicate SavedRecord(b: Batch, before: set<string>, skippedBefore: set<string>,
                              pool: set<string>, minDelay: int, maxDelay: int)
  {
    Distinct(b.saved.processed) && Distinct(b.saved.skipped) &&
    before + ToSet(b.chunk) <= ToSet(b.saved.processed) <= before + pool &&
    ToSet(b.saved.skipped) <= ToSet(b.saved.processed) + skippedBefore &&
    minDelay <= b.saved.currentDelay <= maxDelay
  }

  /**
   * Checkpoint j of a run in closed form: with `names` the run's names up to
   * and including batch j and `rs` their replies, the processed set is the
   * progress before the run plus those names, the skipped set gains exactly
   * the skip-class ones, and the delay is raised once per throttle among them.
   */
  ghost predicate ExactRecords(bs: seq<Batch>, before: set<string>, skippedBefore: set<string>,
                               delay0: int, s: Settings)
  {
    forall j :: 0 <= j < |bs| ==>
      ExactRecord(bs[j], Concat(ChunkSeq(bs[..j + 1])), Concat(ReplySeq(bs[..j + 1])),
                  before, skippedBefore, delay0, s)
  }

  /** The checkpoint of one batch after the run's names `names` met the replies `rs`. */
  ghost predicate ExactRecord(b: Batch, names: seq<string>, rs: seq<Reply>, before: set<string>,
                              skippedBefore: set<string>, delay0: int, s: Settings)
  {
    |rs| == |names| &&
    ToSet(b.saved.processed) == before + ToSet(names) &&
    ToSet(b.saved.skipped) == skippedBefore + SkipSet(names, rs) &&
    b.saved.currentDelay == RaisedDelay(delay0, Count(rs, Throttle), s)
  }

  /** Later checkpoints hold everything earlier ones held, and a delay at least as large. */
  ghost predicate Grows(bs: seq<Batch>)
  {
    forall j, j' :: 0 <= j < j' < |bs| ==>
      ToSet(bs[j].saved.processed) <= ToSet(bs[j'].saved.processed) &&
      bs[j].saved.currentDelay <= bs[j'].saved.currentDelay
  }

  /** The file before batch j of a run. */
  function FileBefore(bs: seq<Batch>, file0: FileState, j: nat): FileState
    requires j <= |bs|
  {
    if j == 0 then file0 else bs[j - 1].file
  }

  /** The checkpoint a batch wrote: the given sets and delay, its number, the clock, through save_progress. */
  ghost predicate SavedAfter(b: Batch, prevFile: FileState, env: SaveEnv,
                             processed: set<string>, skipped: set<string>, delay: int)
  {
    b.saved.lastChunk == b.number && b.saved.timestamp == Some(env.now) && b.saved.currentDelay == delay &&
    Distinct(b.saved.processed) && ToSet(b.saved.processed) == processed &&
    Distinct(b.saved.skipped) && ToSet(b.saved.skipped) == skipped &&
    b.file == SaveProgress(prevFile, b.saved.processed, b.saved.skipped, b.saved.currentDelay,
                           b.saved.lastChunk, env.now, env.outcome)
  }

  /** The checkpoint of b carries the clock of env and was written over prevFile through save_progress. */
  ghost predicate WrittenOver(b: Batch, prevFile: FileState, env: SaveEnv)
  {
    b.saved.timestamp == Some(env.now) &&
    b.file == SaveProgress(prevFile, b.saved.processed, b.saved.skipped, b.saved.currentDelay,
                           b.saved.lastChunk, env.now, env.outcome)
  }

  /** Each batch's file is save_progress applied to the file before it. */
  ghost predicate FileTrail(bs: seq<Batch>, file0: FileState, saveEnv: nat -> SaveEnv)
  {
    forall j {:trigger FileBefore(bs, file0, j)} ::
      0 <= j < |bs| ==> WrittenOver(bs[j], FileBefore(bs, file0, j), saveEnv(j))
  }

  lemma ChunkSeqSnoc(bs: seq<Batch>, b: Batch)
    ensures ChunkSeq(bs + [b]) == ChunkSeq(bs) + [b.chunk]
  {
    assert (bs + [b])[..|bs|] == bs;
  }

  lemma ReplySeqSnoc(bs: seq<Batch>, b: Batch)
    ensures ReplySeq(bs + [b]) == ReplySeq(bs) + [b.replies]
  {
    assert (bs + [b])[..|bs|] == bs;
  }

  /** How the processed and skipped sets of a run move on by one batch. */
  lemma SetsStep(before: set<string>, skippedBefore: set<string>, pool: set<string>,
                 visited: seq<string>, chunk: seq<string>,
                 total: set<string>, total': set<string>, skipped: set<string>, skipped': set<string>)
    requires total == before + ToSet(visited) && total' == total + ToSet(chunk)
    requires ToSet(visited + chunk) <= pool
    requires skipped <= skippedBefore + total && skipped' <= skipped + ToSet(chunk)
    ensures total' == before + ToSet(visited + chunk)
    ensures before + ToSet(chunk) <= total' <= before + pool
    ensures skipped' <= total' + skippedBefore
  {
    ToSetAppend(visited, chunk);
  }

  /** The processed set of the last checkpoint of bs, or `before` when there is none yet. */
  ghost function LastProcessed(bs: seq<Batch>, before: set<string>): set<string>
  {
    if bs == [] then before else ToSet(bs[|bs| - 1].saved.processed)
  }

  /** The skipped set of the last checkpoint of bs, or `skippedBefore` when there is none yet. */
  ghost function LastSkipped(bs: seq<Batch>, skippedBefore: set<string>): set<string>
  {
    if bs == [] then skippedBefore else ToSet(bs[|bs| - 1].saved.skipped)
  }

  /** The delay of the last checkpoint of bs, or `delay0` when there is none yet. */
  function LastDelay(bs: seq<Batch>, delay0: int): int
  {
    if bs == [] then delay0 else bs[|bs| - 1].saved.currentDelay
  }

  /**
   * Batch j of a run as run_invitation leaves it: numbered lastChunk + j + 1,
   * followed by a pause when `more`, and its checkpoint (see SavedRecords)
   * written over `prevFile` with the clock and write fate of `env`. The
   * checkpoint moves on from the one before it by exactly this batch: its
   * names join the processed set, its skip-class names the skipped set, and
   * the delay is raised once per throttle among its replies.
   */
  ghost predicate LogEntry(b: Batch, j: nat, lastChunk: nat, more: bool, before: set<string>,
                           skippedBefore: set<string>, pool: set<string>, minDelay: int, s: Settings,
                           prevProcessed: set<string>, prevSkipped: set<string>, prevDelay: int,
                           prevFile: FileState, env: SaveEnv)
  {
    b.number == lastChunk + j + 1 && b.saved.lastChunk == b.number && b.paused == more &&
    SavedRecord(b, before, skippedBefore, pool, minDelay, s.maxDelay) &&
    |b.replies| == |b.chunk| &&
    ToSet(b.saved.processed) == prevProcessed + ToSet(b.chunk) &&
    ToSet(b.saved.skipped) == prevSkipped + SkipSet(b.chunk, b.replies) &&
    b.saved.currentDelay == RaisedDelay(prevDelay, Count(b.replies, Throttle), s) &&
    WrittenOver(b, prevFile, env)
  }

  /**
   * The log of a run's batches, built up one batch at a time: every batch is
   * a LogEntry over the file the previous one left, each followed by a pause
   * except possibly the last, and each checkpoint grows on the one before.
   */
  ghost predicate BatchLog(bs: seq<Batch>, lastChunk: nat, more: bool, before: set<string>,
                           skippedBefore: set<string>, pool: set<string>, minDelay: int, s: Settings,
                           file0: FileState, saveEnv: nat -> SaveEnv)
    decreases |bs|
  {
    bs == [] ||
    var n := |bs| - 1;
    BatchLog(bs[..n], lastChunk, true, before, skippedBefore, pool, minDelay, s, file0, saveEnv) &&
    LogEntry(bs[n], n, lastChunk, more, before, skippedBefore, pool, minDelay, s,
             LastProcessed(bs[..n], before), LastSkipped(bs[..n], skippedBefore), LastDelay(bs[..n], minDelay),
             FileBefore(bs, file0, n), saveEnv(n)) &&
    (n > 0 ==>
      ToSet(bs[n - 1].saved.processed) <= ToSet(bs[n].saved.processed) &&
      bs[n - 1].saved.currentDelay <= bs[n].saved.currentDelay)
  }

  /** Appending the next batch keeps the log's promises. */
  lemma BatchLogSnoc(bs: seq<Batch>, b: Batch, lastChunk: nat, more: bool, before: set<string>,
                     skippedBefore: set<string>, pool: set<string>, minDelay: int, s: Settings,
                     file0: FileState, saveEnv: nat -> SaveEnv,
                     processed: set<string>, skipped: set<string>, delay: int)
    requires BatchLog(bs, lastChunk, true, before, skippedBefore, pool, minDelay, s, file0, saveEnv)
    requires SavedAfter(b, FileBefore(bs, file0, |bs|), saveEnv(|bs|), processed, skipped, delay)
    requires b.number == lastChunk + |bs| + 1 && b.paused == more
    requires bs != [] ==>
      ToSet(bs[|bs| - 1].saved.processed) <= processed && bs[|bs| - 1].saved.currentDelay <= delay
    requires before + ToSet(b.chunk) <= processed <= before + pool
    requires skipped <= processed + skippedBefore
    requires minDelay <= delay <= s.maxDelay
    requires |b.replies| == |b.chunk|
    requires processed == LastProcessed(bs, before) + ToSet(b.chunk)
    requires skipped == LastSkipped(bs, skippedBefore) + SkipSet(b.chunk, b.replies)
    requires delay == RaisedDelay(LastDelay(bs, minDelay), Count(b.replies, Throttle), s)
    ensures BatchLog(bs + [b], lastChunk, more, before, skippedBefore, pool, minDelay, s, file0, saveEnv)
  {
    var bs' := bs + [b];
    assert bs'[..|bs|] == bs;
    assert FileBefore(bs', file0, |bs|) == FileBefore(bs, file0, |bs|);
  }

  /** The front of a log is a log whose batches are all followed by a pause; its newest checkpoint is a LogEntry. */
  lemma BatchLogFront(bs: seq<Batch>, lastChunk: nat, more: bool, before: set<string>,
                      skippedBefore: set<string>, pool: set<string>, minDelay: int,
                      s: Settings, file0: FileState, saveEnv: nat -> SaveEnv)
    requires BatchLog(bs, lastChunk, more, before, skippedBefore, pool, minDelay, s, file0, saveEnv)
    requires bs != []
    ensures BatchLog(bs[..|bs| - 1], lastChunk, true, before, skippedBefore, pool, minDelay, s, file0, saveEnv)
    ensures SavedRecord(bs[|bs| - 1], before, skippedBefore, pool, minDelay, s.maxDelay)
    ensures |bs| > 1 ==>
      ToSet(bs[|bs| - 2].saved.processed) <= ToSet(bs[|bs| - 1].saved.processed) &&
      bs[|bs| - 2].saved.currentDelay <= bs[|bs| - 1].saved.currentDelay
  {
  }

  /** Every checkpoint of a log meets SavedRecord when those of its front and its newest one do. */
  lemma SavedRecordsSnoc(bs: seq<Batch>, before: set<string>, skippedBefore: set<string>,
                         pool: set<string>, minDelay: int, maxDelay: int)
    requires bs != [] && SavedRecords(bs[..|bs| - 1], before, skippedBefore, pool, minDelay, maxDelay)
    requires SavedRecord(bs[|bs| - 1], before, skippedBefore, pool, minDelay, maxDelay)
    ensures SavedRecords(bs, before, skippedBefore, pool, minDelay, maxDelay)
  {
    forall j | 0 <= j < |bs| - 1
      ensures SavedRecord(bs[j], before, skippedBefore, pool, minDelay, maxDelay)
    {
      assert bs[j] == bs[..|bs| - 1][j];
    }
  }

  /** Every batch of the log carries the number and pause run_invitation gives it. */
  lemma {:induction false} BatchLogNumbered(bs: seq<Batch>, lastChunk: nat, more: bool, before: set<string>,
                                            skippedBefore: set<string>, pool: set<string>, minDelay: int,
                                            s: Settings, file0: FileState, saveEnv: nat -> SaveEnv)
    requires BatchLog(bs, lastChunk, more, before, skippedBefore, pool, minDelay, s, file0, saveEnv)
    ensures Numbered(bs, lastChunk, more)
    decreases |bs|
  {
    if bs != [] {
      var n := |bs| - 1;
      BatchLogNumbered(bs[..n], lastChunk, true, before, skippedBefore, pool, minDelay, s, file0, saveEnv);
      assert forall j :: 0 <= j < n ==> bs[..n][j] == bs[j];
    }
  }

  /** Every checkpoint of the log holds what SavedRecords says. */
  lemma {:induction false} BatchLogRecords(bs: seq<Batch>, lastChunk: nat, more: bool, before: set<string>,
                                           skippedBefore: set<string>, pool: set<string>, minDelay: int,
                                           s: Settings, file0: FileState, saveEnv: nat -> SaveEnv)
    requires BatchLog(bs, lastChunk, more, before, skippedBefore, pool, minDelay, s, file0, saveEnv)
    ensures SavedRecords(bs, before, skippedBefore, pool, minDelay, s.maxDelay)
    ensures ExactRecords(bs, before, skippedBefore, minDelay, s)
    decreases |bs|
  {
    if bs != [] {
      BatchLogFront(bs, lastChunk, more, before, skippedBefore, pool, minDelay, s, file0, saveEnv);
      BatchLogRecords(bs[..|bs| - 1], lastChunk, true, before, skippedBefore, pool, minDelay, s, file0, saveEnv);
      SavedRecordsSnoc(bs, before, skippedBefore, pool, minDelay, s.maxDelay);
    }
    BatchLogExact(bs, lastChunk, more, before, skippedBefore, pool, minDelay, s, file0, saveEnv);
  }

  /** Every checkpoint of the log holds its closed form. */
  lemma {:induction false} BatchLogExact(bs: seq<Batch>, lastChunk: nat, more: bool, before: set<string>,
                                         skippedBefore: set<string>, pool: set<string>, minDelay: int,
                                         s: Settings, file0: FileState, saveEnv: nat -> SaveEnv)
    requires BatchLog(bs, lastChunk, more, before, skippedBefore, pool, minDelay, s, file0, saveEnv)
    ensures ExactRecords(bs, before, skippedBefore, minDelay, s)
    decreases |bs|
  {
    if bs != [] {
      var n := |bs| - 1;
      var front := bs[..n];
      BatchLogExact(front, lastChunk, true, before, skippedBefore, pool, minDelay, s, file0, saveEnv);
      ExactRecordsSnoc(bs, before, skippedBefore, minDelay, s);
    }
  }

  /** A log whose last checkpoint moves on by exactly its batch keeps every checkpoint exact. */
  lemma ExactRecordsSnoc(bs: seq<Batch>, before: set<string>, skippedBefore: set<string>, delay0: int, s: Settings)
    requires bs != []
    requires ExactRecords(bs[..|bs| - 1], before, skippedBefore, delay0, s)
    requires |bs[|bs| - 1].replies| == |bs[|bs| - 1].chunk|
    requires ToSet(bs[|bs| - 1].saved.processed) ==
      LastProcessed(bs[..|bs| - 1], before) + ToSet(bs[|bs| - 1].chunk)
    requires ToSet(bs[|bs| - 1].saved.skipped) ==
      LastSkipped(bs[..|bs| - 1], skippedBefore) + SkipSet(bs[|bs| - 1].chunk, bs[|bs| - 1].replies)
    requires bs[|bs| - 1].saved.currentDelay ==
      RaisedDelay(LastDelay(bs[..|bs| - 1], delay0), Count(bs[|bs| - 1].replies, Throttle), s)
    ensures ExactRecords(bs, before, skippedBefore, delay0, s)
  {
    ExactPrefix(bs, before, skippedBefore, delay0, s);
    ExactNewest(bs, before, skippedBefore, delay0, s);
    assert bs[..|bs| - 1 + 1] == bs;
  }

  /** The newest checkpoint in closed form, from those before it. */
  lemma ExactNewest(bs: seq<Batch>, before: set<string>, skippedBefore: set<string>, delay0: int, s: Settings)
    requires bs != []
    requires ExactRecords(bs[..|bs| - 1], before, skippedBefore, delay0, s)
    requires |bs[|bs| - 1].replies| == |bs[|bs| - 1].chunk|
    requires ToSet(bs[|bs| - 1].saved.processed) ==
      LastProcessed(bs[..|bs| - 1], before) + ToSet(bs[|bs| - 1].chunk)
    requires ToSet(bs[|bs| - 1].saved.skipped) ==
      LastSkipped(bs[..|bs| - 1], skippedBefore) + SkipSet(bs[|bs| - 1].chunk, bs[|bs| - 1].replies)
    requires bs[|bs| - 1].saved.currentDelay ==
      RaisedDelay(LastDelay(bs[..|bs| - 1], delay0), Count(bs[|bs| - 1].replies, Throttle), s)
    ensures ExactRecord(bs[|bs| - 1], Concat(ChunkSeq(bs)), Concat(ReplySeq(bs)), before, skippedBefore, delay0, s)
  {
    var front, b := bs[..|bs| - 1], bs[|bs| - 1];
    var names, rs := Concat(ChunkSeq(front)), Concat(ReplySeq(front));
    ExactLast(front, before, skippedBefore, delay0, s);
    ExactRecordStep(b, names, rs, LastProcessed(front, before), LastSkipped(front, skippedBefore),
                    LastDelay(front, delay0), before, skippedBefore, delay0, s);
    assert bs == front + [b];
    ChunkSeqSnoc(front, b);
    ConcatSnoc(ChunkSeq(front), b.chunk);
    ReplySeqSnoc(front, b);
    ConcatSnoc(ReplySeq(front), b.replies);
  }

  /** The last checkpoint of a log in closed form: the run's names and replies so far. */
  lemma ExactLast(bs: seq<Batch>, before: set<string>, skippedBefore: set<string>, delay0: int, s: Settings)
    requires ExactRecords(bs, before, skippedBefore, delay0, s)
    ensures ExactLastValues(bs, Concat(ChunkSeq(bs)), Concat(ReplySeq(bs)), before, skippedBefore, delay0, s)
  {
    if bs != [] {
      var m := |bs| - 1;
      assert bs[..m + 1] == bs;
      assert ExactRecord(bs[m], Concat(ChunkSeq(bs)), Concat(ReplySeq(bs)), before, skippedBefore, delay0, s);
    }
  }

  /** The values LastProcessed, LastSkipped and LastDelay take after the names `names` met the replies `rs`. */
  ghost predicate ExactLastValues(bs: seq<Batch>, names: seq<string>, rs: seq<Reply>, before: set<string>,
                                  skippedBefore: set<string>, delay0: int, s: Settings)
  {
    |rs| == |names| && LastProcessed(bs, before) == before + ToSet(names) &&
    LastSkipped(bs, skippedBefore) == skippedBefore + SkipSet(names, rs) &&
    LastDelay(bs, delay0) == RaisedDelay(delay0, Count(rs, Throttle), s)
  }

  /** The closed forms of the checkpoints before the newest one are those of the log without it. */
  lemma ExactPrefix(bs: seq<Batch>, before: set<string>, skippedBefore: set<string>, delay0: int, s: Settings)
    requires bs != []
    requires ExactRecords(bs[..|bs| - 1], before, skippedBefore, delay0, s)
    ensures forall j :: 0 <= j < |bs| - 1 ==>
      ExactRecord(bs[j], Concat(ChunkSeq(bs[..j + 1])), Concat(ReplySeq(bs[..j + 1])),
                  before, skippedBefore, delay0, s)
  {
    var front := bs[..|bs| - 1];
    forall j | 0 <= j < |bs| - 1
      ensures ExactRecord(bs[j], Concat(ChunkSeq(bs[..j + 1])), Concat(ReplySeq(bs[..j + 1])),
                          before, skippedBefore, delay0, s)
    {
      assert bs[j] == front[j] && bs[..j + 1] == front[..j + 1];
    }
  }


  /**
   * One batch on from a checkpoint in closed form: the names and replies of
   * the batch extend those of the run so far.
   */
  lemma ExactRecordStep(b: Batch, names: seq<string>, rs: seq<Reply>,
                        processed: set<string>, skipped: set<string>, delay: int,
                        before: set<string>, skippedBefore: set<string>, delay0: int, s: Settings)
    requires |rs| == |names| && processed == before + ToSet(names)
    requires skipped == skippedBefore + SkipSet(names, rs) && delay == RaisedDelay(delay0, Count(rs, Throttle), s)
    requires |b.replies| == |b.chunk|
    requires ToSet(b.saved.processed) == processed + ToSet(b.chunk)
    requires ToSet(b.saved.skipped) == skipped + SkipSet(b.chunk, b.replies)
    requires b.saved.currentDelay == RaisedDelay(delay, Count(b.replies, Throttle), s)
    ensures ExactRecord(b, names + b.chunk, rs + b.replies, before, skippedBefore, delay0, s)
  {
    ToSetAppend(names, b.chunk);
    SkipSetAppend(names, rs, b.chunk, b.replies);
    CountAppend(rs, b.replies, Throttle);
    RaisedTwice(delay0, Count(rs, Throttle), Count(b.replies, Throttle), s);
  }


  /** Checkpoints only grow over a run, also between batches far apart. */
  lemma {:induction false} BatchLogGrows(bs: seq<Batch>, lastChunk: nat, more: bool, before: set<string>,
                                         skippedBefore: set<string>, pool: set<string>, minDelay: int,
                                         s: Settings, file0: FileState, saveEnv: nat -> SaveEnv)
    requires BatchLog(bs, lastChunk, more, before, skippedBefore, pool, minDelay, s, file0, saveEnv)
    ensures Grows(bs)
    decreases |bs|
  {
    if bs != [] {
      BatchLogFront(bs, lastChunk, more, before, skippedBefore, pool, minDelay, s, file0, saveEnv);
      BatchLogGrows(bs[..|bs| - 1], lastChunk, true, before, skippedBefore, pool, minDelay, s, file0, saveEnv);
      GrowsSnoc(bs);
    }
  }

  /** A log grows when its front does and its newest checkpoint holds at least the one before. */
  lemma GrowsSnoc(bs: seq<Batch>)
    requires bs != [] && Grows(bs[..|bs| - 1])
    requires |bs| > 1 ==>
      ToSet(bs[|bs| - 2].saved.processed) <= ToSet(bs[|bs| - 1].saved.processed) &&
      bs[|bs| - 2].saved.currentDelay <= bs[|bs| - 1].saved.currentDelay
    ensures Grows(bs)
  {
    var n := |bs| - 1;
    var front := bs[..n];
    forall j, j' | 0 <= j < j' < |bs|
      ensures ToSet(bs[j].saved.processed) <= ToSet(bs[j'].saved.processed)
      ensures bs[j].saved.currentDelay <= bs[j'].saved.currentDelay
    {
      if j' < n {
        assert front[j] == bs[j] && front[j'] == bs[j'];
      } else if j < n - 1 {
        assert front[j] == bs[j] && front[n - 1] == bs[n - 1];
      }
    }
  }

  lemma FileTrailSnoc(bs: seq<Batch>, b: Batch, file0: FileState, saveEnv: nat -> SaveEnv)
    requires FileTrail(bs, file0, saveEnv)
    requires WrittenOver(b, FileBefore(bs, file0, |bs|), saveEnv(|bs|))
    ensures FileTrail(bs + [b], file0, saveEnv)
  {
    var bs' := bs + [b];
    forall j | 0 <= j < |bs'|
      ensures WrittenOver(bs'[j], FileBefore(bs', file0, j), saveEnv(j))
    {
      if j < |bs| {
        assert bs'[j] == bs[j];
        assert FileBefore(bs', file0, j) == FileBefore(bs, file0, j);
      }
    }
  }

  /** Each file of the log is save_progress applied to the file the batch before left. */
  lemma {:induction false} BatchLogFileTrail(bs: seq<Batch>, lastChunk: nat, more: bool, before: set<string>,
                                             skippedBefore: set<string>, pool: set<string>, minDelay: int,
                                             s: Settings, file0: FileState, saveEnv: nat -> SaveEnv)
    requires BatchLog(bs, lastChunk, more, before, skippedBefore, pool, minDelay, s, file0, saveEnv)
    ensures FileTrail(bs, file0, saveEnv)
    decreases |bs|
  {
    if bs != [] {
      var n := |bs| - 1;
      var front := bs[..n];
      BatchLogFileTrail(front, lastChunk, true, before, skippedBefore, pool, minDelay, s, file0, saveEnv);
      FileTrailSnoc(front, bs[n], file0, saveEnv);
      assert front + [bs[n]] == bs;
    }
  }

  /** What the batch loop of run_invitation starts from. */
  datatype RunStart = RunStart(
    names: seq<string>, lastChunk: nat, c: nat, start: nat,
    before: set<string>, skippedBefore: set<string>,
    delay0: int, s: Settings, file0: FileState, pauses0: nat)

  /**
   * The walk of run_invitation's batch loop after k batches, at offset i:
   * the names visited, the batches taken, and the processed and skipped sets.
   */
  ghost predicate LoopWalk(r: RunStart, i: nat, k: nat, visited: seq<string>, bs: seq<Batch>,
                           total: set<string>, skipped: set<string>)
    requires r.c > 0
  {
    r.start <= i && k == |bs| && r.start == Offset(r.lastChunk, r.c) && i == r.start + Offset(k, r.c) &&
    Walked(r.names, r.start, i, r.c, visited, ChunkSeq(bs)) &&
    total == r.before + ToSet(visited) &&
    skipped <= r.skippedBefore + total
  }

  /**
   * The batch log, the delay, the file and the pauses of the loop at offset i:
   * the processed set, the skipped set and the delay are those of the last
   * checkpoint.
   */
  ghost predicate LoopLog(r: RunStart, saveEnv: nat -> SaveEnv, i: nat, bs: seq<Batch>,
                          total: set<string>, skipped: set<string>, delay: int, file: FileState, pauses: nat)
  {
    var more := i < |r.names|;
    r.delay0 <= delay &&
    BatchLog(bs, r.lastChunk, more, r.before, r.skippedBefore, ToSet(Drop(r.names, r.start)),
             r.delay0, r.s, r.file0, saveEnv) &&
    file == FileBefore(bs, r.file0, |bs|) &&
    total == LastProcessed(bs, r.before) && skipped == LastSkipped(bs, r.skippedBefore) &&
    delay == LastDelay(bs, r.delay0) &&
    pauses == r.pauses0 + (if bs == [] then 0 else |bs| - 1 + (if more then 1 else 0))
  }

  /** The batch loop of run_invitation after k batches, at offset i. */
  ghost predicate Looping(r: RunStart, saveEnv: nat -> SaveEnv, i: nat, k: nat, visited: seq<string>, bs: seq<Batch>,
                          total: set<string>, skipped: set<string>, delay: int, file: FileState, pauses: nat)
    requires r.c > 0
  {
    LoopWalk(r, i, k, visited, bs, total, skipped) &&
    LoopLog(r, saveEnv, i, bs, total, skipped, delay, file, pauses)
  }

  /** Before the first batch the walk stands at the saved batch's offset and nothing has changed. */
  lemma LoopingStart(r: RunStart, saveEnv: nat -> SaveEnv)
    requires r.c > 0 && r.start == Offset(r.lastChunk, r.c)
    ensures Looping(r, saveEnv, r.start, 0, [], [], r.before, r.skippedBefore, r.delay0, r.file0, r.pauses0)
  {
    var rest := Drop(r.names, r.start);
    assert [] + rest == rest;
    assert [] + Chunks(rest, r.c) == Chunks(rest, r.c);
  }

  /** Taking the next batch moves the walk on by c names. */
  lemma WalkStep(r: RunStart, i: nat, k: nat, visited: seq<string>, bs: seq<Batch>,
                 total: set<string>, skipped: set<string>, chunk: seq<string>, b: Batch,
                 i': nat, k': nat, visited': seq<string>, bs': seq<Batch>,
                 total': set<string>, skipped': set<string>)
    requires r.c > 0 && i < |r.names|
    requires i' == i + r.c && k' == k + 1 && visited' == visited + chunk && bs' == bs + [b]
    requires LoopWalk(r, i, k, visited, bs, total, skipped)
    requires chunk == r.names[i..Min(i', |r.names|)] && b.chunk == chunk
    requires total' == total + ToSet(chunk) && skipped' <= skipped + ToSet(chunk)
    ensures LoopWalk(r, i', k', visited', bs', total', skipped')
    ensures i / r.c == r.lastChunk + k
    ensures total <= total'
    ensures r.before + ToSet(chunk) <= total' <= r.before + ToSet(Drop(r.names, r.start))
    ensures skipped' <= total' + r.skippedBefore
  {
    var c := r.c;
    BatchNumberAt(r.start, r.lastChunk, k, i, c);
    ChunkSeqSnoc(bs, b);
    NextBatch(r.names, r.start, i, c, visited, ChunkSeq(bs), chunk, i', visited', ChunkSeq(bs'));
    PrefixInside(Drop(r.names, r.start), visited', Drop(r.names, i'));
    SetsStep(r.before, r.skippedBefore, ToSet(Drop(r.names, r.start)), visited, chunk, total, total', skipped, skipped');
    assert i' == r.start + Offset(k', c);
  }

  /** Appending the batch just run keeps the log, the file and the pause count. */
  lemma LogStep(r: RunStart, saveEnv: nat -> SaveEnv, i: nat, bs: seq<Batch>,
                total: set<string>, skipped: set<string>, delay: int, file: FileState, pauses: nat, b: Batch,
                i': nat, bs': seq<Batch>, total': set<string>, skipped': set<string>,
                delay': int, file': FileState, pauses': nat)
    requires i < |r.names| && bs' == bs + [b]
    requires LoopLog(r, saveEnv, i, bs, total, skipped, delay, file, pauses)
    requires b.number == r.lastChunk + |bs| + 1 && b.paused == (i' < |r.names|)
    requires file' == b.file && SavedAfter(b, file, saveEnv(|bs|), total', skipped', delay')
    requires total' == total + ToSet(b.chunk)
    requires r.before + ToSet(b.chunk) <= total' <= r.before + ToSet(Drop(r.names, r.start))
    requires skipped' <= total' + r.skippedBefore
    requires delay <= delay' <= r.s.maxDelay
    requires |b.replies| == |b.chunk|
    requires skipped' == skipped + SkipSet(b.chunk, b.replies)
    requires delay' == RaisedDelay(delay, Count(b.replies, Throttle), r.s)
    requires pauses' == pauses + (if i' < |r.names| then 1 else 0)
    ensures LoopLog(r, saveEnv, i', bs', total', skipped', delay', file', pauses')
  {
    BatchLogSnoc(bs, b, r.lastChunk, i' < |r.names|, r.before, r.skippedBefore, ToSet(Drop(r.names, r.start)),
                 r.delay0, r.s, r.file0, saveEnv, total', skipped', delay');
    assert bs'[|bs'| - 1] == b;
  }

  /** One pass of the batch loop keeps Looping, given what RunBatch promises. */
  lemma LoopingStep(r: RunStart, saveEnv: nat -> SaveEnv, i: nat, k: nat, visited: seq<string>, bs: seq<Batch>,
                    total: set<string>, skipped: set<string>, delay: int, file: FileState, pauses: nat,
                    chunk: seq<string>, b: Batch, i': nat, k': nat, visited': seq<string>, bs': seq<Batch>,
                    total': set<string>, skipped': set<string>, delay': int, file': FileState, pauses': nat)
    requires r.c > 0 && i < |r.names|
    requires i' == i + r.c && k' == k + 1 && visited' == visited + chunk && bs' == bs + [b]
    requires Looping(r, saveEnv, i, k, visited, bs, total, skipped, delay, file, pauses)
    requires chunk == r.names[i..Min(i', |r.names|)]
    requires b.number == i / r.c + 1 && b.chunk == chunk && b.paused == (i + r.c < |r.names|)
    requires file' == b.file && SavedAfter(b, file, saveEnv(k), total', skipped', delay')
    requires total' == total + ToSet(chunk) && skipped' <= skipped + ToSet(chunk)
    requires delay <= delay' <= r.s.maxDelay
    requires |b.replies| == |chunk|
    requires skipped' == skipped + SkipSet(chunk, b.replies)
    requires delay' == RaisedDelay(delay, Count(b.replies, Throttle), r.s)
    requires pauses' == pauses + (if i + r.c < |r.names| then 1 else 0)
    ensures Looping(r, saveEnv, i', k', visited', bs', total', skipped', delay', file', pauses')
  {
    WalkStep(r, i, k, visited, bs, total, skipped, chunk, b, i', k', visited', bs', total', skipped');
    LogStep(r, saveEnv, i, bs, total, skipped, delay, file, pauses, b, i', bs', total', skipped', delay', file', pauses');
  }

  /** When the loop ends, the walk has covered the whole rest of the list. */
  lemma LoopingDone(r: RunStart, saveEnv: nat -> SaveEnv, i: nat, k: nat, visited: seq<string>, bs: seq<Batch>,
                    total: set<string>, skipped: set<string>, delay: int, file: FileState, pauses: nat)
    requires r.c > 0 && i >= |r.names|
    requires Looping(r, saveEnv, i, k, visited, bs, total, skipped, delay, file, pauses)
    ensures ChunkSeq(bs) == Chunks(Drop(r.names, r.start), r.c)
    ensures total == r.before + ToSet(Drop(r.names, r.start))
    ensures skipped <= r.skippedBefore + total
    ensures r.delay0 <= delay
    ensures BatchLog(bs, r.lastChunk, false, r.before, r.skippedBefore, ToSet(Drop(r.names, r.start)),
                     r.delay0, r.s, r.file0, saveEnv)
    ensures pauses == r.pauses0 + (if bs == [] then 0 else |bs| - 1)
  {
    assert Drop(r.names, i) == [];
    assert visited + [] == visited;
    assert ChunkSeq(bs) + [] == ChunkSeq(bs);
  }

  /**
   * The sleeps of a whole run over the replies `rs` of the names from the
   * resume offset on: each batch's BatchWaits, at the delay the earlier
   * batches left, followed by the batch pause unless it is the last batch.
   */
  function RunWaits(rs: seq<Reply>, d0: int, s: Settings): seq<Wait>
    requires s.chunkSize > 0
    decreases |rs|
  {
    if rs == [] then []
    else
      var k := Min(s.chunkSize, |rs|);
      BatchWaits(rs[..k], d0, s) + (if k < |rs| then [BatchPause(s.chunkPause)] else []) +
      RunWaits(rs[k..], RaisedDelay(d0, Count(rs[..k], Throttle), s), s)
  }

  /** From offset i, the run sleeps the batch at i, its pause if more follow, then the rest. */
  lemma RunWaitsAt(replies: seq<Reply>, i: nat, j: nat, chunkR: seq<Reply>, d: int, d': int, s: Settings)
    requires s.chunkSize > 0 && i < |replies| && j == i + s.chunkSize
    requires chunkR == replies[i..Min(j, |replies|)]
    requires d' == RaisedDelay(d, Count(chunkR, Throttle), s)
    ensures RunWaits(Drop(replies, i), d, s) ==
      BatchWaits(chunkR, d, s) + (if j < |replies| then [BatchPause(s.chunkPause)] else []) +
      RunWaits(Drop(replies, j), d', s)
  {
    var rs := Drop(replies, i);
    var k := Min(s.chunkSize, |rs|);
    var pause: seq<Wait> := if j < |replies| then [BatchPause(s.chunkPause)] else [];
    assert rs == replies[i..];
    assert rs[..k] == chunkR;
    assert rs[k..] == Drop(replies, j);
    assert (k < |rs|) == (j < |replies|);
    assert RunWaits(rs, d, s) == BatchWaits(rs[..k], d, s) + pause + RunWaits(rs[k..], d', s);
  }

  /**
   * What the batch loop has still to do, at offset i, in three parts: the
   * delay, the skipped set and the waits it ends with are those the whole
   * run from the resume offset would give.
   */
  ghost predicate DelayOutcome(r: RunStart, s: Settings, replies: seq<Reply>, i: nat, delay: int)
  {
    RaisedDelay(r.delay0, Count(Drop(replies, r.start), Throttle), s) ==
      RaisedDelay(delay, Count(Drop(replies, i), Throttle), s)
  }

  ghost predicate SkipOutcome(r: RunStart, replies: seq<Reply>, i: nat, skipped: set<string>)
    requires |replies| == |r.names|
  {
    r.skippedBefore + SkipSet(Drop(r.names, r.start), Drop(replies, r.start)) ==
      skipped + SkipSet(Drop(r.names, i), Drop(replies, i))
  }

  ghost predicate WaitsOutcome(r: RunStart, s: Settings, replies: seq<Reply>, i: nat, delay: int,
                               waits0: seq<Wait>, waits: seq<Wait>)
    requires s.chunkSize > 0
  {
    waits0 + RunWaits(Drop(replies, r.start), r.delay0, s) == waits + RunWaits(Drop(replies, i), delay, s)
  }

  lemma OutcomesStart(r: RunStart, s: Settings, replies: seq<Reply>, waits0: seq<Wait>)
    requires s.chunkSize > 0 && |replies| == |r.names|
    ensures DelayOutcome(r, s, replies, r.start, r.delay0)
    ensures SkipOutcome(r, replies, r.start, r.skippedBefore)
    ensures WaitsOutcome(r, s, replies, r.start, r.delay0, waits0, waits0)
  {
  }

  /** The batch at i raises the delay by its throttles: the rest of the run is raised by the remaining ones. */
  lemma DelayStep(r: RunStart, s: Settings, replies: seq<Reply>, i: nat, j: nat, chunkR: seq<Reply>, delay: int)
    requires s.chunkSize > 0 && i < |replies| && j == i + s.chunkSize
    requires DelayOutcome(r, s, replies, i, delay)
    requires chunkR == replies[i..Min(j, |replies|)]
    ensures DelayOutcome(r, s, replies, j, RaisedDelay(delay, Count(chunkR, Throttle), s))
  {
    var rest := Drop(replies, j);
    var tc, tr := Count(chunkR, Throttle), Count(rest, Throttle);
    assert Count(Drop(replies, i), Throttle) == tc + tr by {
      DropAt(replies, i, j);
      CountAppend(chunkR, rest, Throttle);
    }
    RaisedTwice(delay, tc, tr, s);
  }

  /** The batch at i adds its skips to the skipped set: they leave the part still to come. */
  lemma SkipStep(r: RunStart, replies: seq<Reply>, i: nat, c: nat, j: nat, chunk: seq<string>, chunkR: seq<Reply>,
                 skipped: set<string>)
    requires c > 0 && i < |r.names| && |replies| == |r.names| && j == i + c
    requires SkipOutcome(r, replies, i, skipped)
    requires chunk == r.names[i..Min(j, |r.names|)] && chunkR == replies[i..Min(j, |replies|)]
    ensures SkipOutcome(r, replies, j, skipped + SkipSet(chunk, chunkR))
  {
    DropAt(r.names, i, j);
    DropAt(replies, i, j);
    SkipSetAppend(chunk, chunkR, Drop(r.names, j), Drop(replies, j));
  }

  /** The batch at i sleeps its BatchWaits and its pause: they leave the part still to come. */
  lemma WaitsStep(r: RunStart, s: Settings, replies: seq<Reply>, i: nat, j: nat, chunkR: seq<Reply>, delay: int,
                  more: bool, waits0: seq<Wait>, waits: seq<Wait>)
    requires s.chunkSize > 0 && i < |replies| && j == i + s.chunkSize
    requires WaitsOutcome(r, s, replies, i, delay, waits0, waits)
    requires chunkR == replies[i..Min(j, |replies|)]
    requires more == (j < |replies|)
    ensures WaitsOutcome(r, s, replies, j, RaisedDelay(delay, Count(chunkR, Throttle), s), waits0,
                         waits + BatchWaits(chunkR, delay, s) + (if more then [BatchPause(s.chunkPause)] else []))
  {
    var delay' := RaisedDelay(delay, Count(chunkR, Throttle), s);
    var pause: seq<Wait> := if more then [BatchPause(s.chunkPause)] else [];
    var bw := BatchWaits(chunkR, delay, s);
    var rest := RunWaits(Drop(replies, j), delay', s);
    RunWaitsAt(replies, i, j, chunkR, delay, delay', s);
    ShiftFront(waits, bw, pause, rest, waits + bw + pause);
  }

  /** Moving the front of what is still to come to the end of what has happened keeps the whole. */
  lemma ShiftFront<T>(done: seq<T>, a: seq<T>, b: seq<T>, rest: seq<T>, done': seq<T>)
    requires done' == done + a + b
    ensures done + (a + b + rest) == done' + rest
  {
  }

  /**
   * A batch in closed form: its delay is the clamped raise by its throttles,
   * its skipped names are SkipSet, and its sleeps are BatchWaits.
   */
  lemma BatchClosedForms(chunk: seq<string>, chunkR: seq<Reply>, s: Settings, delay: int)
    requires |chunkR| == |chunk| && s.Valid() && delay <= s.maxDelay
    ensures var p := Process(StartChunk(delay), chunk, chunkR, s);
      p.delay == RaisedDelay(delay, Count(chunkR, Throttle), s) &&
      ToSet(p.skippedNames) == SkipSet(chunk, chunkR) &&
      p.waits == BatchWaits(chunkR, delay, s)
  {
    var st := StartChunk(delay);
    var p := Process(st, chunk, chunkR, s);
    assert st.delay == delay && st.waits == [];
    DelayClosedForm(st, chunk, chunkR, s);
    SkippedNamesAreSkipSet(st, chunk, chunkR, s);
    WaitsInOrder(st, chunk, chunkR, s);
    assert [] + BatchWaits(chunkR, delay, s) == BatchWaits(chunkR, delay, s);
  }

  /** When the loop ends, the three outcomes give the run's delay, skipped set and waits outright. */
  lemma OutcomesDone(r: RunStart, s: Settings, replies: seq<Reply>, i: nat, delay: int,
                     skipped: set<string>, waits0: seq<Wait>, waits: seq<Wait>)
    requires s.chunkSize > 0 && delay <= s.maxDelay && i >= |r.names| && |replies| == |r.names|
    requires DelayOutcome(r, s, replies, i, delay)
    requires SkipOutcome(r, replies, i, skipped)
    requires WaitsOutcome(r, s, replies, i, delay, waits0, waits)
    ensures delay == RaisedDelay(r.delay0, Count(Drop(replies, r.start), Throttle), s)
    ensures skipped == r.skippedBefore + SkipSet(Drop(r.names, r.start), Drop(replies, r.start))
    ensures waits == waits0 + RunWaits(Drop(replies, r.start), r.delay0, s)
  {
    assert Drop(replies, i) == [] && Drop(r.names, i) == [];
    assert waits + [] == waits;
  }

  /**
   * The batch loop of run_invitation at offset i, after k batches, over the
   * values of the inviter's fields: the walk and the log so far, and what the
   * rest of the run will do to the delay, the skipped set and the waits.
   */
  ghost predicate LoopState(r: RunStart, s: Settings, saveEnv: nat -> SaveEnv, replies: seq<Reply>,
                            i: nat, k: nat, visited: seq<string>, waits0: seq<Wait>,
                            bs: seq<Batch>, total: set<string>, skipped: seq<string>, delay: int,
                            file: FileState, waits: seq<Wait>)
  {
    s.Valid() && s.initialDelay <= delay <= s.maxDelay &&
    r.c == s.chunkSize && r.s == s && |replies| == |r.names| &&
    Looping(r, saveEnv, i, k, visited, bs, total, ToSet(skipped), delay, file, CountBatchPauses(waits)) &&
    Chunks(Drop(replies, r.start), r.c) == ReplySeq(bs) + Chunks(Drop(replies, i), r.c) &&
    DelayOutcome(r, s, replies, i, delay) &&
    SkipOutcome(r, replies, i, ToSet(skipped)) &&
    WaitsOutcome(r, s, replies, i, delay, waits0, waits)
  }

  /** The batches of replies walk along with the batches of names. */
  lemma ReplyWalkStep(replies: seq<Reply>, start: nat, i: nat, c: nat, next: nat, chunkR: seq<Reply>,
                      done: seq<seq<Reply>>)
    requires c > 0 && i < |replies| && next == i + c
    requires chunkR == replies[i..Min(next, |replies|)]
    requires Chunks(Drop(replies, start), c) == done + Chunks(Drop(replies, i), c)
    ensures Chunks(Drop(replies, start), c) == (done + [chunkR]) + Chunks(Drop(replies, next), c)
  {
    ChunksAt(replies, i, c);
    AppendAssoc(done, [chunkR], Chunks(Drop(replies, next), c));
  }

  /** The loop state holds on entry to the batch loop, at the resume offset. */
  lemma LoopStateStart(r: RunStart, s: Settings, saveEnv: nat -> SaveEnv, replies: seq<Reply>,
                       skipped: seq<string>, waits0: seq<Wait>)
    requires s.Valid() && s.initialDelay <= r.delay0 <= s.maxDelay && r.c == s.chunkSize && r.s == s
    requires |replies| == |r.names| && r.start == Offset(r.lastChunk, r.c)
    requires ToSet(skipped) == r.skippedBefore && r.pauses0 == CountBatchPauses(waits0)
    ensures LoopState(r, s, saveEnv, replies, r.start, 0, [], waits0, [], r.before, skipped, r.delay0, r.file0, waits0)
  {
    LoopingStart(r, saveEnv);
    OutcomesStart(r, s, replies, waits0);
    assert [] + Chunks(Drop(replies, r.start), r.c) == Chunks(Drop(replies, r.start), r.c);
  }

  /** When the batch loop ends, the walk, the log and the three outcomes are those of the whole run. */
  lemma LoopStateDone(r: RunStart, s: Settings, saveEnv: nat -> SaveEnv, replies: seq<Reply>,
                      i: nat, k: nat, visited: seq<string>, waits0: seq<Wait>,
                      bs: seq<Batch>, total: set<string>, skipped: seq<string>, delay: int,
                      file: FileState, waits: seq<Wait>)
    requires LoopState(r, s, saveEnv, replies, i, k, visited, waits0, bs, total, skipped, delay, file, waits)
    requires i >= |r.names|
    ensures ChunkSeq(bs) == Chunks(Drop(r.names, r.start), r.c)
    ensures total == r.before + ToSet(Drop(r.names, r.start))
    ensures ToSet(skipped) <= r.skippedBefore + total
    ensures r.delay0 <= delay
    ensures BatchLog(bs, r.lastChunk, false, r.before, r.skippedBefore, ToSet(Drop(r.names, r.start)),
                     r.delay0, r.s, r.file0, saveEnv)
    ensures CountBatchPauses(waits) == r.pauses0 + (if bs == [] then 0 else |bs| - 1)
    ensures delay == RaisedDelay(r.delay0, Count(Drop(replies, r.start), Throttle), s)
    ensures ToSet(skipped) == r.skippedBefore + SkipSet(Drop(r.names, r.start), Drop(replies, r.start))
    ensures waits == waits0 + RunWaits(Drop(replies, r.start), r.delay0, s)
    ensures ReplySeq(bs) == Chunks(Drop(replies, r.start), r.c)
  {
    LoopingDone(r, saveEnv, i, k, visited, bs, total, ToSet(skipped), delay, file, CountBatchPauses(waits));
    OutcomesDone(r, s, replies, i, delay, ToSet(skipped), waits0, waits);
  }

  /** One pass of the batch loop keeps LoopState, given what RunBatch promises about the batch at i. */
  lemma LoopStateStep(r: RunStart, s: Settings, saveEnv: nat -> SaveEnv, replies: seq<Reply>,
                      i: nat, next: nat, k: nat, visited: seq<string>, waits0: seq<Wait>,
                      bs: seq<Batch>, total: set<string>, skipped: seq<string>, delay: int,
                      file: FileState, waits: seq<Wait>,
                      chunk: seq<string>, chunkR: seq<Reply>, more: bool, b: Batch,
                      bs': seq<Batch>, total': set<string>, skipped': seq<string>, delay': int,
                      file': FileState, waits': seq<Wait>)
    requires LoopState(r, s, saveEnv, replies, i, k, visited, waits0, bs, total, skipped, delay, file, waits)
    requires i < |r.names| && next == i + s.chunkSize && more == (next < |r.names|)
    requires chunk == r.names[i..Min(next, |r.names|)] && chunkR == replies[i..Min(next, |replies|)]
    requires s.initialDelay <= delay' <= s.maxDelay && delay <= delay'
    requires total' == total + ToSet(chunk)
    requires ToSet(skipped') <= ToSet(skipped) + ToSet(chunk)
    requires CountBatchPauses(waits') == CountBatchPauses(waits) + (if more then 1 else 0)
    requires bs' == bs + [b]
    requires b.number == i / s.chunkSize + 1 && b.chunk == chunk && b.replies == chunkR && b.paused == more &&
      file' == b.file &&
      SavedAfter(b, file, saveEnv(k), total', ToSet(skipped'), delay')
    requires delay' == RaisedDelay(delay, Count(chunkR, Throttle), s)
    requires ToSet(skipped') == ToSet(skipped) + SkipSet(chunk, chunkR)
    requires waits' == waits + BatchWaits(chunkR, delay, s) + (if more then [BatchPause(s.chunkPause)] else [])
    ensures LoopState(r, s, saveEnv, replies, next, k + 1, visited + chunk, waits0,
                      bs', total', skipped', delay', file', waits')
  {
    LoopingStep(r, saveEnv, i, k, visited, bs, total, ToSet(skipped), delay, file, CountBatchPauses(waits),
                chunk, b, next, k + 1, visited + chunk, bs', total', ToSet(skipped'), delay', file',
                CountBatchPauses(waits'));
    DelayStep(r, s, replies, i, next, chunkR, delay);
    SkipStep(r, replies, i, s.chunkSize, next, chunk, chunkR, ToSet(skipped));
    WaitsStep(r, s, replies, i, next, chunkR, delay, more, waits0, waits);
    assert Chunks(Drop(replies, r.start), r.c) == ReplySeq(bs') + Chunks(Drop(replies, next), r.c) by {
      ReplySeqSnoc(bs, b);
      ReplyWalkStep(replies, r.start, i, s.chunkSize, next, chunkR, ReplySeq(bs));
    }
  }

  class Inviter {
    const settings: Settings
    const inviteLink: string
    /** `current_delay` */
    var currentDelay: int
    /** `skipped_users_current_session` */
    var skippedSession: seq<string>
    /** `total_processed_users_set` */
    var totalProcessed: set<string>
    /** The content of the file at `progress_file`. */
    var progressFile: FileState
    /** Every sleep, in order. */
    ghost var waits: seq<Wait>
    /** The batches of the latest run. */
    ghost var batches: seq<Batch>

    ghost predicate Valid()
      reads this
    {
      settings.Valid() && settings.initialDelay <= currentDelay <= settings.maxDelay
    }

    /** `__init__`: the delay always starts at the configured initial delay. */
    constructor (settings: Settings, inviteLink: string, progressFile: FileState)
      requires settings.Valid()
      ensures Valid()
      ensures this.settings == settings && this.inviteLink == inviteLink && this.progressFile == progressFile
      ensures currentDelay == settings.initialDelay
      ensures skippedSession == [] && totalProcessed == {}
      ensures waits == [] && batches == []
    {
      this.settings := settings;
      this.inviteLink := inviteLink;
      this.progressFile := progressFile;
      currentDelay := settings.initialDelay;
      skippedSession := [];
      totalProcessed := {};
      waits := [];
      batches := [];
    }

    /** _process_chunk: returns (success, skipped, failed, processed_in_this_chunk). */
    method ProcessChunk(chunk: seq<string>, replies: seq<Reply>)
      returns (success: nat, skipped: nat, failed: nat, processed: seq<string>)
      requires Valid()
      requires |replies| == |chunk|
      modifies this`currentDelay, this`skippedSession, this`waits
      ensures Valid()
      ensures var r := Process(StartChunk(old(currentDelay)), chunk, replies, settings);
        success == r.success && skipped == r.skipped && failed == r.failed &&
        processed == r.processed && currentDelay == r.delay &&
        skippedSession == old(skippedSession) + r.skippedNames &&
        waits == old(waits) + r.waits
    {
      success, skipped, failed, processed := 0, 0, 0, [];
      ghost var st := StartChunk(currentDelay);
      for i := 0 to |chunk|
        invariant Valid()
        invariant st == Process(StartChunk(old(currentDelay)), chunk[..i], replies[..i], settings)
        invariant success == st.success && skipped == st.skipped && failed == st.failed &&
          processed == st.processed && currentDelay == st.delay &&
          skippedSession == old(skippedSession) + st.skippedNames &&
          waits == old(waits) + st.waits
      {
        var username, reply := chunk[i], replies[i];
        assert chunk[..i + 1][..i] == chunk[..i];
        assert replies[..i + 1][..i] == replies[..i];
        st := Step(st, username, reply, settings);
        var error: Option<RpcError> := None;
        if reply.getUsers.Raised? {
          error := Some(reply.getUsers.error);
        } else {
          // A get_chat_member that raises is swallowed and falls through to the add.
          if InChat(reply.getChatMember) {
            skipped := skipped + 1;
            skippedSession := skippedSession + [username];
            processed := processed + [username];
            continue;
          }
          if reply.addChatMembers.Raised? {
            error := Some(reply.addChatMembers.error);
          } else {
            success := success + 1;
            processed := processed + [username];
            waits := waits + [Pacing(currentDelay)];
          }
        }
        if error.Some? {
          match error.value
          case FloodWait(value) =>
            processed := processed + [username];
            waits := waits + [FloodPause(value)];
            currentDelay := Min(currentDelay + settings.delayIncrement, settings.maxDelay);
          case UserAlreadyParticipant =>
            skipped := skipped + 1;
            skippedSession := skippedSession + [username];
            processed := processed + [username];
          case UserPrivacyRestricted =>
            skipped := skipped + 1;
            skippedSession := skippedSession + [username];
            processed := processed + [username];
          case InvalidUsername =>
            failed := failed + 1;
            processed := processed + [username];
          case OtherError =>
            failed := failed + 1;
            processed := processed + [username];
        }
      }
      assert chunk[..|chunk|] == chunk;
      assert replies[..|replies|] == replies;
    }
  

    /**
     * One pass of the batch loop of run_invitation: process the batch, merge
     * its names into the processed set, save progress, pause unless it was
     * the last batch, and record the batch in the ghost log.
     */
    method RunBatch(chunk: seq<string>, chunkReplies: seq<Reply>, number: int, pause: bool, env: SaveEnv)
      returns (ghost b: Batch)
      requires Valid()
      requires |chunkReplies| == |chunk|
      modifies this`currentDelay, this`skippedSession, this`waits, this`totalProcessed,
               this`progressFile, this`batches
      ensures Valid()
      ensures old(currentDelay) <= currentDelay
      ensures totalProcessed == old(totalProcessed) + ToSet(chunk)
      ensures ToSet(skippedSession) <= ToSet(old(skippedSession)) + ToSet(chunk)
      ensures CountBatchPauses(waits) == CountBatchPauses(old(waits)) + (if pause then 1 else 0)
      ensures batches == old(batches) + [b]
      ensures b.number == number && b.chunk == chunk && b.replies == chunkReplies && b.paused == pause &&
        progressFile == b.file &&
        SavedAfter(b, old(progressFile), env, totalProcessed, ToSet(skippedSession), currentDelay)
      ensures var p := Process(StartChunk(old(currentDelay)), chunk, chunkReplies, settings);
        currentDelay == p.delay && skippedSession == old(skippedSession) + p.skippedNames &&
        waits == old(waits) + p.waits + (if pause then [BatchPause(settings.chunkPause)] else [])
      ensures currentDelay == RaisedDelay(old(currentDelay), Count(chunkReplies, Throttle), settings)
      ensures ToSet(skippedSession) == ToSet(old(skippedSession)) + SkipSet(chunk, chunkReplies)
      ensures waits == old(waits) + BatchWaits(chunkReplies, old(currentDelay), settings) +
        (if pause then [BatchPause(settings.chunkPause)] else [])
    {
      ghost var delay0, skipped0, waits0 := currentDelay, skippedSession, waits;
      ghost var first := StartChunk(currentDelay);
      ghost var p := Process(first, chunk, chunkReplies, settings);
      assert p.processed == chunk && delay0 <= p.delay &&
             p.delay == RaisedDelay(delay0, Count(chunkReplies, Throttle), settings) &&
             ToSet(p.skippedNames) == SkipSet(chunk, chunkReplies) && ToSet(p.skippedNames) <= ToSet(chunk) &&
             p.waits == BatchWaits(chunkReplies, delay0, settings) && CountBatchPauses(p.waits) == 0 by {
        ProcessedIsChunk(first, chunk, chunkReplies, settings);
        DelayBounds(first, chunk, chunkReplies, settings);
        SkippedNamesFromChunk(first, chunk, chunkReplies, settings);
        WaitsFollowOutcomes(first, chunk, chunkReplies, settings);
        BatchClosedForms(chunk, chunkReplies, settings, delay0);
        assert [] + chunk == chunk;
        assert ToSet<string>([]) == {};
      }
      var successes, skips, fails, processedInChunk := ProcessChunk(chunk, chunkReplies);
      assert ToSet(skippedSession) == ToSet(skipped0) + ToSet(p.skippedNames) by {
        ToSetAppend(skipped0, p.skippedNames);
      }
      assert CountBatchPauses(waits) == CountBatchPauses(waits0) by {
        CountsConcat(waits0, p.waits);
      }

      b := CheckpointBatch(processedInChunk, chunkReplies, number, pause, env);
    }

    /**
     * The end of one pass of the batch loop: the processed names join the
     * session total, the checkpoint is saved with the current delay and the
     * batch number, and a batch pause follows unless this is the last batch.
     */
    method CheckpointBatch(chunk: seq<string>, chunkReplies: seq<Reply>, number: int, pause: bool, env: SaveEnv)
      returns (ghost b: Batch)
      requires Valid()
      modifies this`waits, this`totalProcessed, this`progressFile, this`batches
      ensures Valid()
      ensures totalProcessed == old(totalProcessed) + ToSet(chunk)
      ensures waits == old(waits) + (if pause then [BatchPause(settings.chunkPause)] else [])
      ensures CountBatchPauses(waits) == CountBatchPauses(old(waits)) + (if pause then 1 else 0)
      ensures batches == old(batches) + [b]
      ensures b.number == number && b.chunk == chunk && b.replies == chunkReplies && b.paused == pause &&
        progressFile == b.file &&
        SavedAfter(b, old(progressFile), env, totalProcessed, ToSet(skippedSession), currentDelay)
    {
      totalProcessed := totalProcessed + ToSet(chunk);
      var savedProcessed := SetToSeq(totalProcessed);
      var savedSkipped := SetToSeq(ToSet(skippedSession));
      progressFile := SaveProgress(progressFile, savedProcessed, savedSkipped, currentDelay, number,
                                   env.now, env.outcome);
      if pause {
        CountsAppend(waits, BatchPause(settings.chunkPause));
        waits := waits + [BatchPause(settings.chunkPause)];
      }
      b := Batch(number, chunk, chunkReplies, Progress(savedProcessed, savedSkipped, currentDelay, number, Some(env.now)),
                 progressFile, pause);
      batches := batches + [b];
    }

    /**
     * The state of the batch loop of run_invitation at offset i, after k
     * batches: the walk and the log so far, and what the rest of the run
     * will do to the delay, the skipped set and the waits.
     */
    ghost predicate BatchLoop(r: RunStart, saveEnv: nat -> SaveEnv, replies: seq<Reply>, i: nat, k: nat,
                              visited: seq<string>, waits0: seq<Wait>)
      reads this
    {
      LoopState(r, settings, saveEnv, replies, i, k, visited, waits0,
                batches, totalProcessed, skippedSession, currentDelay, progressFile, waits)
    }

    /** One pass of the batch loop of run_invitation, at offset i: the batch `usernames[i:i + c]`. */
    method RunBatchAt(usernames: seq<string>, replies: seq<Reply>, saveEnv: nat -> SaveEnv, ghost r: RunStart,
                      i: nat, next: nat, k: nat, ghost visited: seq<string>, ghost waits0: seq<Wait>)
      requires usernames == r.names && i < |usernames| && next == i + settings.chunkSize
      requires BatchLoop(r, saveEnv, replies, i, k, visited, waits0)
      modifies this`currentDelay, this`skippedSession, this`waits, this`totalProcessed,
               this`progressFile, this`batches
      ensures BatchLoop(r, saveEnv, replies, next, k + 1, visited + r.names[i..Min(next, |r.names|)], waits0)
    {
      var chunk := usernames[i..Min(next, |usernames|)];
      var chunkR := replies[i..Min(next, |replies|)];
      var number := i / settings.chunkSize + 1;
      var more := next < |usernames|;
      ghost var bs, total, skipped, delay, file, ws :=
        batches, totalProcessed, skippedSession, currentDelay, progressFile, waits;
      ghost var b := RunBatch(chunk, chunkR, number, more, saveEnv(k));
      LoopStateStep(r, settings, saveEnv, replies, i, next, k, visited, waits0,
                    bs, total, skipped, delay, file, ws, chunk, chunkR, more, b,
                    batches, totalProcessed, skippedSession, currentDelay, progressFile, waits);
    }

    /**
     * The batch loop of run_invitation: `for i in range(last_chunk * c, n, c)`,
     * one RunBatch per step.
     */
    method RunBatches(usernames: seq<string>, lastChunk: nat, replies: seq<Reply>,
                      saveEnv: nat -> SaveEnv, ghost r: RunStart)
      requires Valid()
      requires |replies| == |usernames| && batches == []
      requires r == RunStart(usernames, lastChunk, settings.chunkSize, lastChunk * settings.chunkSize,
                             totalProcessed, ToSet(skippedSession), currentDelay, settings,
                             progressFile, CountBatchPauses(waits))
      modifies this`currentDelay, this`skippedSession, this`waits, this`totalProcessed,
               this`progressFile, this`batches
      ensures Valid()
      ensures ChunkSeq(batches) == Chunks(Drop(usernames, r.start), r.c)
      ensures totalProcessed == r.before + ToSet(Drop(usernames, r.start))
      ensures ToSet(skippedSession) <= r.skippedBefore + totalProcessed
      ensures r.delay0 <= currentDelay
      ensures BatchLog(batches, lastChunk, false, r.before, r.skippedBefore, ToSet(Drop(usernames, r.start)),
                       r.delay0, r.s, r.file0, saveEnv)
      ensures CountBatchPauses(waits) == r.pauses0 + (if batches == [] then 0 else |batches| - 1)
      ensures currentDelay == RaisedDelay(r.delay0, Count(Drop(replies, r.start), Throttle), settings)
      ensures ToSet(skippedSession) == r.skippedBefore + SkipSet(Drop(usernames, r.start), Drop(replies, r.start))
      ensures waits == old(waits) + RunWaits(Drop(replies, r.start), r.delay0, settings)
      ensures ReplySeq(batches) == Chunks(Drop(replies, r.start), r.c)
      ensures ExactRecords(batches, r.before, r.skippedBefore, r.delay0, settings)
    {
      var c := settings.chunkSize;
      var n := |usernames|;
      var start := lastChunk * c;
      OffsetIsProduct(lastChunk, c);
      assert r.names == usernames && r.c == c;
      var i := start;
      var k: nat := 0;
      ghost var visited: seq<string> := [];
      LoopStateStart(r, settings, saveEnv, replies, skippedSession, waits);
      while i < n
        invariant BatchLoop(r, saveEnv, replies, i, k, visited, old(waits))
      {
        var next := i + c;
        RunBatchAt(usernames, replies, saveEnv, r, i, next, k, visited, old(waits));
        i, k, visited := next, k + 1, visited + r.names[i..Min(next, |r.names|)];
      }
      LoopStateDone(r, settings, saveEnv, replies, i, k, visited, old(waits),
                    batches, totalProcessed, skippedSession, currentDelay, progressFile, waits);
      BatchLogExact(batches, lastChunk, false, r.before, r.skippedBefore, ToSet(Drop(usernames, r.start)),
                    r.delay0, r.s, r.file0, saveEnv);
    }

    /**
     * run_invitation. `usernames` is the list main.py passes and `lastChunk`
     * the saved batch number; `replies[p]` says how the remote calls for
     * `usernames[p]` end, and `saveEnv(k)` gives the clock and the fate of
     * the write for the k-th save of this run.
     */
    method RunInvitation(usernames: seq<string>, lastChunk: nat, initialProcessed: seq<string>,
                         initialSkipped: seq<string>, access: ChatAccess, replies: seq<Reply>,
                         saveEnv: nat -> SaveEnv)
      returns (outcome: RunOutcome)
      requires Valid()
      requires |replies| == |usernames|
      modifies this
      ensures Valid()
      ensures outcome.Completed? <==> GetChatInfo(inviteLink, access).None?
      ensures outcome.Aborted? ==>
        outcome.reason == GetChatInfo(inviteLink, access).value &&
        progressFile == old(progressFile) && batches == [] &&
        waits == old(waits) && currentDelay == old(currentDelay)
      ensures totalProcessed == old(totalProcessed) + ToSet(initialProcessed) +
        (if outcome.Completed? then ToSet(Drop(usernames, lastChunk * settings.chunkSize)) else {})
      ensures ToSet(skippedSession) <= ToSet(old(skippedSession)) + ToSet(initialSkipped) + totalProcessed
      ensures old(currentDelay) <= currentDelay
      ensures outcome.Completed? ==> progressFile == Absent
      ensures outcome.Completed? ==>
        ChunkSeq(batches) == Chunks(Drop(usernames, lastChunk * settings.chunkSize), settings.chunkSize) &&
        BatchLog(batches, lastChunk, false, old(totalProcessed) + ToSet(initialProcessed),
                 ToSet(old(skippedSession)) + ToSet(initialSkipped),
                 ToSet(Drop(usernames, lastChunk * settings.chunkSize)),
                 old(currentDelay), settings, old(progressFile), saveEnv) &&
        CountBatchPauses(waits) == CountBatchPauses(old(waits)) + (if batches == [] then 0 else |batches| - 1)
      ensures outcome.Completed? ==>
        currentDelay == RaisedDelay(old(currentDelay), Count(Drop(replies, lastChunk * settings.chunkSize), Throttle),
                                    settings)
      ensures ToSet(skippedSession) == ToSet(old(skippedSession)) + ToSet(initialSkipped) +
        (if outcome.Completed?
         then SkipSet(Drop(usernames, lastChunk * settings.chunkSize), Drop(replies, lastChunk * settings.chunkSize))
         else {})
      ensures waits == old(waits) +
        (if outcome.Completed? then RunWaits(Drop(replies, lastChunk * settings.chunkSize), old(currentDelay), settings)
         else [])
      ensures outcome.Completed? ==>
        ReplySeq(batches) == Chunks(Drop(replies, lastChunk * settings.chunkSize), settings.chunkSize) &&
        ExactRecords(batches, old(totalProcessed) + ToSet(initialProcessed),
                     ToSet(old(skippedSession)) + ToSet(initialSkipped), old(currentDelay), settings)
    {
      totalProcessed := totalProcessed + ToSet(initialProcessed);
      assert ToSet(skippedSession + initialSkipped) == ToSet(skippedSession) + ToSet(initialSkipped);
      skippedSession := SetToSeq(ToSet(skippedSession + initialSkipped));
      batches := [];
      var check := GetChatInfo(inviteLink, access);
      if check.Some? {
        assert waits + [] == waits;
        return Aborted(check.value);
      }
      ghost var r := RunStart(usernames, lastChunk, settings.chunkSize, lastChunk * settings.chunkSize,
                              totalProcessed, ToSet(skippedSession), currentDelay, settings,
                              progressFile, CountBatchPauses(waits));
      RunBatches(usernames, lastChunk, replies, saveEnv, r);
      progressFile := RemoveProgress(progressFile);
      outcome := Completed;
    }
  }
}
