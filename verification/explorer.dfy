/** The queue explorer: discovers BullMQ queues, computes per-queue state
    counts and orphaned job hashes, loads and classifies single jobs, and
    lists jobs by state and across all states. Every operation reads an
    immutable Store.Snapshot; the Prometheus gauge and histogram updates
    the explorer makes on the side are not modelled. */
module Explorer {
  import opened Wrappers
  import opened Store
  import Text
  import Numeric

  /** GetQueueStats, GetJob, determineJobState and the listings build keys
      with this prefix, whatever prefix discovery was given. */
  const Bull: string := "bull"

  /** `bull:<queue>:<part>`: a state collection, metadata or job hash key. */
  function Key(queue: string, part: string): string {
    Bull + ":" + queue + ":" + part
  }

  lemma KeyInjective(queue: string, a: string, b: string)
    requires Key(queue, a) == Key(queue, b)
    ensures a == b
  {
    var p := Bull + ":" + queue + ":";
    assert Key(queue, a) == p + a && Key(queue, b) == p + b;
    assert (p + a)[|p|..] == a && (p + b)[|p|..] == b;
  }

  // =====================================================================
  // Records

  datatype QueueStats = QueueStats(
    name: string,
    wait: nat, active: nat, paused: nat, prioritized: nat, waitingChildren: nat,
    failed: nat, completed: nat, delayed: nat, stalled: nat,
    orphaned: nat, total: nat)

  /** A decoded JSON value, as encoding/json produces it for interface{}. */
  datatype Json =
    | JNull
    | JBool(b: bool)
    | JNumber(literal: string)
    | JString(text: string)
    | JArray(items: seq<Json>)
    | JObject(members: map<string, Json>)

  /** encoding/json: `parse` is json.Unmarshal into interface{} (None on a
      syntax error), `encode` is json.Marshal of a decoded value. */
  datatype Codec = Codec(parse: string -> Option<Json>, encode: Json -> string)

  datatype Job = Job(
    id: string,
    name: string,
    data: Option<map<string, Json>>,     // None: a nil map
    opts: Option<map<string, Json>>,
    progress: Json,                      // JNull: a nil interface
    delay: int,
    timestamp: int,                      // milliseconds since the epoch
    attemptsMade: int,
    failedReason: string,
    stackTrace: seq<string>,
    returnValue: Json,
    finishedOn: int,
    processedOn: int,
    state: string,
    queue: string)

  datatype JobSummary = JobSummary(
    id: string,
    name: string,
    state: string,
    queue: string,
    timestamp: int,                      // whole seconds since the epoch
    attemptsMade: int,
    data: string,
    opts: string,
    failedReason: string)

  datatype Error =
    | ReadFailed(cause: ReadError)
    | JobNotFound(id: string)
    | Malformed(field: string)
    | UnknownState(state: string)

  function Lift<T>(r: Result<T, ReadError>): Result<T, Error> {
    match r
    case Success(v) => Success(v)
    case Failure(e) => Failure(ReadFailed(e))
  }

  // =====================================================================
  // Queue discovery

  /** The queue a sentinel key names: its second `:`-separated component,
      when it has at least three. */
  function QueueName(key: string): Option<string> {
    var parts := Text.Split(key, ':');
    if |parts| >= 3 then Some(parts[1]) else None
  }

  /** The names discovery emits for `keys`, one per key with at least three
      components, in key order and without removing repeats. */
  function QueueNames(keys: seq<string>): seq<string> {
    if keys == [] then []
    else
      QueueNames(keys[..|keys| - 1])
      + (match QueueName(keys[|keys| - 1]) case Some(q) => [q] case None => [])
  }

  /** Discovery's scan pattern for a prefix. */
  function SentinelPattern(prefix: string): string {
    prefix + ":*:id"
  }

  /** DiscoverQueues: scans `<prefix>:*:id` to the end and returns the
      queue name of every sentinel key; a failed scan reply fails the whole
      call and no partial list is returned. */
  method DiscoverQueues(s: Snapshot, prefix: string) returns (r: Result<seq<string>, Error>)
    ensures match ScanAll(Batches(s, SentinelPattern(prefix)), SentinelPattern(prefix))
            case Success(keys) => r == Success(QueueNames(keys))
            case Failure(e) => r == Failure(ReadFailed(e))
  {
    var pattern := prefix + ":*:id";
    ghost var bs := Batches(s, pattern);
    var cursor: nat := 0;
    var queues: seq<string> := [];
    ghost var seen: seq<string> := [];
    PrependEmpty(ScanAll(bs, pattern));
    while true
      invariant cursor < |bs|
      invariant ScanAll(bs, pattern) == Prepend(seen, ScanFrom(bs, cursor, pattern))
      invariant queues == QueueNames(seen)
      decreases |bs| - cursor
    {
      var reply := ScanOf(s, pattern, cursor);
      if reply.Failure? {
        return Failure(ReadFailed(reply.error));
      }
      var (keys, next) := reply.value;
      assert bs[cursor] == Batch(keys);
      queues := AppendQueueNames(queues, seen, keys);
      PrependPrepend(seen, keys, ScanFrom(bs, cursor + 1, pattern));
      seen := seen + keys;
      if next == 0 {
        assert ScanFrom(bs, cursor + 1, pattern) == Success([]);
        assert seen + [] == seen;
        break;
      }
      cursor := next;
    }
    return Success(queues);
  }

  /** Appends the queue name of each key of one scan reply. */
  method AppendQueueNames(queues: seq<string>, ghost seen: seq<string>, keys: seq<string>) returns (queues': seq<string>)
    requires queues == QueueNames(seen)
    ensures queues' == QueueNames(seen + keys)
  {
    queues' := queues;
    assert seen + keys[..0] == seen;
    for i := 0 to |keys|
      invariant queues' == QueueNames(seen + keys[..i])
    {
      assert (seen + keys[..i + 1])[..|seen| + i] == seen + keys[..i];
      var parts := Text.Split(keys[i], ':');
      if |parts| >= 3 {
        queues' := queues' + [parts[1]];
      }
    }
    assert keys[..|keys|] == keys;
  }

  /** Discovery keeps repeats: the names for two key lists are the names
      for the first followed by the names for the second. */
  lemma {:induction false} QueueNamesAppend(a: seq<string>, b: seq<string>)
    ensures QueueNames(a + b) == QueueNames(a) + QueueNames(b)
  {
    if b != [] {
      assert (a + b)[..|a + b| - 1] == a + b[..|b| - 1];
      QueueNamesAppend(a, b[..|b| - 1]);
    } else {
      assert a + b == a;
    }
  }

  /** A key yields queue `q` exactly when it is `<p>:<q>:<rest>` with no
      `:` in `p` or `q`; keys with fewer than two colons yield nothing. */
  lemma QueueNameShape(key: string, p: string, q: string, rest: string)
    requires ':' !in p && ':' !in q
    ensures key == p + ":" + q + ":" + rest ==> QueueName(key) == Some(q)
    ensures Text.Count(key, ':') < 2 <==> QueueName(key) == None
  {
    Text.SplitParts(key, ':');
    if key == p + ":" + q + ":" + rest {
      Text.SplitAfterPiece(p, q + ":" + rest, ':');
      Text.SplitAfterPiece(q, rest, ':');
      assert p + ":" + q + ":" + rest == p + [':'] + (q + ":" + rest);
      assert q + ":" + rest == q + [':'] + rest;
    }
  }

  /** Conversely, every name discovery emits sits between the first and
      second colon of its key. */
  lemma QueueNameSplitsKey(key: string)
    requires QueueName(key).Some?
    ensures exists p, rest :: ':' !in p && ':' !in QueueName(key).value
                              && key == p + ":" + QueueName(key).value + ":" + rest
  {
    var parts := Text.Split(key, ':');
    Text.SplitParts(key, ':');
    Text.JoinSplit(key, ':');
    var rest := Text.Join(parts[2..], ':');
    assert parts[1..][1..] == parts[2..];
    assert Text.Join(parts, ':') == parts[0] + [':'] + Text.Join(parts[1..], ':');
    assert Text.Join(parts[1..], ':') == parts[1] + [':'] + rest;
    assert key == parts[0] + ":" + parts[1] + ":" + rest;
  }

  // =====================================================================
  // Per-queue statistics

  datatype Kind = ListKind | ZSetKind

  /** A state collection: its key suffix and whether it is a list or a
      sorted set. */
  datatype Collection = Collection(suffix: string, kind: Kind)

  const WaitC := Collection("wait", ListKind)
  const ActiveC := Collection("active", ListKind)
  const PausedC := Collection("paused", ListKind)
  const PrioritizedC := Collection("prioritized", ZSetKind)
  const WaitingChildrenC := Collection("waiting-children", ZSetKind)
  const FailedC := Collection("failed", ZSetKind)
  const CompletedC := Collection("completed", ZSetKind)
  const DelayedC := Collection("delayed", ZSetKind)
  const StalledC := Collection("stalled", ZSetKind)

  /** The nine state collections, in the order GetQueueStats reads them. */
  const StateCollections: seq<Collection> := [
    WaitC, ActiveC, PausedC, PrioritizedC, WaitingChildrenC,
    FailedC, CompletedC, DelayedC, StalledC]

  /** The read that counts a collection: LLEN for a list, ZCARD for a set. */
  function CountOp(c: Collection): Op {
    if c.kind == ListKind then LLen else ZCard
  }

  /** A collection's size, with a failed read counted as 0. */
  function CountOf(s: Snapshot, queue: string, c: Collection): (n: nat)
    ensures Fails(s, CountOp(c), Key(queue, c.suffix)) ==> n == 0
    ensures !Fails(s, CountOp(c), Key(queue, c.suffix)) ==>
              n == |if c.kind == ListKind then List(s, Key(queue, c.suffix)) else ZSet(s, Key(queue, c.suffix))|
  {
    var key := Key(queue, c.suffix);
    var reply := if c.kind == ListKind then LLenOf(s, key) else ZCardOf(s, key);
    match reply
    case Success(n) => n
    case Failure(_) => 0
  }

  /** LRANGE / ZRANGE of a collection between two inclusive bounds. */
  function RangeOf(s: Snapshot, queue: string, c: Collection, start: int, stop: int): Result<seq<string>, ReadError> {
    var key := Key(queue, c.suffix);
    if c.kind == ListKind then LRangeOf(s, key, start, stop) else ZRangeOf(s, key, start, stop)
  }

  /** The IDs a collection holds, or none when reading it fails. */
  function MemberSet(s: Snapshot, queue: string, c: Collection): set<string> {
    match RangeOf(s, queue, c, 0, -1)
    case Success(ids) => set id | id in ids
    case Failure(_) => {}
  }

  /** The distinct IDs referenced by the collections `cs`. */
  function ReferencedIDs(s: Snapshot, queue: string, cs: seq<Collection>): set<string> {
    if cs == [] then {}
    else ReferencedIDs(s, queue, cs[..|cs| - 1]) + MemberSet(s, queue, cs[|cs| - 1])
  }

  /** An ID is referenced exactly when some collection whose range read
      succeeds holds it. */
  lemma {:induction false} ReferencedIDsMembers(s: Snapshot, queue: string, cs: seq<Collection>, id: string)
    ensures id in ReferencedIDs(s, queue, cs) <==>
            exists k :: 0 <= k < |cs| && RangeOf(s, queue, cs[k], 0, -1).Success?
                                      && id in RangeOf(s, queue, cs[k], 0, -1).value
  {
    if cs != [] {
      var init := cs[..|cs| - 1];
      ReferencedIDsMembers(s, queue, init, id);
      if id in ReferencedIDs(s, queue, cs) && id !in ReferencedIDs(s, queue, init) {
        assert id in MemberSet(s, queue, cs[|cs| - 1]);
      }
      if exists k :: 0 <= k < |cs| && RangeOf(s, queue, cs[k], 0, -1).Success?
                                   && id in RangeOf(s, queue, cs[k], 0, -1).value {
        var k :| 0 <= k < |cs| && RangeOf(s, queue, cs[k], 0, -1).Success?
                               && id in RangeOf(s, queue, cs[k], 0, -1).value;
        if k < |cs| - 1 {
          assert init[k] == cs[k];
        }
      }
    }
  }

  /** Sum of the sizes of the collections' range reads (failed reads add 0). */
  function MemberCount(s: Snapshot, queue: string, cs: seq<Collection>): nat {
    if cs == [] then 0
    else
      MemberCount(s, queue, cs[..|cs| - 1])
      + match RangeOf(s, queue, cs[|cs| - 1], 0, -1) case Success(ids) => |ids| case Failure(_) => 0
  }

  lemma {:induction false} SetOfSeqSize(xs: seq<string>)
    ensures |set x | x in xs| <= |xs|
  {
    if xs != [] {
      var init := xs[..|xs| - 1];
      SetOfSeqSize(init);
      assert (set x | x in xs) == (set x | x in init) + {xs[|xs| - 1]};
    }
  }

  /** An ID held by several collections is counted once: the referenced
      set is never larger than the sum of the collections' sizes. */
  lemma {:induction false} ReferencedIDsBound(s: Snapshot, queue: string, cs: seq<Collection>)
    ensures |ReferencedIDs(s, queue, cs)| <= MemberCount(s, queue, cs)
  {
    if cs != [] {
      ReferencedIDsBound(s, queue, cs[..|cs| - 1]);
      var c := cs[|cs| - 1];
      if RangeOf(s, queue, c, 0, -1).Success? {
        SetOfSeqSize(RangeOf(s, queue, c, 0, -1).value);
      }
    }
  }

  /** Fills the set of referenced IDs, collection by collection. */
  method ReferencedJobIDs(s: Snapshot, queue: string) returns (ids: set<string>)
    ensures ids == ReferencedIDs(s, queue, StateCollections)
  {
    ids := {};
    for k := 0 to |StateCollections|
      invariant ids == ReferencedIDs(s, queue, StateCollections[..k])
    {
      var c := StateCollections[k];
      assert StateCollections[..k + 1][..k] == StateCollections[..k];
      var reply := RangeOf(s, queue, c, 0, -1);
      if reply.Success? {
        ids := AddMembers(ids, reply.value);
      }
    }
    assert StateCollections[..|StateCollections|] == StateCollections;
  }

  /** Adds every member of one range read to the set. */
  method AddMembers(ids: set<string>, members: seq<string>) returns (ids': set<string>)
    ensures ids' == ids + set id | id in members
  {
    ids' := ids;
    for j := 0 to |members|
      invariant ids' == ids + set id | id in members[..j]
    {
      assert members[..j + 1] == members[..j] + [members[j]];
      ids' := ids' + {members[j]};
    }
    assert members[..|members|] == members;
  }

  /** Key suffixes that are queue metadata or state collections, never job
      hashes. */
  const ReservedSuffixes: set<string> := {
    "id", "meta", "events", "wait", "active", "failed", "completed", "delayed",
    "stalled", "paused", "priority", "prioritized", "waiting-children"}

  /** A scanned key counts as a job hash when its suffix is not reserved,
      TYPE answers "hash" and HEXISTS finds a `name` field; a failed TYPE
      or HEXISTS read means it does not count. */
  predicate IsJobHash(s: Snapshot, queue: string, key: string) {
    && Text.TrimPrefix(key, Bull + ":" + queue + ":") !in ReservedSuffixes
    && TypeOf(s, key) == Success("hash")
    && HExistsOf(s, key, "name") == Success(true)
  }

  /** How many of `keys` satisfy `p`. */
  function CountWhere(keys: seq<string>, p: string -> bool): (n: nat)
    ensures n <= |keys|
  {
    if keys == [] then 0
    else CountWhere(keys[..|keys| - 1], p) + (if p(keys[|keys| - 1]) then 1 else 0)
  }

  lemma {:induction false} CountWhereAgree(keys: seq<string>, p: string -> bool, q: string -> bool)
    requires forall k <- keys :: p(k) == q(k)
    ensures CountWhere(keys, p) == CountWhere(keys, q)
  {
    if keys != [] {
      assert keys[|keys| - 1] in keys;
      CountWhereAgree(keys[..|keys| - 1], p, q);
    }
  }

  /** How many of `keys` are job hashes. */
  function JobHashCount(s: Snapshot, queue: string, keys: seq<string>): (n: nat)
    ensures n <= |keys|
  {
    CountWhere(keys, key => IsJobHash(s, queue, key))
  }

  lemma {:induction false} CountWhereAppend(a: seq<string>, b: seq<string>, p: string -> bool)
    ensures CountWhere(a + b, p) == CountWhere(a, p) + CountWhere(b, p)
  {
    if b == [] {
      assert a + b == a;
    } else {
      var init := b[..|b| - 1];
      CountWhereAppend(a, init, p);
      assert (a + b)[..|a + b| - 1] == a + init;
    }
  }

  /** Counting two runs of keys one after the other adds their counts. */
  lemma JobHashCountAppend(s: Snapshot, queue: string, a: seq<string>, b: seq<string>)
    ensures JobHashCount(s, queue, a + b) == JobHashCount(s, queue, a) + JobHashCount(s, queue, b)
  {
    CountWhereAppend(a, b, key => IsJobHash(s, queue, key));
  }

  lemma JobHashCountSnoc(s: Snapshot, queue: string, keys: seq<string>, key: string)
    ensures JobHashCount(s, queue, keys + [key]) == JobHashCount(s, queue, keys) + (if IsJobHash(s, queue, key) then 1 else 0)
  {
    assert (keys + [key])[..|keys|] == keys;
  }

  /** The pattern the job-hash scan uses. */
  function HashPattern(queue: string): string {
    Bull + ":" + queue + ":*"
  }

  /** The keys the job-hash scan examines: those of the replies before the
      first failed reply. */
  function HashScanKeys(s: Snapshot, queue: string): seq<string> {
    KeysBeforeFailure(Batches(s, HashPattern(queue)), 0)
  }

  /** Counts job hashes over a cursor scan; a failed scan reply ends the
      count with what was counted so far. */
  method CountJobHashes(s: Snapshot, queue: string) returns (n: nat)
    ensures n == JobHashCount(s, queue, HashScanKeys(s, queue))
  {
    var prefix := Bull + ":" + queue;
    var pattern := prefix + ":*";
    ghost var bs := Batches(s, pattern);
    assert HashScanKeys(s, queue) == KeysBeforeFailure(bs, 0) by {
      assert pattern == HashPattern(queue);
    }
    var cursor: nat := 0;
    n := 0;
    while true
      invariant cursor < |bs|
      invariant n + JobHashCount(s, queue, KeysBeforeFailure(bs, cursor)) == JobHashCount(s, queue, KeysBeforeFailure(bs, 0))
      decreases |bs| - cursor
    {
      var reply := ScanOf(s, pattern, cursor);
      ScanStep(s, pattern, cursor);
      if reply.Failure? {
        break;
      }
      var (keys, next) := reply.value;
      JobHashCountAppend(s, queue, keys, KeysBeforeFailure(bs, cursor + 1));
      n := CountBatch(s, queue, prefix, n, keys);
      if next == 0 {
        break;
      }
      cursor := next;
    }
  }

  /** The inner loop over one batch of scanned keys: adds the batch's job
      hashes to the running count. */
  method CountBatch(s: Snapshot, queue: string, prefix: string, n: nat, keys: seq<string>)
    returns (n': nat)
    requires prefix == Bull + ":" + queue
    ensures n' == n + JobHashCount(s, queue, keys)
  {
    n' := n;
    for i := 0 to |keys|
      invariant n' == n + JobHashCount(s, queue, keys[..i])
    {
      assert keys[..i + 1] == keys[..i] + [keys[i]];
      JobHashCountSnoc(s, queue, keys[..i], keys[i]);
      var isJobHash := CheckKey(s, queue, prefix, keys[i]);
      if isJobHash {
        n' := n' + 1;
      }
    }
    assert keys[..|keys|] == keys;
  }

  /** The checks one scanned key goes through, in order; the first one
      that fails, or whose read fails, rejects the key. */
  method CheckKey(s: Snapshot, queue: string, prefix: string, key: string) returns (isJobHash: bool)
    requires prefix == Bull + ":" + queue
    ensures isJobHash == IsJobHash(s, queue, key)
  {
    var suffix := Text.TrimPrefix(key, prefix + ":");
    if suffix in ReservedSuffixes {
      return false;
    }
    var keyType := TypeOf(s, key);
    if keyType.Failure? || keyType.value != "hash" {
      return false;
    }
    var hasName := HExistsOf(s, key, "name");
    if hasName.Failure? || !hasName.value {
      return false;
    }
    return true;
  }

  /** Job hashes minus referenced IDs, floored at zero. */
  function Orphaned(jobHashes: nat, referenced: nat): (o: nat)
    ensures o >= jobHashes - referenced
    ensures o == 0 || o == jobHashes - referenced
    ensures o <= jobHashes
  {
    if jobHashes < referenced then 0 else jobHashes - referenced
  }

  predicate Consistent(st: QueueStats) {
    st.total == st.wait + st.active + st.paused + st.prioritized + st.waitingChildren
                + st.failed + st.completed + st.delayed + st.stalled + st.orphaned
  }

  /** The statistics GetQueueStats reports for one queue. */
  function StatsFor(s: Snapshot, queue: string): (st: QueueStats)
    ensures st.name == queue && Consistent(st)
  {
    var w, a, p, pr, wc := CountOf(s, queue, WaitC), CountOf(s, queue, ActiveC), CountOf(s, queue, PausedC),
                           CountOf(s, queue, PrioritizedC), CountOf(s, queue, WaitingChildrenC);
    var f, c, d, st := CountOf(s, queue, FailedC), CountOf(s, queue, CompletedC), CountOf(s, queue, DelayedC),
                       CountOf(s, queue, StalledC);
    var o := Orphaned(JobHashCount(s, queue, HashScanKeys(s, queue)), |ReferencedIDs(s, queue, StateCollections)|);
    QueueStats(queue, w, a, p, pr, wc, f, c, d, st, o, w + a + p + pr + wc + f + c + d + st + o)
  }

  /** The statistics of one queue: nine counts, the referenced IDs, the
      job-hash scan and the orphan count. */
  method QueueStatsOf(s: Snapshot, q: string) returns (stat: QueueStats)
    ensures stat == StatsFor(s, q)
  {
    var waitLen := CountOf(s, q, WaitC);
    var activeLen := CountOf(s, q, ActiveC);
    var pausedLen := CountOf(s, q, PausedC);
    var prioritizedLen := CountOf(s, q, PrioritizedC);
    var waitingChildrenLen := CountOf(s, q, WaitingChildrenC);
    var failedCard := CountOf(s, q, FailedC);
    var completedCard := CountOf(s, q, CompletedC);
    var delayedCard := CountOf(s, q, DelayedC);
    var stalledCard := CountOf(s, q, StalledC);
    var ids := ReferencedJobIDs(s, q);
    var totalJobHashes := CountJobHashes(s, q);
    var orphanedCount: int := totalJobHashes - |ids|;
    if orphanedCount < 0 {
      orphanedCount := 0;
    }
    assert orphanedCount == Orphaned(totalJobHashes, |ids|);
    stat := QueueStats(q, waitLen, activeLen, pausedLen, prioritizedLen, waitingChildrenLen,
                       failedCard, completedCard, delayedCard, stalledCard, orphanedCount,
                       waitLen + activeLen + pausedLen + prioritizedLen + waitingChildrenLen
                       + failedCard + completedCard + delayedCard + stalledCard + orphanedCount);
  }

  /** GetQueueStats: one entry per queue, in input order, and never an
      error; failed reads only lower the affected counts. */
  method GetQueueStats(s: Snapshot, queues: seq<string>) returns (r: Result<seq<QueueStats>, Error>)
    ensures r.Success? && |r.value| == |queues|
    ensures forall i :: 0 <= i < |queues| ==> r.value[i] == StatsFor(s, queues[i])
  {
    var stats: seq<QueueStats> := [];
    for i := 0 to |queues|
      invariant |stats| == i
      invariant forall k :: 0 <= k < i ==> stats[k] == StatsFor(s, queues[k])
    {
      var stat := QueueStatsOf(s, queues[i]);
      stats := stats + [stat];
    }
    return Success(stats);
  }

  /** The count of the i-th state collection in a stats record. */
  function CountAt(st: QueueStats, i: nat): nat
    requires i < 9
  {
    match i
    case 0 => st.wait
    case 1 => st.active
    case 2 => st.paused
    case 3 => st.prioritized
    case 4 => st.waitingChildren
    case 5 => st.failed
    case 6 => st.completed
    case 7 => st.delayed
    case _ => st.stalled
  }

  /** The snapshot with one more failing read. */
  function FailingAlso(s: Snapshot, op: Op, key: string): Snapshot {
    s.(failing := s.failing + {(op, key)})
  }

  lemma ReferencedIDsIgnoreCountReads(s: Snapshot, s': Snapshot, queue: string, cs: seq<Collection>)
    requires s'.lists == s.lists && s'.zsets == s.zsets
    requires forall k :: 0 <= k < |cs| ==> (Fails(s', LRange, Key(queue, cs[k].suffix)) <==> Fails(s, LRange, Key(queue, cs[k].suffix)))
    requires forall k :: 0 <= k < |cs| ==> (Fails(s', ZRange, Key(queue, cs[k].suffix)) <==> Fails(s, ZRange, Key(queue, cs[k].suffix)))
    ensures ReferencedIDs(s', queue, cs) == ReferencedIDs(s, queue, cs)
  {
    if cs != [] {
      ReferencedIDsIgnoreCountReads(s, s', queue, cs[..|cs| - 1]);
    }
  }

  lemma JobHashCountIgnoresCountReads(s: Snapshot, s': Snapshot, queue: string, keys: seq<string>)
    requires s'.types == s.types && s'.hashes == s.hashes
    requires forall k <- keys :: (Fails(s', Type, k) <==> Fails(s, Type, k)) && (Fails(s', HExists, k) <==> Fails(s, HExists, k))
    ensures JobHashCount(s', queue, keys) == JobHashCount(s, queue, keys)
  {
    forall k <- keys
      ensures IsJobHash(s', queue, k) == IsJobHash(s, queue, k)
    {
    }
    CountWhereAgree(keys, key => IsJobHash(s', queue, key), key => IsJobHash(s, queue, key));
  }

  /** Each count in the record is its collection's count read. */
  lemma StatsCounts(s: Snapshot, queue: string)
    ensures forall i :: 0 <= i < 9 ==> CountAt(StatsFor(s, queue), i) == CountOf(s, queue, StateCollections[i])
  {
  }

  /** A failed count read degrades only its own count to 0: every other
      count and the orphan count are unchanged, and the total drops by the
      lost count. */
  lemma FailedCountIsZero(s: Snapshot, queue: string, i: nat)
    requires i < 9
    ensures var c := StateCollections[i];
            var s' := FailingAlso(s, CountOp(c), Key(queue, c.suffix));
            && CountAt(StatsFor(s', queue), i) == 0
            && (forall j :: 0 <= j < 9 && j != i ==> CountAt(StatsFor(s', queue), j) == CountAt(StatsFor(s, queue), j))
            && StatsFor(s', queue).orphaned == StatsFor(s, queue).orphaned
            && StatsFor(s', queue).total + CountAt(StatsFor(s, queue), i) == StatsFor(s, queue).total
  {
    var c := StateCollections[i];
    var s' := FailingAlso(s, CountOp(c), Key(queue, c.suffix));
    StatsCounts(s, queue);
    StatsCounts(s', queue);
    SuffixesDistinct();
    forall j | 0 <= j < 9 && j != i
      ensures CountOf(s', queue, StateCollections[j]) == CountOf(s, queue, StateCollections[j])
    {
      CountOfOther(s, queue, c, StateCollections[j]);
    }
    OrphanedIgnoresCountReads(s, queue, CountOp(c), Key(queue, c.suffix));
    TotalLosesOneCount(StatsFor(s, queue), StatsFor(s', queue), i);
  }

  lemma SuffixesDistinct()
    ensures forall i, j :: 0 <= i < j < |StateCollections| ==> StateCollections[i].suffix != StateCollections[j].suffix
  {
  }

  /** Failing the count read of collection `c` leaves the count of any
      other collection `d` as it was. */
  lemma CountOfOther(s: Snapshot, queue: string, c: Collection, d: Collection)
    requires c.suffix != d.suffix
    ensures CountOf(FailingAlso(s, CountOp(c), Key(queue, c.suffix)), queue, d) == CountOf(s, queue, d)
  {
    if Key(queue, d.suffix) == Key(queue, c.suffix) {
      KeyInjective(queue, d.suffix, c.suffix);
    }
  }

  /** Two consistent records that differ only in count `i`, which is 0 in
      the second, differ in total by that count. */
  lemma TotalLosesOneCount(st: QueueStats, st': QueueStats, i: nat)
    requires i < 9 && Consistent(st) && Consistent(st')
    requires CountAt(st', i) == 0 && st'.orphaned == st.orphaned
    requires forall j :: 0 <= j < 9 && j != i ==> CountAt(st', j) == CountAt(st, j)
    ensures st'.total + CountAt(st, i) == st.total
  {
    assert CountAt(st', 0) == st'.wait && CountAt(st, 0) == st.wait;
    assert CountAt(st', 1) == st'.active && CountAt(st, 1) == st.active;
    assert CountAt(st', 2) == st'.paused && CountAt(st, 2) == st.paused;
    assert CountAt(st', 3) == st'.prioritized && CountAt(st, 3) == st.prioritized;
    assert CountAt(st', 4) == st'.waitingChildren && CountAt(st, 4) == st.waitingChildren;
    assert CountAt(st', 5) == st'.failed && CountAt(st, 5) == st.failed;
    assert CountAt(st', 6) == st'.completed && CountAt(st, 6) == st.completed;
    assert CountAt(st', 7) == st'.delayed && CountAt(st, 7) == st.delayed;
    assert CountAt(st', 8) == st'.stalled && CountAt(st, 8) == st.stalled;
  }

  lemma OrphanedIgnoresCountReads(s: Snapshot, queue: string, op: Op, key: string)
    requires op == LLen || op == ZCard
    ensures StatsFor(FailingAlso(s, op, key), queue).orphaned == StatsFor(s, queue).orphaned
  {
    var s' := FailingAlso(s, op, key);
    ReferencedIDsIgnoreCountReads(s, s', queue, StateCollections);
    assert Batches(s', HashPattern(queue)) == Batches(s, HashPattern(queue));
    JobHashCountIgnoresCountReads(s, s', queue, HashScanKeys(s, queue));
  }

  // =====================================================================
  // Job state classification

  /** One membership test of determineJobState: the collection it probes
      and the state it reports on a hit. */
  datatype Probe = Probe(collection: Collection, state: string)

  /** determineJobState's fixed precedence. The stalled set is not probed. */
  const Precedence: seq<Probe> := [
    Probe(ActiveC, "active"),
    Probe(WaitC, "waiting"),
    Probe(PausedC, "paused"),
    Probe(PrioritizedC, "prioritized"),
    Probe(WaitingChildrenC, "waiting-children"),
    Probe(FailedC, "failed"),
    Probe(CompletedC, "completed"),
    Probe(DelayedC, "delayed")]

  /** LPOS on a list or ZSCORE on a sorted set answers without error. */
  predicate Hits(s: Snapshot, queue: string, id: string, p: Probe) {
    var key := Key(queue, p.collection.suffix);
    if p.collection.kind == ListKind then LPosOf(s, key, id).Success? else ZScoreOf(s, key, id).Success?
  }

  /** A probe hits exactly when its read works and the collection holds the ID. */
  lemma HitsMeansMember(s: Snapshot, queue: string, id: string, p: Probe)
    ensures var key := Key(queue, p.collection.suffix);
            Hits(s, queue, id, p) <==>
              if p.collection.kind == ListKind then !Fails(s, LPos, key) && id in List(s, key)
              else !Fails(s, ZScore, key) && id in ZSet(s, key)
  {
    var key := Key(queue, p.collection.suffix);
    if p.collection.kind == ListKind && !Fails(s, LPos, key) && id in List(s, key) {
      var r := FirstIndex(List(s, key), id, 0);
      assert List(s, key)[0..] == List(s, key);
    }
  }

  function FirstHit(s: Snapshot, queue: string, id: string, probes: seq<Probe>): string {
    if probes == [] then "unknown"
    else if Hits(s, queue, id, probes[0]) then probes[0].state
    else FirstHit(s, queue, id, probes[1..])
  }

  /** determineJobState: the state of the first probe that hits, else "unknown". */
  function DetermineJobState(s: Snapshot, queue: string, id: string): string {
    FirstHit(s, queue, id, Precedence)
  }

  lemma {:induction false} FirstHitIsFirst(s: Snapshot, queue: string, id: string, probes: seq<Probe>, i: nat)
    requires i < |probes| && Hits(s, queue, id, probes[i])
    requires forall j :: 0 <= j < i ==> !Hits(s, queue, id, probes[j])
    ensures FirstHit(s, queue, id, probes) == probes[i].state
  {
    if i > 0 {
      FirstHitIsFirst(s, queue, id, probes[1..], i - 1);
    }
  }

  lemma {:induction false} FirstHitMiss(s: Snapshot, queue: string, id: string, probes: seq<Probe>)
    requires forall j :: 0 <= j < |probes| ==> !Hits(s, queue, id, probes[j])
    ensures FirstHit(s, queue, id, probes) == "unknown"
  {
    if probes != [] {
      FirstHitMiss(s, queue, id, probes[1..]);
    }
  }

  lemma {:induction false} FirstHitFound(s: Snapshot, queue: string, id: string, probes: seq<Probe>)
    requires FirstHit(s, queue, id, probes) != "unknown"
    ensures exists i :: 0 <= i < |probes| && Hits(s, queue, id, probes[i])
                        && FirstHit(s, queue, id, probes) == probes[i].state
                        && forall j :: 0 <= j < i ==> !Hits(s, queue, id, probes[j])
  {
    if !Hits(s, queue, id, probes[0]) {
      FirstHitFound(s, queue, id, probes[1..]);
      var i :| 0 <= i < |probes[1..]| && Hits(s, queue, id, probes[1..][i])
               && FirstHit(s, queue, id, probes[1..]) == probes[1..][i].state
               && forall j :: 0 <= j < i ==> !Hits(s, queue, id, probes[1..][j]);
      assert forall j :: 0 <= j < i + 1 ==> !Hits(s, queue, id, probes[j]) by {
        forall j | 0 <= j < i + 1 ensures !Hits(s, queue, id, probes[j]) {
          if j > 0 { assert probes[j] == probes[1..][j - 1]; }
        }
      }
    } else {
      assert Hits(s, queue, id, probes[0]);
    }
  }

  /** No probe of the precedence reports "unknown", and the first six
      report the states listed before "completed". */
  lemma PrecedenceStates()
    ensures forall k :: 0 <= k < |Precedence| ==> Precedence[k].state != "unknown"
    ensures forall k :: 0 <= k <= 5 ==>
              Precedence[k].state in {"active", "waiting", "paused", "prioritized", "waiting-children", "failed"}
  {
  }

  /** For probes none of which reports "unknown": the answer is "unknown"
      exactly when no probe hits, and otherwise the state of the first
      probe that hits. */
  lemma FirstHitSpec(s: Snapshot, queue: string, id: string, probes: seq<Probe>)
    requires forall k :: 0 <= k < |probes| ==> probes[k].state != "unknown"
    ensures FirstHit(s, queue, id, probes) == "unknown" <==>
            forall j :: 0 <= j < |probes| ==> !Hits(s, queue, id, probes[j])
    ensures forall i :: 0 <= i < |probes| && Hits(s, queue, id, probes[i])
                        && (forall j :: 0 <= j < i ==> !Hits(s, queue, id, probes[j]))
                        ==> FirstHit(s, queue, id, probes) == probes[i].state
  {
    if forall j :: 0 <= j < |probes| ==> !Hits(s, queue, id, probes[j]) {
      FirstHitMiss(s, queue, id, probes);
    } else {
      var i :| 0 <= i < |probes| && Hits(s, queue, id, probes[i]);
      FirstHitIsFirst(s, queue, id, probes, FirstHitIndex(s, queue, id, probes, i));
    }
    forall i | 0 <= i < |probes| && Hits(s, queue, id, probes[i])
               && (forall j :: 0 <= j < i ==> !Hits(s, queue, id, probes[j]))
      ensures FirstHit(s, queue, id, probes) == probes[i].state
    {
      FirstHitIsFirst(s, queue, id, probes, i);
    }
  }

  /** The classifier answers with the state of the first probe in the
      precedence that hits, and "unknown" exactly when none hits. */
  lemma DetermineJobStateSpec(s: Snapshot, queue: string, id: string)
    ensures DetermineJobState(s, queue, id) == "unknown" <==>
            forall j :: 0 <= j < |Precedence| ==> !Hits(s, queue, id, Precedence[j])
    ensures forall i :: 0 <= i < |Precedence| && Hits(s, queue, id, Precedence[i])
                        && (forall j :: 0 <= j < i ==> !Hits(s, queue, id, Precedence[j]))
                        ==> DetermineJobState(s, queue, id) == Precedence[i].state
  {
    PrecedenceStates();
    FirstHitSpec(s, queue, id, Precedence);
  }

  /** The smallest probe index at or below `i` that hits. */
  function FirstHitIndex(s: Snapshot, queue: string, id: string, probes: seq<Probe>, i: nat): (k: nat)
    requires i < |probes| && Hits(s, queue, id, probes[i])
    ensures k <= i && Hits(s, queue, id, probes[k])
    ensures forall j :: 0 <= j < k ==> !Hits(s, queue, id, probes[j])
  {
    if i == 0 then 0
    else if exists j :: 0 <= j < i && Hits(s, queue, id, probes[j]) then
      var j :| 0 <= j < i && Hits(s, queue, id, probes[j]);
      FirstHitIndex(s, queue, id, probes, j)
    else i
  }

  /** A job in both the failed and the completed set is classified as
      failed unless an earlier probe hits; it is never "completed". */
  lemma FailedBeatsCompleted(s: Snapshot, queue: string, id: string)
    requires Hits(s, queue, id, Precedence[5])
    ensures DetermineJobState(s, queue, id) in {"active", "waiting", "paused", "prioritized", "waiting-children", "failed"}
  {
    var k := FirstHitIndex(s, queue, id, Precedence, 5);
    FirstHitIsFirst(s, queue, id, Precedence, k);
    PrecedenceStates();
  }

  /** The stalled set is never probed: whatever it holds, the state is the
      same, so a job found only there is "unknown". */
  lemma StalledNotProbed(s: Snapshot, queue: string, id: string, stalled: seq<string>)
    ensures DetermineJobState(s.(zsets := s.zsets[Key(queue, "stalled") := stalled]), queue, id)
            == DetermineJobState(s, queue, id)
  {
    var s' := s.(zsets := s.zsets[Key(queue, "stalled") := stalled]);
    forall j | 0 <= j < |Precedence|
      ensures Hits(s', queue, id, Precedence[j]) == Hits(s, queue, id, Precedence[j])
    {
      if Key(queue, Precedence[j].collection.suffix) == Key(queue, "stalled") {
        KeyInjective(queue, Precedence[j].collection.suffix, "stalled");
      }
    }
    StateDependsOnHitsOnly(s, s', queue, id, Precedence);
  }

  lemma {:induction false} StateDependsOnHitsOnly(s: Snapshot, s': Snapshot, queue: string, id: string, probes: seq<Probe>)
    requires forall j :: 0 <= j < |probes| ==> Hits(s', queue, id, probes[j]) == Hits(s, queue, id, probes[j])
    ensures FirstHit(s', queue, id, probes) == FirstHit(s, queue, id, probes)
  {
    if probes != [] {
      StateDependsOnHitsOnly(s, s', queue, id, probes[1..]);
    }
  }

  // =====================================================================
  // Loading one job

  /** A decoded value as json.Unmarshal stores it into a map field: an
      object gives the map, null leaves it nil, anything else fails. */
  function DecodeObject(codec: Codec, raw: string, field: string): Result<Option<map<string, Json>>, Error> {
    match codec.parse(raw)
    case Some(JObject(m)) => Success(Some(m))
    case Some(JNull) => Success(None)
    case _ => Failure(Malformed(field))
  }

  /** json.Unmarshal into interface{}: any well-formed JSON. */
  function DecodeAny(codec: Codec, raw: string, field: string): Result<Json, Error> {
    match codec.parse(raw)
    case Some(j) => Success(j)
    case None => Failure(Malformed(field))
  }

  /** json.Unmarshal into []string: null leaves the slice nil, an array of
      strings and nulls (a null element stays "") fills it, anything else
      fails. */
  function DecodeStrings(codec: Codec, raw: string, field: string): Result<seq<string>, Error> {
    match codec.parse(raw)
    case Some(JNull) => Success([])
    case Some(JArray(items)) =>
      if forall it <- items :: it.JString? || it.JNull? then
        Success(seq(|items|, k requires 0 <= k < |items| => if items[k].JString? then items[k].text else ""))
      else Failure(Malformed(field))
    case _ => Failure(Malformed(field))
  }

  /** fmt.Sscanf(raw, "%d", &v). */
  function DecodeInt(raw: string, field: string): Result<int, Error> {
    match Numeric.ScanInt(raw)
    case Some(v) => Success(v)
    case None => Failure(Malformed(field))
  }

  /** Whether a stored field's text decodes into the Job field of that
      name; fields the loader copies verbatim or ignores always do. */
  predicate Decodes(codec: Codec, field: string, raw: string) {
    if field == "data" || field == "opts" then
      codec.parse(raw).Some? && (codec.parse(raw).value.JObject? || codec.parse(raw).value.JNull?)
    else if field == "progress" || field == "returnvalue" then
      codec.parse(raw).Some?
    else if field == "stacktrace" then
      codec.parse(raw).Some?
      && (codec.parse(raw).value.JNull?
          || (codec.parse(raw).value.JArray? && forall it <- codec.parse(raw).value.items :: it.JString? || it.JNull?))
    else if field == "timestamp" || field == "attemptsMade" || field == "finishedOn" || field == "processedOn" then
      Numeric.ScanInt(raw).Some?
    else true
  }

  /** Every field of the stored hash decodes. */
  predicate WellFormed(codec: Codec, h: map<string, string>) {
    forall f :: f in h ==> Decodes(codec, f, h[f])
  }

  /** A map field of the job: nil when the hash lacks it. */
  function ObjectField(codec: Codec, h: map<string, string>, field: string): (r: Result<Option<map<string, Json>>, Error>)
    requires field == "data" || field == "opts"
    ensures r.Success? <==> FieldOk(codec, h, field)
    ensures field !in h ==> r == Success(None)
  {
    if field in h then DecodeObject(codec, h[field], field) else Success(None)
  }

  /** An interface{} field of the job: nil when the hash lacks it. */
  function AnyField(codec: Codec, h: map<string, string>, field: string): (r: Result<Json, Error>)
    requires field == "progress" || field == "returnvalue"
    ensures r.Success? <==> FieldOk(codec, h, field)
    ensures field !in h ==> r == Success(JNull)
  {
    if field in h then DecodeAny(codec, h[field], field) else Success(JNull)
  }

  /** An integer field of the job: 0 when the hash lacks it. */
  function IntField(h: map<string, string>, field: string): (r: Result<int, Error>)
    requires field == "timestamp" || field == "attemptsMade" || field == "finishedOn" || field == "processedOn"
    ensures r.Success? <==> (field in h ==> Numeric.ScanInt(h[field]).Some?)
    ensures r.Success? && field in h ==> Numeric.ScanInt(h[field]) == Some(r.value)
    ensures field !in h ==> r == Success(0)
  {
    if field in h then DecodeInt(h[field], field) else Success(0)
  }

  /** The stack trace: empty when the hash lacks it. */
  function StringsField(codec: Codec, h: map<string, string>, field: string): (r: Result<seq<string>, Error>)
    requires field == "stacktrace"
    ensures r.Success? <==> FieldOk(codec, h, field)
    ensures field !in h ==> r == Success([])
  {
    if field in h then DecodeStrings(codec, h[field], field) else Success([])
  }

  /** Builds a job from a non-empty stored hash, decoding its fields in
      the loader's order; the first present field that does not decode
      fails the load. */
  function DecodeJob(codec: Codec, h: map<string, string>, id: string, queue: string, state: string): (r: Result<Job, Error>)
    ensures r.Success? ==> r.value.id == id && r.value.queue == queue && r.value.state == state
  {
    var data :- ObjectField(codec, h, "data");
    var opts :- ObjectField(codec, h, "opts");
    var progress :- AnyField(codec, h, "progress");
    var timestamp :- IntField(h, "timestamp");
    var attemptsMade :- IntField(h, "attemptsMade");
    var stackTrace :- StringsField(codec, h, "stacktrace");
    var returnValue :- AnyField(codec, h, "returnvalue");
    var finishedOn :- IntField(h, "finishedOn");
    var processedOn :- IntField(h, "processedOn");
    Success(Job(
      id,
      if "name" in h then h["name"] else "",
      data, opts, progress, 0, timestamp, attemptsMade,
      if "failedReason" in h then h["failedReason"] else "",
      stackTrace, returnValue, finishedOn, processedOn,
      state,
      queue))
  }

  /** GetJob: reads `bull:<queue>:<id>` with HGETALL, fails with the read
      error, with JobNotFound on an empty hash, or with Malformed on a
      field that does not decode; otherwise returns the job with absent
      fields at their zero values and its state classified. */
  function GetJob(s: Snapshot, codec: Codec, queue: string, id: string): (r: Result<Job, Error>)
    ensures HGetAllOf(s, Key(queue, id)).Failure? ==> r == Failure(ReadFailed(HGetAllOf(s, Key(queue, id)).error))
    ensures HGetAllOf(s, Key(queue, id)) == Success(map[]) ==> r == Failure(JobNotFound(id))
    ensures r.Success? ==> r.value.id == id && r.value.queue == queue
                           && r.value.state == DetermineJobState(s, queue, id)
  {
    var h :- Lift(HGetAllOf(s, Key(queue, id)));
    if |h| == 0 then Failure(JobNotFound(id))
    else DecodeJob(codec, h, id, queue, DetermineJobState(s, queue, id))
  }

  /** A field the hash lacks, or one whose text decodes. */
  predicate FieldOk(codec: Codec, h: map<string, string>, field: string) {
    field in h ==> Decodes(codec, field, h[field])
  }

  /** Only the nine structured fields can be malformed. */
  lemma WellFormedFields(codec: Codec, h: map<string, string>)
    ensures WellFormed(codec, h) <==>
              && FieldOk(codec, h, "data") && FieldOk(codec, h, "opts") && FieldOk(codec, h, "progress")
              && FieldOk(codec, h, "timestamp") && FieldOk(codec, h, "attemptsMade") && FieldOk(codec, h, "stacktrace")
              && FieldOk(codec, h, "returnvalue") && FieldOk(codec, h, "finishedOn") && FieldOk(codec, h, "processedOn")
  {
  }

  /** The decoder succeeds exactly when every field decodes. */
  lemma DecodeJobSucceedsIff(codec: Codec, h: map<string, string>, id: string, queue: string, state: string)
    ensures DecodeJob(codec, h, id, queue, state).Success? <==> WellFormed(codec, h)
  {
    WellFormedFields(codec, h);
    IntFieldOk(codec, h, "timestamp");
    IntFieldOk(codec, h, "attemptsMade");
    IntFieldOk(codec, h, "finishedOn");
    IntFieldOk(codec, h, "processedOn");
  }

  lemma IntFieldOk(codec: Codec, h: map<string, string>, field: string)
    requires field == "timestamp" || field == "attemptsMade" || field == "finishedOn" || field == "processedOn"
    ensures IntField(h, field).Success? <==> FieldOk(codec, h, field)
  {
  }

  /** A stored job loads exactly when its hash is non-empty and every field
      decodes; one malformed field makes the whole load fail. */
  lemma GetJobSucceedsIff(s: Snapshot, codec: Codec, queue: string, id: string)
    requires HGetAllOf(s, Key(queue, id)).Success?
    ensures var h := HGetAllOf(s, Key(queue, id)).value;
            GetJob(s, codec, queue, id).Success? <==> |h| > 0 && WellFormed(codec, h)
  {
    var h := HGetAllOf(s, Key(queue, id)).value;
    DecodeJobSucceedsIff(codec, h, id, queue, DetermineJobState(s, queue, id));
  }

  /** Fields the hash lacks keep their zero values; the numeric fields that
      are present hold what Sscanf reads from them; name and failedReason
      are copied as stored. */
  lemma GetJobFields(s: Snapshot, codec: Codec, queue: string, id: string)
    requires GetJob(s, codec, queue, id).Success?
    ensures var h := HGetAllOf(s, Key(queue, id)).value;
            var job := GetJob(s, codec, queue, id).value;
            && job.name == (if "name" in h then h["name"] else "")
            && job.failedReason == (if "failedReason" in h then h["failedReason"] else "")
            && ("data" !in h ==> job.data == None)
            && ("data" in h ==> DecodeObject(codec, h["data"], "data") == Success(job.data))
            && ("opts" !in h ==> job.opts == None)
            && ("opts" in h ==> DecodeObject(codec, h["opts"], "opts") == Success(job.opts))
            && ("progress" !in h ==> job.progress == JNull)
            && ("progress" in h ==> DecodeAny(codec, h["progress"], "progress") == Success(job.progress))
            && ("stacktrace" !in h ==> job.stackTrace == [])
            && ("stacktrace" in h ==> DecodeStrings(codec, h["stacktrace"], "stacktrace") == Success(job.stackTrace))
            && ("returnvalue" !in h ==> job.returnValue == JNull)
            && ("returnvalue" in h ==> DecodeAny(codec, h["returnvalue"], "returnvalue") == Success(job.returnValue))
            && job.timestamp == (if "timestamp" in h then Numeric.ScanInt(h["timestamp"]).value else 0)
            && job.attemptsMade == (if "attemptsMade" in h then Numeric.ScanInt(h["attemptsMade"]).value else 0)
            && job.finishedOn == (if "finishedOn" in h then Numeric.ScanInt(h["finishedOn"]).value else 0)
            && job.processedOn == (if "processedOn" in h then Numeric.ScanInt(h["processedOn"]).value else 0)
            && job.delay == 0
  {
  }

  // =====================================================================
  // Listing jobs by state

  /** The collection GetJobsByState reads for a state name. */
  function StateCollection(state: string): (c: Option<Collection>)
    ensures c.Some? <==> state in ListingStates
  {
    if state == "waiting" then Some(WaitC)
    else if state == "active" then Some(ActiveC)
    else if state == "paused" then Some(PausedC)
    else if state == "prioritized" then Some(PrioritizedC)
    else if state == "waiting-children" then Some(WaitingChildrenC)
    else if state == "failed" then Some(FailedC)
    else if state == "completed" then Some(CompletedC)
    else if state == "delayed" then Some(DelayedC)
    else if state == "stalled" then Some(StalledC)
    else None
  }

  /** Whole seconds in `ms` milliseconds, with Go's integer division,
      which truncates toward zero. */
  function UnixSeconds(ms: int): (sec: int)
    ensures ms >= 0 ==> 0 <= 1000 * sec <= ms < 1000 * sec + 1000
    ensures ms < 0 ==> 1000 * sec - 1000 < ms <= 1000 * sec <= 0
  {
    if ms >= 0 then ms / 1000 else -((-ms) / 1000)
  }

  /** json.Marshal of a decoded map, or "" when the map is nil. */
  function Marshal(codec: Codec, m: Option<map<string, Json>>): string {
    match m
    case Some(members) => codec.encode(JObject(members))
    case None => ""
  }

  /** The summary row of one listed ID, or None when its job does not
      load; the row's state is the classifier's unless that is "unknown". */
  function SummaryOf(s: Snapshot, codec: Codec, queue: string, state: string, id: string): (r: Option<JobSummary>)
    ensures r.Some? <==> GetJob(s, codec, queue, id).Success?
    ensures r.Some? ==> && r.value.id == id && r.value.queue == queue
                        && r.value.state == (if DetermineJobState(s, queue, id) == "unknown" then state
                                             else DetermineJobState(s, queue, id))
    ensures r.Some? ==> var job := GetJob(s, codec, queue, id).value;
                        && r.value.name == job.name
                        && r.value.timestamp == UnixSeconds(job.timestamp)
                        && r.value.attemptsMade == job.attemptsMade
                        && r.value.data == Marshal(codec, job.data)
                        && r.value.opts == Marshal(codec, job.opts)
                        && r.value.failedReason == job.failedReason
  {
    match GetJob(s, codec, queue, id)
    case Failure(_) => None
    case Success(job) =>
      DetermineJobStateNeverEmpty(s, queue, id);
      Some(JobSummary(job.id, job.name,
                      if job.state != "" && job.state != "unknown" then job.state else state,
                      queue, UnixSeconds(job.timestamp), job.attemptsMade,
                      Marshal(codec, job.data), Marshal(codec, job.opts), job.failedReason))
  }

  /** The values `f` gives for `xs`, in order, skipping the Nones. */
  function FilterMap<A, B>(xs: seq<A>, f: A -> Option<B>): seq<B> {
    if xs == [] then []
    else
      var init := FilterMap(xs[..|xs| - 1], f);
      match f(xs[|xs| - 1])
      case None => init
      case Some(y) => init + [y]
  }

  /** FilterMap keeps order and drops exactly the Nones: `idx` lists, in
      increasing order, the positions whose value is kept. */
  lemma {:induction false} FilterMapSpec<A, B>(xs: seq<A>, f: A -> Option<B>) returns (idx: seq<nat>)
    ensures var out := FilterMap(xs, f);
            && |idx| == |out| <= |xs|
            && (forall k :: 0 <= k < |idx| ==> idx[k] < |xs| && f(xs[idx[k]]) == Some(out[k]))
            && (forall k, l :: 0 <= k < l < |idx| ==> idx[k] < idx[l])
            && (forall j :: 0 <= j < |xs| && j !in idx ==> f(xs[j]) == None)
  {
    if xs == [] {
      idx := [];
    } else {
      var n := |xs| - 1;
      var init := xs[..n];
      idx := FilterMapSpec(init, f);
      assert forall j :: 0 <= j < n ==> init[j] == xs[j];
      if f(xs[n]).Some? {
        idx := idx + [n];
      }
    }
  }

  /** The summary rows for `ids`: jobs that fail to load are skipped. */
  function Summaries(s: Snapshot, codec: Codec, queue: string, state: string, ids: seq<string>): seq<JobSummary> {
    FilterMap(ids, id => SummaryOf(s, codec, queue, state, id))
  }

  /** What GetJobsByState returns. */
  function JobsByState(s: Snapshot, codec: Codec, queue: string, state: string, limit: int): Result<seq<JobSummary>, Error> {
    match StateCollection(state)
    case None => Failure(UnknownState(state))
    case Some(c) =>
      match RangeOf(s, queue, c, 0, limit - 1)
      case Failure(e) => Failure(ReadFailed(e))
      case Success(ids) => Success(Summaries(s, codec, queue, state, ids))
  }

  /** GetJobsByState: reads indices 0..limit-1 of the state's collection and
      summarises every job that loads, in collection order. */
  method GetJobsByState(s: Snapshot, codec: Codec, queue: string, state: string, limit: int)
    returns (r: Result<seq<JobSummary>, Error>)
    ensures r == JobsByState(s, codec, queue, state, limit)
  {
    var ids: seq<string>;
    match StateCollection(state) {
      case None =>
        return Failure(UnknownState(state));
      case Some(c) =>
        var reply := RangeOf(s, queue, c, 0, limit - 1);
        if reply.Failure? {
          return Failure(ReadFailed(reply.error));
        }
        ids := reply.value;
    }
    var summaries := SummarizeAll(s, codec, queue, state, ids);
    return Success(summaries);
  }

  /** The loop of GetJobsByState over the IDs read: one row per job that
      loads, in order; a job that does not load is skipped. */
  method SummarizeAll(s: Snapshot, codec: Codec, queue: string, state: string, ids: seq<string>)
    returns (summaries: seq<JobSummary>)
    ensures summaries == Summaries(s, codec, queue, state, ids)
  {
    summaries := [];
    for i := 0 to |ids|
      invariant summaries == Summaries(s, codec, queue, state, ids[..i])
    {
      assert ids[..i + 1][..i] == ids[..i];
      var row := Summarize(s, codec, queue, state, ids[i]);
      if row.None? {
        continue;
      }
      summaries := summaries + [row.value];
    }
    assert ids[..|ids|] == ids;
  }

  /** The body of GetJobsByState's loop for one ID: None stands for the
      `continue` taken when the job does not load. */
  method Summarize(s: Snapshot, codec: Codec, queue: string, state: string, id: string)
    returns (row: Option<JobSummary>)
    ensures row == SummaryOf(s, codec, queue, state, id)
  {
    var job := GetJob(s, codec, queue, id);
    if job.Failure? {
      return None;
    }
    var summaryState := state;
    if job.value.state != "" && job.value.state != "unknown" {
      summaryState := job.value.state;
    }
    var dataStr := "";
    if job.value.data.Some? {
      dataStr := codec.encode(JObject(job.value.data.value));
    }
    var optsStr := "";
    if job.value.opts.Some? {
      optsStr := codec.encode(JObject(job.value.opts.value));
    }
    row := Some(JobSummary(job.value.id, job.value.name, summaryState, queue,
                           UnixSeconds(job.value.timestamp), job.value.attemptsMade,
                           dataStr, optsStr, job.value.failedReason));
  }

  /** The summaries are the loadable IDs' rows, in the IDs' order: `idx`
      picks, in increasing order, exactly the positions whose job loads,
      and every other position's job fails to load. */
  lemma SummariesSpec(s: Snapshot, codec: Codec, queue: string, state: string, ids: seq<string>)
    returns (idx: seq<nat>)
    ensures var out := Summaries(s, codec, queue, state, ids);
            && |idx| == |out| <= |ids|
            && (forall k :: 0 <= k < |idx| ==> idx[k] < |ids| && SummaryOf(s, codec, queue, state, ids[idx[k]]) == Some(out[k]))
            && (forall k, l :: 0 <= k < l < |idx| ==> idx[k] < idx[l])
            && (forall j :: 0 <= j < |ids| && j !in idx ==> GetJob(s, codec, queue, ids[j]).Failure?)
  {
    idx := FilterMapSpec(ids, id => SummaryOf(s, codec, queue, state, id));
  }

  lemma DetermineJobStateNeverEmpty(s: Snapshot, queue: string, id: string)
    ensures DetermineJobState(s, queue, id) != ""
  {
    if DetermineJobState(s, queue, id) != "unknown" {
      FirstHitFound(s, queue, id, Precedence);
    }
  }

  /** An unknown state name is an error; a known one reads the first
      `limit` IDs (the whole collection when limit is 0). */
  lemma JobsByStateReads(s: Snapshot, codec: Codec, queue: string, state: string, limit: int)
    ensures StateCollection(state).None? <==> JobsByState(s, codec, queue, state, limit) == Failure(UnknownState(state))
    ensures StateCollection(state).Some? && RangeOf(s, queue, StateCollection(state).value, 0, limit - 1).Success? ==>
              var c := StateCollection(state).value;
              var all := if c.kind == ListKind then List(s, Key(queue, c.suffix)) else ZSet(s, Key(queue, c.suffix));
              JobsByState(s, codec, queue, state, limit)
                == Success(Summaries(s, codec, queue, state,
                                     if limit == 0 then all else all[..if 0 < limit < |all| then limit else |all|]))
    requires limit >= 0
  {
    if StateCollection(state).Some? {
      FirstIDs(s, queue, StateCollection(state).value, limit);
    }
  }

  /** A successful range read from 0 to limit-1 gives the first `limit`
      IDs, or all of them when the limit is 0. */
  lemma FirstIDs(s: Snapshot, queue: string, c: Collection, limit: int)
    requires limit >= 0
    ensures RangeOf(s, queue, c, 0, limit - 1).Success? ==>
              var all := if c.kind == ListKind then List(s, Key(queue, c.suffix)) else ZSet(s, Key(queue, c.suffix));
              RangeOf(s, queue, c, 0, limit - 1).value
                == if limit == 0 then all else all[..if 0 < limit < |all| then limit else |all|]
  {
    var all := if c.kind == ListKind then List(s, Key(queue, c.suffix)) else ZSet(s, Key(queue, c.suffix));
    FirstLimit(all, limit);
    assert all[..|all|] == all;
  }

  // =====================================================================
  // Listing across states

  /** The states GetJobsAcrossStates visits, in order. */
  const ListingStates: seq<string> := [
    "waiting", "active", "paused", "prioritized", "waiting-children",
    "failed", "completed", "delayed", "stalled"]

  /** The per-state listings of `states`, concatenated in order; the first
      state whose listing fails makes the whole result that failure. */
  function Listings(s: Snapshot, codec: Codec, queue: string, states: seq<string>, limit: int): Result<seq<JobSummary>, Error> {
    if states == [] then Success([])
    else
      match Listings(s, codec, queue, states[..|states| - 1], limit)
      case Failure(e) => Failure(e)
      case Success(init) =>
        match JobsByState(s, codec, queue, states[|states| - 1], limit)
        case Failure(e) => Failure(e)
        case Success(jobs) => Success(init + jobs)
  }

  function IdSet(xs: seq<JobSummary>): set<string> {
    set x | x in xs :: x.id
  }

  /** Keeps the first summary of each ID, in order. */
  function Dedupe(xs: seq<JobSummary>): seq<JobSummary> {
    if xs == [] then []
    else
      var init := Dedupe(xs[..|xs| - 1]);
      if xs[|xs| - 1].id in IdSet(init) then init else init + [xs[|xs| - 1]]
  }

  /** The first summary in `xs` with the given ID. */
  function FirstWithId(xs: seq<JobSummary>, id: string): (x: JobSummary)
    requires id in IdSet(xs)
    ensures x in xs && x.id == id
  {
    if xs[0].id == id then xs[0]
    else
      assert id in IdSet(xs[1..]) by {
        var y :| y in xs && y.id == id;
        assert y in xs[1..] by { assert y != xs[0]; }
      }
      FirstWithId(xs[1..], id)
  }

  /** What GetJobsAcrossStates returns. */
  function JobsAcrossStates(s: Snapshot, codec: Codec, queue: string, limit: int): Result<seq<JobSummary>, Error> {
    MergedListings(s, codec, queue, ListingStates, limit)
  }

  lemma {:induction false} ListingsFailureSticks(s: Snapshot, codec: Codec, queue: string, states: seq<string>, k: nat, limit: int)
    requires k <= |states|
    requires Listings(s, codec, queue, states[..k], limit).Failure?
    ensures Listings(s, codec, queue, states, limit) == Listings(s, codec, queue, states[..k], limit)
    decreases |states| - k
  {
    if k < |states| {
      assert states[..|states| - 1][..k] == states[..k];
      ListingsFailureSticks(s, codec, queue, states[..|states| - 1], k, limit);
    } else {
      assert states[..k] == states;
    }
  }

  lemma IdSetAppend(xs: seq<JobSummary>, x: JobSummary)
    ensures IdSet(xs + [x]) == IdSet(xs) + {x.id}
  {
    assert forall y :: y in xs + [x] <==> y in xs || y == x;
  }

  lemma DedupeSnoc(xs: seq<JobSummary>, x: JobSummary)
    ensures Dedupe(xs + [x]) == if x.id in IdSet(Dedupe(xs)) then Dedupe(xs) else Dedupe(xs) + [x]
  {
    assert (xs + [x])[..|xs|] == xs;
  }

  /** Appends, in order, each job whose ID has not been seen, marking it seen. */
  method AppendUnseen(summaries: seq<JobSummary>, seen: set<string>, ghost all: seq<JobSummary>, jobs: seq<JobSummary>)
    returns (summaries': seq<JobSummary>, seen': set<string>)
    requires summaries == Dedupe(all) && seen == IdSet(summaries)
    ensures summaries' == Dedupe(all + jobs) && seen' == IdSet(summaries')
  {
    summaries', seen' := summaries, seen;
    assert all + jobs[..0] == all;
    for j := 0 to |jobs|
      invariant summaries' == Dedupe(all + jobs[..j])
      invariant seen' == IdSet(summaries')
    {
      var job := jobs[j];
      assert all + jobs[..j + 1] == (all + jobs[..j]) + [job];
      DedupeSnoc(all + jobs[..j], job);
      if job.id in seen' {
        continue;
      }
      IdSetAppend(summaries', job);
      seen' := seen' + {job.id};
      summaries' := summaries' + [job];
    }
    assert jobs[..|jobs|] == jobs;
  }

  /** The merged listing of `states`: every state's listing in order with
      only the first summary of each ID kept, or the first failure. */
  function MergedListings(s: Snapshot, codec: Codec, queue: string, states: seq<string>, limit: int): Result<seq<JobSummary>, Error> {
    match Listings(s, codec, queue, states, limit)
    case Failure(e) => Failure(e)
    case Success(all) => Success(Dedupe(all))
  }

  /** GetJobsAcrossStates: visits the nine states in order, keeps only the
      first summary of each ID, and fails as soon as one state fails. */
  method GetJobsAcrossStates(s: Snapshot, codec: Codec, queue: string, limitPerState: int)
    returns (r: Result<seq<JobSummary>, Error>)
    ensures r == JobsAcrossStates(s, codec, queue, limitPerState)
  {
    r := VisitStates(s, codec, queue, ListingStates, limitPerState);
  }

  /** The loop of GetJobsAcrossStates over the states it visits. */
  method VisitStates(s: Snapshot, codec: Codec, queue: string, states: seq<string>, limitPerState: int)
    returns (r: Result<seq<JobSummary>, Error>)
    ensures r == MergedListings(s, codec, queue, states, limitPerState)
  {
    var seen: set<string> := {};
    var summaries: seq<JobSummary> := [];
    ghost var all: seq<JobSummary> := [];
    for i := 0 to |states|
      invariant Listings(s, codec, queue, states[..i], limitPerState) == Success(all)
      invariant summaries == Dedupe(all)
      invariant seen == IdSet(summaries)
    {
      assert states[..i + 1][..i] == states[..i];
      var jobs := GetJobsByState(s, codec, queue, states[i], limitPerState);
      if jobs.Failure? {
        ListingsFailureSticks(s, codec, queue, states, i + 1, limitPerState);
        return Failure(jobs.error);
      }
      summaries, seen := AppendUnseen(summaries, seen, all, jobs.value);
      all := all + jobs.value;
    }
    assert states[..|states|] == states;
    return Success(summaries);
  }

  /** The merged listing has no two summaries with the same ID. */
  predicate DistinctIds(xs: seq<JobSummary>) {
    forall a, b :: 0 <= a < b < |xs| ==> xs[a].id != xs[b].id
  }

  lemma {:induction false} DedupeDistinct(xs: seq<JobSummary>)
    ensures DistinctIds(Dedupe(xs))
  {
    if xs != [] {
      var init := Dedupe(xs[..|xs| - 1]);
      DedupeDistinct(xs[..|xs| - 1]);
      var x := xs[|xs| - 1];
      if x.id !in IdSet(init) {
        var out := init + [x];
        forall a, b | 0 <= a < b < |out| ensures out[a].id != out[b].id {
          assert out[a] == init[a];
          if b < |init| {
            assert out[b] == init[b];
            assert init[a].id != init[b].id;
          } else {
            assert out[b] == x;
            assert init[a] in init;
            assert init[a].id in IdSet(init);
          }
        }
      }
    }
  }

  /** No ID is lost: the merged listing holds exactly the IDs of its input. */
  lemma {:induction false} DedupeIds(xs: seq<JobSummary>)
    ensures IdSet(Dedupe(xs)) == IdSet(xs)
  {
    if xs != [] {
      var init := xs[..|xs| - 1];
      DedupeIds(init);
      assert xs == init + [xs[|xs| - 1]];
      IdSetAppend(init, xs[|xs| - 1]);
      IdSetAppend(Dedupe(init), xs[|xs| - 1]);
    }
  }

  lemma {:induction false} FirstWithIdAppend(xs: seq<JobSummary>, x: JobSummary, id: string)
    requires id in IdSet(xs)
    ensures id in IdSet(xs + [x]) && FirstWithId(xs + [x], id) == FirstWithId(xs, id)
  {
    IdSetAppend(xs, x);
    if xs[0].id != id {
      assert (xs + [x])[1..] == xs[1..] + [x];
      FirstWithIdAppend(xs[1..], x, id);
    }
  }

  lemma {:induction false} FirstWithIdNew(xs: seq<JobSummary>, x: JobSummary)
    requires x.id !in IdSet(xs)
    ensures x.id in IdSet(xs + [x]) && FirstWithId(xs + [x], x.id) == x
  {
    IdSetAppend(xs, x);
    if xs != [] {
      assert xs[0] in xs;
      assert (xs + [x])[1..] == xs[1..] + [x];
      assert IdSet(xs[1..]) <= IdSet(xs);
      FirstWithIdNew(xs[1..], x);
    }
  }

  /** Each kept summary is the first one with its ID: the earliest state
      in the visiting order that lists a job owns its summary. */
  lemma {:induction false} DedupeKeepsFirst(xs: seq<JobSummary>)
    ensures var out := Dedupe(xs);
            forall k :: 0 <= k < |out| ==> out[k].id in IdSet(xs) && out[k] == FirstWithId(xs, out[k].id)
  {
    if xs != [] {
      var init := xs[..|xs| - 1];
      var x := xs[|xs| - 1];
      DedupeKeepsFirst(init);
      DedupeIds(init);
      assert xs == init + [x];
      var out := Dedupe(xs);
      forall k | 0 <= k < |out|
        ensures out[k].id in IdSet(xs) && out[k] == FirstWithId(xs, out[k].id)
      {
        if k < |Dedupe(init)| {
          assert out[k] == Dedupe(init)[k];
          FirstWithIdAppend(init, x, out[k].id);
        } else {
          assert out[k] == x;
          FirstWithIdNew(init, x);
        }
      }
    }
  }
}
