/** An immutable snapshot of the Redis keyspace the explorer reads, and the
    read commands it issues, each returning a Result. Whether a read fails
    depends only on its command and key, so repeating a read repeats its
    outcome. A key that is absent reads as Redis answers for a missing key:
    an empty list, sorted set or hash, and type "none". */
module Store {
  import opened Wrappers

  /** The read commands, used to say which read of which key fails. */
  datatype Op = Scan | LLen | LRange | LPos | ZCard | ZRange | ZScore | Type | HExists | HGetAll

  /** Why a read returned no value: Redis answered nil (the member or field
      is absent), or the command failed (connection, wrong type, timeout). */
  datatype ReadError = Nil | Failed(op: Op, key: string)

  /** One reply of a cursor scan: a batch of keys, or a failed SCAN call. */
  datatype Batch = Batch(keys: seq<string>) | ScanFailure

  datatype Snapshot = Snapshot(
    lists: map<string, seq<string>>,            // list keys, head first
    zsets: map<string, seq<string>>,            // sorted-set keys, members in score order
    hashes: map<string, map<string, string>>,   // hash keys, field -> value
    types: map<string, string>,                 // TYPE of each existing key
    scans: map<string, seq<Batch>>,             // the replies a SCAN with this pattern yields, in order
    failing: set<(Op, string)>)                 // the (command, key) reads that fail, every time

  function List(s: Snapshot, key: string): seq<string> {
    if key in s.lists then s.lists[key] else []
  }

  function ZSet(s: Snapshot, key: string): seq<string> {
    if key in s.zsets then s.zsets[key] else []
  }

  function Hash(s: Snapshot, key: string): map<string, string> {
    if key in s.hashes then s.hashes[key] else map[]
  }

  predicate Fails(s: Snapshot, op: Op, key: string) {
    (op, key) in s.failing
  }

  /** The part of `xs` that LRANGE / ZRANGE with inclusive bounds `start`
      and `stop` return: a negative bound counts from the end, a start
      before the head is clamped to 0, a stop past the end to the last
      index, and an empty range gives the empty sequence. */
  function Range(xs: seq<string>, start: int, stop: int): (r: seq<string>)
    ensures |r| <= |xs|
  {
    var n := |xs|;
    var a := if start < 0 then n + start else start;
    var b := if stop < 0 then n + stop else stop;
    var a' := if a < 0 then 0 else a;
    if a' > b || a' >= n then []
    else
      var b' := if b >= n then n - 1 else b;
      xs[a'..b' + 1]
  }

  function LLenOf(s: Snapshot, key: string): Result<nat, ReadError> {
    if Fails(s, LLen, key) then Failure(Failed(LLen, key)) else Success(|List(s, key)|)
  }

  function LRangeOf(s: Snapshot, key: string, start: int, stop: int): Result<seq<string>, ReadError> {
    if Fails(s, LRange, key) then Failure(Failed(LRange, key)) else Success(Range(List(s, key), start, stop))
  }

  /** The index of the first occurrence of `member`, or Nil when absent. */
  function LPosOf(s: Snapshot, key: string, member: string): (r: Result<nat, ReadError>)
    ensures r.Success? ==> r.value < |List(s, key)| && List(s, key)[r.value] == member
    ensures r.Failure? && !Fails(s, LPos, key) ==> member !in List(s, key)
  {
    if Fails(s, LPos, key) then Failure(Failed(LPos, key))
    else FirstIndex(List(s, key), member, 0)
  }

  function FirstIndex(xs: seq<string>, x: string, from: nat): (r: Result<nat, ReadError>)
    requires from <= |xs|
    ensures r.Success? ==> from <= r.value < |xs| && xs[r.value] == x
    ensures r.Failure? ==> r == Failure(Nil) && x !in xs[from..]
    decreases |xs| - from
  {
    if from == |xs| then Failure(Nil)
    else if xs[from] == x then Success(from)
    else FirstIndex(xs, x, from + 1)
  }

  function ZCardOf(s: Snapshot, key: string): Result<nat, ReadError> {
    if Fails(s, ZCard, key) then Failure(Failed(ZCard, key)) else Success(|ZSet(s, key)|)
  }

  function ZRangeOf(s: Snapshot, key: string, start: int, stop: int): Result<seq<string>, ReadError> {
    if Fails(s, ZRange, key) then Failure(Failed(ZRange, key)) else Success(Range(ZSet(s, key), start, stop))
  }

  /** ZSCORE succeeds exactly when the member is in the set; scores are not
      part of the snapshot, so the member's rank stands for its score. */
  function ZScoreOf(s: Snapshot, key: string, member: string): (r: Result<nat, ReadError>)
    ensures r.Success? <==> !Fails(s, ZScore, key) && member in ZSet(s, key)
  {
    if Fails(s, ZScore, key) then Failure(Failed(ZScore, key))
    else FirstIndex(ZSet(s, key), member, 0)
  }

  function TypeOf(s: Snapshot, key: string): Result<string, ReadError> {
    if Fails(s, Type, key) then Failure(Failed(Type, key))
    else Success(if key in s.types then s.types[key] else "none")
  }

  function HExistsOf(s: Snapshot, key: string, field: string): Result<bool, ReadError> {
    if Fails(s, HExists, key) then Failure(Failed(HExists, key)) else Success(field in Hash(s, key))
  }

  function HGetAllOf(s: Snapshot, key: string): Result<map<string, string>, ReadError> {
    if Fails(s, HGetAll, key) then Failure(Failed(HGetAll, key)) else Success(Hash(s, key))
  }

  /** The replies a scan with `pattern` produces; a pattern the snapshot
      does not list matches nothing and is answered by one empty batch. */
  function Batches(s: Snapshot, pattern: string): (bs: seq<Batch>)
    ensures |bs| >= 1
  {
    if pattern in s.scans && |s.scans[pattern]| > 0 then s.scans[pattern] else [Batch([])]
  }

  /** SCAN cursor pattern: the cursor is the position of the next reply;
      the reply to the last batch carries cursor 0, which ends the scan. */
  function ScanOf(s: Snapshot, pattern: string, cursor: nat): (r: Result<(seq<string>, nat), ReadError>)
    ensures r.Success? ==> r.value.1 == 0 || cursor < r.value.1 < |Batches(s, pattern)|
  {
    var bs := Batches(s, pattern);
    if cursor >= |bs| then Success(([], 0))
    else match bs[cursor]
      case ScanFailure => Failure(Failed(Scan, pattern))
      case Batch(keys) => Success((keys, if cursor + 1 < |bs| then cursor + 1 else 0))
  }

  /** A scan's outcome with `keys` put in front of its keys. */
  function Prepend(keys: seq<string>, r: Result<seq<string>, ReadError>): Result<seq<string>, ReadError> {
    match r
    case Success(rest) => Success(keys + rest)
    case Failure(e) => Failure(e)
  }

  lemma PrependEmpty(r: Result<seq<string>, ReadError>)
    ensures Prepend([], r) == r
  {
    if r.Success? {
      assert [] + r.value == r.value;
    }
  }

  lemma PrependPrepend(a: seq<string>, b: seq<string>, r: Result<seq<string>, ReadError>)
    ensures Prepend(a, Prepend(b, r)) == Prepend(a + b, r)
  {
    if r.Success? {
      assert a + (b + r.value) == (a + b) + r.value;
    }
  }

  /** Every key the replies from position `from` on return, in order, or the
      failure of the first of them that fails. */
  function ScanFrom(bs: seq<Batch>, from: nat, pattern: string): Result<seq<string>, ReadError>
    decreases |bs| - from
  {
    if from >= |bs| then Success([])
    else match bs[from]
      case ScanFailure => Failure(Failed(Scan, pattern))
      case Batch(keys) => Prepend(keys, ScanFrom(bs, from + 1, pattern))
  }

  /** Every key a full scan returns, or the failure of the first failed reply. */
  function ScanAll(bs: seq<Batch>, pattern: string): Result<seq<string>, ReadError> {
    ScanFrom(bs, 0, pattern)
  }

  /** The keys of the replies from position `from` up to the first failed
      reply (all of them when no reply fails). */
  function KeysBeforeFailure(bs: seq<Batch>, from: nat): seq<string>
    decreases |bs| - from
  {
    if from >= |bs| then []
    else match bs[from]
      case ScanFailure => []
      case Batch(keys) => keys + KeysBeforeFailure(bs, from + 1)
  }

  /** One SCAN reply against the keys a scan gathers before its first
      failed reply: a failed reply gathers nothing more, a successful one
      gathers its keys and then whatever the next reply starts, and a
      returned cursor of 0 means no replies are left. */
  lemma ScanStep(s: Snapshot, pattern: string, cursor: nat)
    requires cursor < |Batches(s, pattern)|
    ensures var bs, r := Batches(s, pattern), ScanOf(s, pattern, cursor);
            && (r.Failure? ==> KeysBeforeFailure(bs, cursor) == [])
            && (r.Success? ==> KeysBeforeFailure(bs, cursor) == r.value.0 + KeysBeforeFailure(bs, cursor + 1))
            && (r.Success? && r.value.1 == 0 ==> KeysBeforeFailure(bs, cursor + 1) == [])
            && (r.Success? && r.value.1 != 0 ==> r.value.1 == cursor + 1)
  {
  }

  /** A scan fails exactly when some reply fails, and reports the pattern. */
  lemma {:induction false} ScanFromFails(bs: seq<Batch>, from: nat, pattern: string)
    ensures ScanFrom(bs, from, pattern).Failure? <==> exists k :: from <= k < |bs| && bs[k].ScanFailure?
    ensures ScanFrom(bs, from, pattern).Failure? ==> ScanFrom(bs, from, pattern).error == Failed(Scan, pattern)
    decreases |bs| - from
  {
    if from < |bs| {
      ScanFromFails(bs, from + 1, pattern);
    }
  }

  /** When no reply fails, the keys before the failure are all the keys. */
  lemma {:induction false} ScanAllKeys(bs: seq<Batch>, from: nat, pattern: string)
    requires ScanFrom(bs, from, pattern).Success?
    ensures ScanFrom(bs, from, pattern).value == KeysBeforeFailure(bs, from)
    decreases |bs| - from
  {
    if from < |bs| && bs[from].Batch? {
      ScanAllKeys(bs, from + 1, pattern);
    }
  }

  /** LRANGE key 0 (limit-1): the first `limit` elements when `limit` is
      positive; when it is zero or negative, stop is negative and counts
      from the end, so 0 gives the whole sequence and -k drops the last k. */
  lemma FirstLimit(xs: seq<string>, limit: int)
    ensures limit >= 1 ==> Range(xs, 0, limit - 1) == xs[..if limit < |xs| then limit else |xs|]
    ensures limit <= 0 ==> Range(xs, 0, limit - 1) == xs[..if |xs| + limit > 0 then |xs| + limit else 0]
    ensures Range(xs, 0, -1) == xs
  {
  }
}
