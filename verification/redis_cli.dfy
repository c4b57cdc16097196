/** The interactive Redis client: its command loop reads one line at a time,
    skips blank lines, takes the first field upper-cased as the command,
    checks the number of fields, and dispatches to a Redis call, a usage
    message, the help text, an "unknown command" message or the end of the
    session. The Redis calls and everything printed are not modelled: a line
    is modelled by the Command it dispatches to. */
module RedisCli {
  import opened Wrappers
  import Text
  import Numeric

  /** What one non-blank line dispatches to. */
  datatype Command =
    | Help
    | Keys(pattern: string)
    | Get(key: string)
    | HGetAll(key: string)
    | LLen(key: string)
    | LRange(key: string, start: int, stop: int)
    | SCard(key: string)
    | SMembers(key: string)
    | Type(key: string)
    | DbSize
    | FlushDb
    | Ping
    | QueueStats(queue: string)
    | Quit
    | Usage(name: string)      // too few fields: the usage line of `name` is printed
    | Unknown(name: string)    // no such command: `name` is echoed back

  /** The commands that take one argument. */
  const OneArgument: set<string> := {"KEYS", "GET", "HGETALL", "LLEN", "SCARD", "SMEMBERS", "TYPE", "QUEUE-STATS"}

  /** Every command name the loop recognises. */
  const Known: set<string> := OneArgument + {"LRANGE", "HELP", "DBSIZE", "FLUSHDB", "PING", "QUIT", "EXIT"}

  /** The commands that call Redis. */
  predicate CallsStore(c: Command) {
    !(c.Help? || c.Quit? || c.Usage? || c.Unknown?)
  }

  /** parseInt: the integer fmt.Sscanf "%d" reads from the start of the
      text, or 0 when it reads none. */
  function ParseInt(s: string): int {
    Numeric.ScanInt(s).GetOr(0)
  }

  /** The switch on the upper-cased first field of a line split into
      `parts`; the usage check comes before the argument is used. */
  function Interpret(parts: seq<string>): Command
    requires |parts| >= 1
  {
    var name := Text.ToUpper(parts[0]);
    match name
    case "HELP" => Help
    case "KEYS" => if |parts| < 2 then Usage(name) else Keys(parts[1])
    case "GET" => if |parts| < 2 then Usage(name) else Get(parts[1])
    case "HGETALL" => if |parts| < 2 then Usage(name) else HGetAll(parts[1])
    case "LLEN" => if |parts| < 2 then Usage(name) else LLen(parts[1])
    case "LRANGE" => if |parts| < 4 then Usage(name) else LRange(parts[1], ParseInt(parts[2]), ParseInt(parts[3]))
    case "SCARD" => if |parts| < 2 then Usage(name) else SCard(parts[1])
    case "SMEMBERS" => if |parts| < 2 then Usage(name) else SMembers(parts[1])
    case "TYPE" => if |parts| < 2 then Usage(name) else Type(parts[1])
    case "DBSIZE" => DbSize
    case "FLUSHDB" => FlushDb
    case "PING" => Ping
    case "QUEUE-STATS" => if |parts| < 2 then Usage(name) else QueueStats(parts[1])
    case "QUIT" => Quit
    case "EXIT" => Quit
    case _ => Unknown(name)
  }

  /** One input line: None when it is blank and skipped, else the command
      its whitespace-separated fields dispatch to. */
  function Classify(line: string): Option<Command> {
    var input := Text.TrimSpace(line);
    if input == "" then None
    else
      Text.FieldsOfTrimmed(input);
      Some(Interpret(Text.Fields(input)))
  }

  /** What each line of `lines` classifies as, in order. */
  function Actions(lines: seq<string>): seq<Option<Command>> {
    Map(lines, Classify)
  }

  function Map<A, B>(xs: seq<A>, f: A -> B): (r: seq<B>)
    ensures |r| == |xs| && forall i :: 0 <= i < |xs| ==> r[i] == f(xs[i])
  {
    seq(|xs|, i requires 0 <= i < |xs| => f(xs[i]))
  }

  lemma MapAppend<A, B>(a: seq<A>, b: seq<A>, f: A -> B)
    ensures Map(a + b, f) == Map(a, f) + Map(b, f)
  {
  }

  /** The commands dispatched for a run of classified lines: skipped lines
      dispatch nothing and the first Quit ends the run. */
  function Dispatched(actions: seq<Option<Command>>): seq<Command> {
    if actions == [] then []
    else match actions[0]
      case None => Dispatched(actions[1..])
      case Some(c) => if c.Quit? then [c] else [c] + Dispatched(actions[1..])
  }

  /** The commands a session over `lines` dispatches, in order. */
  function Session(lines: seq<string>): seq<Command> {
    Dispatched(Actions(lines))
  }

  /** The loop of main over the lines of standard input. */
  method Repl(lines: seq<string>) returns (dispatched: seq<Command>)
    ensures dispatched == Session(lines)
  {
    ghost var actions := Actions(lines);
    dispatched := [];
    var i := 0;
    while i < |lines|
      invariant 0 <= i <= |lines|
      invariant dispatched + Dispatched(actions[i..]) == Session(lines)
    {
      var action := Classify(lines[i]);
      assert actions[i..][1..] == actions[i + 1..];
      assert actions[i..][0] == action;
      i := i + 1;
      if action.None? {
        continue;
      }
      dispatched := dispatched + [action.value];
      if action.value.Quit? {
        return;
      }
    }
  }

  // ---------------------------------------------------------------------
  // Line classification

  /** A line is skipped exactly when it is blank or all white space. */
  lemma BlankLinesSkipped(line: string)
    ensures Classify(line).None? <==> forall i :: 0 <= i < |line| ==> Text.IsSpace(line[i])
  {
    Text.TrimSpaceEmpty(line);
  }

  /** The command name is case-insensitive: replacing the first field by
      its lower-case or upper-case spelling dispatches to the same command. */
  lemma CommandCaseInsensitive(parts: seq<string>)
    requires |parts| >= 1
    ensures Interpret([Text.ToLower(parts[0])] + parts[1..]) == Interpret(parts)
    ensures Interpret([Text.ToUpper(parts[0])] + parts[1..]) == Interpret(parts)
  {
    Text.UpperOfLower(parts[0]);
    Text.ToUpperIdempotent(parts[0]);
  }

  /** The usage message is shown exactly when a one-argument command has no
      argument or LRANGE has fewer than three, and names the command. */
  lemma UsageIff(parts: seq<string>)
    requires |parts| >= 1
    ensures var name := Text.ToUpper(parts[0]);
            Interpret(parts).Usage? <==> (name in OneArgument && |parts| < 2) || (name == "LRANGE" && |parts| < 4)
    ensures Interpret(parts).Usage? ==> Interpret(parts).name == Text.ToUpper(parts[0])
  {
  }

  /** Redis is called only with the fields the command needs, and the key,
      pattern or queue it is called with is the second field. */
  lemma StoreCallsHaveArguments(parts: seq<string>)
    requires |parts| >= 1 && CallsStore(Interpret(parts))
    ensures var c := Interpret(parts);
            (c.LRange? ==> |parts| >= 4 && c.key == parts[1]
                             && c.start == ParseInt(parts[2]) && c.stop == ParseInt(parts[3]))
            && (c.Keys? ==> c.pattern == parts[1])
            && (c.QueueStats? ==> c.queue == parts[1])
            && (c.Get? || c.HGetAll? || c.LLen? || c.SCard? || c.SMembers? || c.Type? ==> c.key == parts[1])
    ensures Text.ToUpper(parts[0]) in Known
  {
  }

  /** The session ends exactly on QUIT or EXIT, in any case. */
  lemma QuitIff(parts: seq<string>)
    requires |parts| >= 1
    ensures Interpret(parts).Quit? <==> Text.ToUpper(parts[0]) in {"QUIT", "EXIT"}
  {
  }

  /** Every name the loop does not recognise gets the unknown-command
      message, with the upper-cased name. */
  lemma UnknownIff(parts: seq<string>)
    requires |parts| >= 1
    ensures Interpret(parts).Unknown? <==> Text.ToUpper(parts[0]) !in Known
    ensures Interpret(parts).Unknown? ==> Interpret(parts).name == Text.ToUpper(parts[0])
  {
  }

  // ---------------------------------------------------------------------
  // The session

  /** Quit, if dispatched, is the last command and the only Quit. */
  lemma {:induction false} QuitIsLast(actions: seq<Option<Command>>)
    ensures forall k :: 0 <= k < |Dispatched(actions)| - 1 ==> !Dispatched(actions)[k].Quit?
  {
    if actions != [] {
      QuitIsLast(actions[1..]);
    }
  }

  lemma SessionQuitIsLast(lines: seq<string>)
    ensures forall k :: 0 <= k < |Session(lines)| - 1 ==> !Session(lines)[k].Quit?
  {
    QuitIsLast(Actions(lines));
  }

  lemma {:induction false} DispatchedLength(actions: seq<Option<Command>>)
    ensures |Dispatched(actions)| <= |actions|
  {
    if actions != [] {
      DispatchedLength(actions[1..]);
    }
  }

  /** A session dispatches at most one command per line. */
  lemma SessionLength(lines: seq<string>)
    ensures |Session(lines)| <= |lines|
  {
    DispatchedLength(Actions(lines));
  }

  lemma {:induction false} StopsAtQuit(a: seq<Option<Command>>, b: seq<Option<Command>>)
    requires exists k :: 0 <= k < |Dispatched(a)| && Dispatched(a)[k].Quit?
    ensures Dispatched(a + b) == Dispatched(a)
  {
    assert a != [];
    assert (a + b)[0] == a[0];
    assert (a + b)[1..] == a[1..] + b;
    match a[0]
    case None =>
      StopsAtQuit(a[1..], b);
    case Some(c) =>
      if !c.Quit? {
        var k :| 0 <= k < |Dispatched(a)| && Dispatched(a)[k].Quit?;
        assert Dispatched(a[1..])[k - 1].Quit?;
        StopsAtQuit(a[1..], b);
      }
  }

  /** Once a Quit has been dispatched, later lines are never read. */
  lemma SessionStopsAtQuit(a: seq<string>, b: seq<string>)
    requires exists k :: 0 <= k < |Session(a)| && Session(a)[k].Quit?
    ensures Session(a + b) == Session(a)
  {
    MapAppend(a, b, Classify);
    StopsAtQuit(Actions(a), Actions(b));
  }

  lemma {:induction false} DispatchedAppend(a: seq<Option<Command>>, b: seq<Option<Command>>)
    requires forall k :: 0 <= k < |Dispatched(a)| ==> !Dispatched(a)[k].Quit?
    ensures Dispatched(a + b) == Dispatched(a) + Dispatched(b)
  {
    if a == [] {
      assert a + b == b;
    } else {
      assert (a + b)[0] == a[0];
      assert (a + b)[1..] == a[1..] + b;
      match a[0]
      case None =>
        assert Dispatched(a) == Dispatched(a[1..]);
        DispatchedAppend(a[1..], b);
      case Some(c) =>
        assert !Dispatched(a)[0].Quit?;
        assert Dispatched(a) == [c] + Dispatched(a[1..]);
        assert forall k :: 0 <= k < |Dispatched(a[1..])| ==> Dispatched(a[1..])[k] == Dispatched(a)[k + 1];
        DispatchedAppend(a[1..], b);
    }
  }

  /** Without a Quit, a session over two runs of lines is the two sessions
      one after the other. */
  lemma SessionAppend(a: seq<string>, b: seq<string>)
    requires forall k :: 0 <= k < |Session(a)| ==> !Session(a)[k].Quit?
    ensures Session(a + b) == Session(a) + Session(b)
  {
    var xs, ys := Actions(a), Actions(b);
    MapAppend(a, b, Classify);
    assert Session(a) == Dispatched(xs);
    DispatchedAppend(xs, ys);
    assert Session(a + b) == Dispatched(xs + ys);
  }

  // ---------------------------------------------------------------------
  // truncate and parseInt

  /** A byte of a Go string. */
  newtype byte = x: int | 0 <= x < 256

  /** "..." */
  const Ellipsis: seq<byte> := [46, 46, 46]

  /** truncate: a string no longer than `maxLen` bytes is kept; a longer
      one is cut to its first `maxLen` bytes followed by "...". Lengths are
      in bytes, as Go's len and slicing count them. */
  function Truncate(s: seq<byte>, maxLen: nat): (r: seq<byte>)
    ensures |s| <= maxLen ==> r == s
    ensures |s| > maxLen ==> |r| == maxLen + 3 && r[..maxLen] == s[..maxLen] && r[maxLen..] == Ellipsis
  {
    if |s| > maxLen then s[..maxLen] + Ellipsis else s
  }

  /** The result is never longer than `maxLen` + 3 bytes, and it starts
      with the first bytes of the input. */
  lemma TruncateBounds(s: seq<byte>, maxLen: nat)
    ensures |Truncate(s, maxLen)| <= maxLen + 3
    ensures var m := if |s| < maxLen then |s| else maxLen;
            Truncate(s, maxLen)[..m] == s[..m]
  {
  }

  /** Truncating twice gives the same as truncating once. */
  lemma TruncateIdempotent(s: seq<byte>, maxLen: nat)
    ensures Truncate(Truncate(s, maxLen), maxLen) == Truncate(s, maxLen)
  {
    if |s| > maxLen {
      var r := Truncate(s, maxLen);
      assert r[..maxLen] + Ellipsis == r;
    }
  }

  /** A string one or two bytes over the limit comes out longer than it
      went in: the three dots replace fewer bytes than they take. */
  lemma TruncateCanLengthen(s: seq<byte>, maxLen: nat)
    requires maxLen < |s| < maxLen + 3
    ensures |Truncate(s, maxLen)| > |s|
  {
  }

  /** parseInt gives 0 when, after leading blanks and an optional sign, the
      text does not start with a decimal digit. */
  lemma ParseIntNoNumber(s: string)
    requires var body := Numeric.SplitSign(Numeric.SkipBlanks(s)).1;
             body == [] || !Numeric.IsDigit(body[0])
    ensures ParseInt(s) == 0
  {
  }

  /** parseInt reads back a formatted 64-bit integer, whatever non-digit
      text follows it. */
  lemma ParseIntFormatInt(n: int, rest: string)
    requires Numeric.InInt64(n)
    requires rest == [] || !Numeric.IsDigit(rest[0])
    ensures ParseInt(Numeric.FormatInt(n) + rest) == n
  {
    Numeric.ScanIntFormatInt(n, rest);
  }
}
