/** Configuration loading: every setting comes from one environment
    variable, with a default when the variable is unset or empty. The
    process environment is a map from variable names to values. */
module Config {
  import opened Wrappers
  import Text
  import Numeric

  type Env = map<string, string>

  /** os.Getenv: an unset variable reads as the empty string. */
  function Lookup(env: Env, key: string): string {
    if key in env then env[key] else ""
  }

  /** getEnv: the variable's value when it is non-empty, else the fallback. */
  function GetEnv(env: Env, key: string, fallback: string): (r: string)
    ensures Lookup(env, key) != "" ==> r == Lookup(env, key)
    ensures Lookup(env, key) == "" ==> r == fallback
    ensures fallback != "" ==> r != ""
  {
    var value := Lookup(env, key);
    if value != "" then value else fallback
  }

  /** A variable set to the empty string reads exactly like an unset one. */
  lemma EmptyIsUnset(env: Env, key: string, fallback: string)
    ensures GetEnv(env[key := ""], key, fallback) == GetEnv(env - {key}, key, fallback) == fallback
  {
  }

  /** getEnvInt: the value read by strconv.Atoi when the variable is
      non-empty and parses, else the fallback. */
  function GetEnvInt(env: Env, key: string, fallback: int): (r: int)
    ensures Numeric.Atoi(Lookup(env, key)).Some? ==> r == Numeric.Atoi(Lookup(env, key)).value
    ensures Numeric.Atoi(Lookup(env, key)).None? ==> r == fallback
  {
    var value := Lookup(env, key);
    if value != "" then
      match Numeric.Atoi(value)
      case Some(v) => v
      case None => fallback
    else fallback
  }

  /** A variable holding a formatted 64-bit integer is read back exactly. */
  lemma GetEnvIntFormatInt(env: Env, key: string, fallback: int, n: int)
    requires Numeric.InInt64(n)
    ensures GetEnvInt(env[key := Numeric.FormatInt(n)], key, fallback) == n
  {
    Numeric.AtoiFormatInt(n);
  }

  /** The trimmed pieces of `parts` that are not empty, in order. */
  function TrimmedParts(parts: seq<string>): (r: seq<string>)
    ensures |r| <= |parts|
  {
    if parts == [] then []
    else
      var trimmed := Text.TrimSpace(parts[|parts| - 1]);
      TrimmedParts(parts[..|parts| - 1]) + (if trimmed != "" then [trimmed] else [])
  }

  /** What getEnvList returns for a variable. */
  function EnvList(env: Env, key: string): seq<string> {
    var value := Text.TrimSpace(Lookup(env, key));
    if value == "" then [] else TrimmedParts(Text.Split(value, ','))
  }

  /** getEnvList: splits the trimmed value on commas, trims every piece and
      keeps the non-empty ones, in order. */
  method GetEnvList(env: Env, key: string) returns (result: seq<string>)
    ensures result == EnvList(env, key)
  {
    var value := Text.TrimSpace(Lookup(env, key));
    if value == "" {
      return [];
    }
    var parts := Text.Split(value, ',');
    result := [];
    for i := 0 to |parts|
      invariant result == TrimmedParts(parts[..i])
    {
      assert parts[..i + 1][..i] == parts[..i];
      var trimmed := Text.TrimSpace(parts[i]);
      if trimmed != "" {
        result := result + [trimmed];
      }
    }
    assert parts[..|parts|] == parts;
  }

  /** A list element: non-empty, no white space at either end, no comma. */
  predicate Clean(x: string) {
    x != [] && !Text.IsSpace(x[0]) && !Text.IsSpace(x[|x| - 1]) && ',' !in x
  }

  lemma TrimKeepsCommaFree(p: string)
    requires ',' !in p
    ensures ',' !in Text.TrimSpace(p)
  {
    var i, j := Text.TrimSpaceSlice(p);
  }

  lemma {:induction false} TrimmedPartsClean(parts: seq<string>)
    requires forall p <- parts :: ',' !in p
    ensures forall x <- TrimmedParts(parts) :: Clean(x)
  {
    if parts != [] {
      var last := parts[|parts| - 1];
      TrimmedPartsClean(parts[..|parts| - 1]);
      TrimKeepsCommaFree(last);
    }
  }

  /** A blank or whitespace-only value gives the empty list. */
  lemma EnvListBlank(env: Env, key: string)
    requires forall i :: 0 <= i < |Lookup(env, key)| ==> Text.IsSpace(Lookup(env, key)[i])
    ensures EnvList(env, key) == []
  {
    Text.TrimSpaceEmpty(Lookup(env, key));
  }

  /** No element is empty, has white space at either end, or holds a comma. */
  lemma EnvListClean(env: Env, key: string)
    ensures forall x <- EnvList(env, key) :: Clean(x)
  {
    var value := Text.TrimSpace(Lookup(env, key));
    if value != "" {
      Text.SplitParts(value, ',');
      TrimmedPartsClean(Text.Split(value, ','));
    }
  }

  /** There are at most as many elements as commas plus one. */
  lemma EnvListLength(env: Env, key: string)
    ensures |EnvList(env, key)| <= Text.Count(Lookup(env, key), ',') + 1
  {
    var raw := Lookup(env, key);
    var value := Text.TrimSpace(raw);
    if value != "" {
      Text.SplitParts(value, ',');
      var i, j := Text.TrimSpaceSlice(raw);
      Text.CountSlice(raw, i, j, ',');
    }
  }

  /** TrimmedParts leaves a list of clean elements as it is. */
  lemma {:induction false} TrimmedPartsOfClean(xs: seq<string>)
    requires forall x <- xs :: Clean(x)
    ensures TrimmedParts(xs) == xs
  {
    if xs != [] {
      var init, last := xs[..|xs| - 1], xs[|xs| - 1];
      assert last in xs;
      assert forall x <- init :: x in xs;
      TrimmedPartsOfClean(init);
      assert Clean(last);
      Text.TrimSpaceFixed(last);
      assert xs[..|xs| - 1] == init && Text.TrimSpace(last) == last != "";
      assert TrimmedParts(xs) == TrimmedParts(init) + [last];
      assert init + [last] == xs;
    }
  }

  lemma {:induction false} JoinEnds(xs: seq<string>)
    requires |xs| >= 1 && xs[0] != [] && xs[|xs| - 1] != []
    requires forall x <- xs :: x != []
    ensures var s := Text.Join(xs, ',');
            |s| > 0 && s[0] == xs[0][0] && s[|s| - 1] == xs[|xs| - 1][|xs[|xs| - 1]| - 1]
  {
    assert xs[0] in xs;
    if |xs| > 1 {
      assert xs[1] in xs;
      assert forall x <- xs[1..] :: x in xs;
      JoinEnds(xs[1..]);
      var rest := Text.Join(xs[1..], ',');
      assert Text.Join(xs, ',') == xs[0] + [','] + rest;
      assert xs[1..][|xs[1..]| - 1] == xs[|xs| - 1];
    }
  }

  /** Joining clean elements with commas and reading the list back gives
      the same elements in the same order. */
  lemma EnvListOfJoin(env: Env, key: string, xs: seq<string>)
    requires forall x <- xs :: Clean(x)
    ensures EnvList(env[key := Text.Join(xs, ',')], key) == xs
  {
    var s := Text.Join(xs, ',');
    if xs != [] {
      assert xs[0] in xs;
      assert xs[|xs| - 1] in xs;
      JoinEnds(xs);
      Text.TrimSpaceFixed(s);
      Text.SplitJoin(xs, ',');
      TrimmedPartsOfClean(xs);
    }
  }

  /** The settings of the dashboard (internal/config Config). */
  datatype Config = Config(
    redisAddr: string,
    redisUsername: string,
    redisPassword: string,
    redisDB: int,
    redisSentinelMaster: string,
    redisSentinelAddrs: seq<string>,
    redisSentinelUsername: string,
    redisSentinelPassword: string,
    serverPort: string,
    queuePrefix: string,
    metricsPollSeconds: int,
    logLevel: string)

  /** Load: every setting from its variable, with its default. */
  function Load(env: Env): Config {
    Config(
      GetEnv(env, "REDIS_ADDR", "127.0.0.1:6379"),
      GetEnv(env, "REDIS_USERNAME", ""),
      GetEnv(env, "REDIS_PASSWORD", ""),
      GetEnvInt(env, "REDIS_DB", 0),
      GetEnv(env, "REDIS_SENTINEL_MASTER", ""),
      EnvList(env, "REDIS_SENTINEL_ADDRS"),
      GetEnv(env, "REDIS_SENTINEL_USERNAME", ""),
      GetEnv(env, "REDIS_SENTINEL_PASSWORD", ""),
      GetEnv(env, "SERVER_PORT", "8080"),
      GetEnv(env, "QUEUE_PREFIX", "bull"),
      GetEnvInt(env, "METRICS_POLL_SECONDS", 10),
      GetEnv(env, "LOG_LEVEL", "info"))
  }

  /** The address, port, queue prefix and log level are never empty: an
      empty variable falls back to a non-empty default. */
  lemma LoadNeverEmpty(env: Env)
    ensures Load(env).redisAddr != ""
    ensures Load(env).serverPort != ""
    ensures Load(env).queuePrefix != ""
    ensures Load(env).logLevel != ""
  {
    var c := Load(env);
    assert c.redisAddr == GetEnv(env, "REDIS_ADDR", "127.0.0.1:6379");
    assert c.serverPort == GetEnv(env, "SERVER_PORT", "8080");
    assert c.queuePrefix == GetEnv(env, "QUEUE_PREFIX", "bull");
    assert c.logLevel == GetEnv(env, "LOG_LEVEL", "info");
  }

  /** The empty environment gives the defaults. */
  lemma LoadDefaults()
    ensures Load(map[]) == Config("127.0.0.1:6379", "", "", 0, "", [], "", "", "8080", "bull", 10, "info")
  {
    assert Text.TrimSpace("") == "";
  }

  /** The sentinel address list is always clean. */
  lemma LoadSentinelAddrsClean(env: Env)
    ensures forall x <- Load(env).redisSentinelAddrs :: Clean(x)
  {
    EnvListClean(env, "REDIS_SENTINEL_ADDRS");
  }
}
