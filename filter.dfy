/**
 * The filter as the program runs it: every function issues its store
 * commands one by one on two connections, `conn` (sets and lists) and
 * `conn3` (counters). Each method is proved to leave the stores exactly as
 * its counterpart in FilterSpec says and to return the same verdict.
 */
module Filter {
  import opened GoStrings
  import opened Redis
  import opened FilterSpec

  /** The state of both stores as one value. */
  function WorldOf(conn: RedisConn, conn3: RedisConn): World
    reads conn, conn3
  {
    World(conn.State(), conn3.State())
  }

  method DoFilter(conn: RedisConn, conn3: RedisConn, ext: Externals, log: AccessLog) returns (v: Verdict)
    requires conn != conn3
    modifies conn, conn3
    ensures (v, WorldOf(conn, conn3)) == FilterSpec.DoFilter(old(WorldOf(conn, conn3)), ext, log)
  {
    v := UserAgentFilter(conn, conn3, ext, log);
  }

  method UserAgentFilter(conn: RedisConn, conn3: RedisConn, ext: Externals, log: AccessLog) returns (v: Verdict)
    requires conn != conn3
    modifies conn, conn3
    ensures (v, WorldOf(conn, conn3)) == FilterSpec.UserAgentFilter(old(WorldOf(conn, conn3)), ext, log)
  {
    var ua := ToLower(log.userAgent);
    var logTimeMin := ext.minuteOf(log);
    if log.userAgent == "-" || Contains(ua, "bot") || Contains(ua, "spider") {
      var _ := conn3.HashIncrby(UaNotPass, logTimeMin, 1);
      return No;
    }
    var uaFamily := ext.uaFamily(log.userAgent);
    if uaFamily == "" {
      var _ := conn3.HashIncrby(UaNotPass, logTimeMin, 1);
      return No;
    }
    uaFamily := ToLower(uaFamily);
    var _ := conn3.HashIncrby(UaPass, logTimeMin, 1);
    var _ := conn3.HashIncrby(UaStatistic, uaFamily, 1);
    AddRefererList(conn, log);
    v := URIFilter(conn, conn3, ext, log);
  }

  method URIFilter(conn: RedisConn, conn3: RedisConn, ext: Externals, log: AccessLog) returns (v: Verdict)
    requires conn != conn3
    modifies conn, conn3
    ensures (v, WorldOf(conn, conn3)) == FilterSpec.URIFilter(old(WorldOf(conn, conn3)), ext, log)
  {
    var logTimeMin := ext.minuteOf(log);
    if HasPrefix(log.requestUri, ViewPrefix) {
      var _ := conn3.HashIncrby(VppvTotal, logTimeMin, 1);
      v := HttpCodeFilter(conn, conn3, ext, log);
    } else {
      Analysis(conn, conn3, ext, log);
      v := Unknown;
    }
  }

  method HttpCodeFilter(conn: RedisConn, conn3: RedisConn, ext: Externals, log: AccessLog) returns (v: Verdict)
    requires conn != conn3
    modifies conn, conn3
    ensures (v, WorldOf(conn, conn3)) == FilterSpec.HttpCodeFilter(old(WorldOf(conn, conn3)), ext, log)
  {
    var logTimeMin := ext.minuteOf(log);
    var _ := conn3.HashIncrby(CodeCounter(log.httpCode), logTimeMin, 1);
    if HasPrefix(log.httpCode, "2") {
      v := WhiteIpFilter(conn, conn3, ext, log);
    } else {
      v := Unknown;
    }
  }

  /** RefererFilter; the Go code also passes a set/list connection, which this function never uses. */
  method RefererFilter(conn3: RedisConn, ext: Externals, log: AccessLog) returns (v: Verdict)
    modifies conn3
    ensures (v, conn3.State()) == FilterSpec.RefererFilter(old(conn3.State()), ext, log)
  {
    var logTimeMin := ext.minuteOf(log);
    if Contains(log.referer, "my.anjuke.com") {
      var _ := conn3.HashIncrby(VppvFromMy, logTimeMin, 1);
      return No;
    }
    if log.referer != "-" {
      return Yes;
    }
    var _ := conn3.HashIncrby(VppvNoReferer, logTimeMin, 1);
    return No;
  }

  method WhiteIpFilter(conn: RedisConn, conn3: RedisConn, ext: Externals, log: AccessLog) returns (v: Verdict)
    requires conn != conn3
    modifies conn, conn3
    ensures (v, WorldOf(conn, conn3)) == FilterSpec.WhiteIpFilter(old(WorldOf(conn, conn3)), ext, log)
  {
    var isMember := conn.SetIsMember(WhiteListKey, log.remoteAddr);
    if isMember == 1 {
      v := Yes;
    } else {
      AddWatchingList(conn, conn3, ext, log);
      v := Unknown;
    }
  }

  method AddRefererList(conn: RedisConn, log: AccessLog)
    modifies conn
    ensures conn.State() == FilterSpec.AddRefererList(old(conn.State()), log)
  {
    var _ := conn.SetAdd(RefererListKey, log.remoteAddr);
    var _ := conn.SetAdd(RefererKey(log.remoteAddr), "http://" + log.hostname + log.requestUri);
  }

  method DelRefererList(conn: RedisConn, log: AccessLog)
    modifies conn
    ensures conn.State() == FilterSpec.DelRefererList(old(conn.State()), log)
  {
    var _ := conn.SetRem(RefererListKey, log.remoteAddr);
    var _ := conn.KeyDel(RefererKey(log.remoteAddr));
  }

  method AddWatchingList(conn: RedisConn, conn3: RedisConn, ext: Externals, log: AccessLog)
    requires conn != conn3
    modifies conn, conn3
    ensures WorldOf(conn, conn3) == FilterSpec.AddWatchingList(old(WorldOf(conn, conn3)), ext, log)
  {
    var logTimeMin := ext.minuteOf(log);
    var _ := conn3.HashIncrby(VppvWatching, logTimeMin, 1);
    var _ := conn.SetAdd(WatchingListKey, log.remoteAddr);
    var _ := conn.ListLeftPush(WatchKey(log.remoteAddr), ext.serialize(log));
  }

  method DelWatchingList(conn: RedisConn, log: AccessLog)
    modifies conn
    ensures conn.State() == FilterSpec.DelWatchingList(old(conn.State()), log)
  {
    var _ := conn.SetRem(WatchingListKey, log.remoteAddr);
    var _ := conn.KeyDel(WatchKey(log.remoteAddr));
  }

  method AddWhiteList(conn: RedisConn, log: AccessLog)
    modifies conn
    ensures conn.State() == FilterSpec.AddWhiteList(old(conn.State()), log)
  {
    var _ := conn.SetAdd(WhiteListKey, log.remoteAddr);
  }

  method Analysis(conn: RedisConn, conn3: RedisConn, ext: Externals, log: AccessLog)
    requires conn != conn3
    modifies conn, conn3
    ensures WorldOf(conn, conn3) == FilterSpec.Analysis(old(WorldOf(conn, conn3)), ext, log)
  {
    if IsSearchHost(log.hostname) {
      ProcessWatchingList(conn, conn3, ext, log);
    }
  }

  /**
   * ProcessWatchingList: drains the client's buffer, then deletes it and the
   * client's page URLs, and white-lists the client if some record was human.
   */
  method ProcessWatchingList(conn: RedisConn, conn3: RedisConn, ext: Externals, log: AccessLog)
    requires conn != conn3
    modifies conn, conn3
    ensures WorldOf(conn, conn3) == FilterSpec.ProcessWatchingList(old(WorldOf(conn, conn3)), ext, log)
  {
    ghost var conn0 := conn.State();
    var trustFlag := DrainBuffer(conn, conn3, ext, WatchKey(log.remoteAddr));
    assert FilterSpec.DelWatchingList(conn.State(), log) == FilterSpec.DelWatchingList(conn0, log) by {
      assert conn.lists - {WatchKey(log.remoteAddr)} == conn0.lists - {WatchKey(log.remoteAddr)};
    }
    DelWatchingList(conn, log);
    DelRefererList(conn, log);
    if trustFlag {
      AddWhiteList(conn, log);
    }
  }

  /**
   * The drain loop of ProcessWatchingList: pops the buffer `key` from the
   * left as many times as its length was at the start, judging and
   * counting each record at its own minute. Afterwards the buffer is empty
   * and the counters and the trust flag are those of `FilterSpec.Drain`.
   */
  method DrainBuffer(conn: RedisConn, conn3: RedisConn, ext: Externals, key: string) returns (trustFlag: bool)
    requires conn != conn3
    modifies conn, conn3
    ensures conn.State() == if old(conn.State()).List(key) == [] then old(conn.State())
                            else old(conn.State()).(lists := old(conn.lists)[key := []])
    ensures (conn3.State(), trustFlag) == Drain(old(conn3.State()), ext, old(conn.State()).List(key), false)
  {
    ghost var conn0 := conn.State();
    ghost var entries := conn0.List(key);
    ghost var stats0 := conn3.State();
    trustFlag := false;
    var listLen := conn.ListLen(key);
    var i := 0;
    while i < listLen
      invariant 0 <= i <= listLen == |entries|
      invariant conn.hashes == conn0.hashes && conn.sets == conn0.sets
      invariant i == 0 ==> conn.lists == conn0.lists
      invariant i > 0 ==> conn.lists == conn0.lists[key := entries[i..]]
      invariant Drain(conn3.State(), ext, entries[i..], trustFlag) == Drain(stats0, ext, entries, false)
    {
      ghost var stats := conn3.State();
      ghost var lists := conn.lists;
      assert conn.State().List(key) == entries[i..];
      var line, yes := DrainStep(conn, conn3, ext, key, trustFlag);
      assert entries[i..][1..] == entries[i + 1..];
      if i > 0 {
        UpdateTwice(conn0.lists, key, entries[i..], entries[i + 1..]);
      }
      trustFlag := trustFlag || yes;
      i := i + 1;
    }
  }

  /**
   * One round of the drain loop of ProcessWatchingList: pops the left end
   * of the buffer, judges the record and counts it at its own minute.
   */
  method DrainStep(conn: RedisConn, conn3: RedisConn, ext: Externals, key: string, ghost trust: bool) returns (line: string, yes: bool)
    requires conn != conn3
    modifies conn, conn3
    ensures (conn.State(), line) == old(conn.State()).ListLeftPop(key)
    ensures conn.hashes == old(conn.hashes) && conn.sets == old(conn.sets)
    ensures old(conn.State()).List(key) != [] ==> conn.lists == old(conn.lists)[key := old(conn.State()).List(key)[1..]]
    ensures (conn3.State(), yes) == DrainEntry(old(conn3.State()), ext, line)
    ensures old(conn.State()).List(key) != [] ==>
              Drain(conn3.State(), ext, old(conn.State()).List(key)[1..], trust || yes)
              == Drain(old(conn3.State()), ext, old(conn.State()).List(key), trust)
  {
    ghost var entries := conn.State().List(key);
    ghost var stats := conn3.State();
    line := conn.ListLeftPop(key);
    ghost var popped := conn.State();
    var watchAccesslog := ext.getLog(line);
    var logTimeMin := ext.minuteOf(watchAccesslog);
    var verdict := RefererFilter(conn3, ext, watchAccesslog);
    yes := verdict == Yes;
    if yes {
      var _ := conn3.HashIncrby(VppvEffective, logTimeMin, 1);
    }
    var _ := conn3.HashIncrby(VppvWatching, logTimeMin, -1);
    assert conn.State() == popped;
    if entries != [] {
      DrainUnfold(stats, ext, entries, trust);
    }
  }

  /** One iteration of the loop in Filter on a line already taken from the queue. */
  method FilterIteration(conn: RedisConn, conn3: RedisConn, ext: Externals, accesslogLine: string)
    requires conn != conn3
    modifies conn, conn3
    ensures WorldOf(conn, conn3) == FilterSpec.FilterIteration(old(WorldOf(conn, conn3)), ext, accesslogLine)
  {
    if accesslogLine == "" {
      return;
    }
    var accesslog := ext.getLog(accesslogLine);
    var logTimeMin := ext.minuteOf(accesslog);
    var _ := conn3.HashIncrby(TotalRequest, logTimeMin, 1);
    var filterResult := DoFilter(conn, conn3, ext, accesslog);
    if filterResult == Yes {
      logTimeMin := ext.minuteOf(accesslog);
      var _ := conn3.HashIncrby(VppvEffective, logTimeMin, 1);
    }
  }
}
