/**
 * Invariants of the stores across any number of iterations of the loop in
 * Filter: the watching counter of every minute equals the number of
 * buffered records of that minute over all clients, and the white list
 * only grows.
 */
module Invariants {
  import opened GoStrings
  import opened Redis
  import opened FilterSpec
  import opened Correlation

  /** Some element of a non-empty set. */
  ghost function Pick(keys: set<string>): (k: string)
    requires keys != {}
    ensures k in keys
  {
    var k :| k in keys; k
  }

  /** Whether a list key is a client's watching buffer. */
  predicate IsWatchKey(k: string)
  {
    HasPrefix(k, "WL_")
  }

  /** A client's buffer is a watching key, its page-URL set is not. */
  lemma WatchKeyShape(addr: string)
    ensures IsWatchKey(WatchKey(addr))
    ensures !IsWatchKey(RefererKey(addr))
  {
    assert WatchKey(addr)[..3] == "WL_";
    assert RefererKey(addr)[..3][0] == 'R';
  }

  /** The records of minute `m` buffered under key `k`. */
  function Contribution(conn: Store, ext: Externals, m: string, k: string): nat
  {
    if IsWatchKey(k) then CountMinute(ext, conn.List(k), m) else 0
  }

  /** The buffered records of minute `m` under the keys in `keys`. */
  ghost function BufferedOver(keys: set<string>, conn: Store, ext: Externals, m: string): int
    decreases keys
  {
    if keys == {} then 0
    else
      var k := Pick(keys);
      Contribution(conn, ext, m, k) + BufferedOver(keys - {k}, conn, ext, m)
  }

  /** The buffered records of minute `m`, over every client's watching buffer. */
  ghost function Buffered(conn: Store, ext: Externals, m: string): int
  {
    BufferedOver(conn.lists.Keys, conn, ext, m)
  }

  /** The sum does not depend on the order in which keys are taken. */
  lemma {:induction false} BufferedOverPick(keys: set<string>, conn: Store, ext: Externals, m: string, k: string)
    requires k in keys
    ensures BufferedOver(keys, conn, ext, m) == Contribution(conn, ext, m, k) + BufferedOver(keys - {k}, conn, ext, m)
    decreases keys
  {
    var j := Pick(keys);
    if j != k {
      BufferedOverPick(keys - {j}, conn, ext, m, k);
      BufferedOverPick(keys - {k}, conn, ext, m, j);
      assert keys - {j} - {k} == keys - {k} - {j};
    }
  }

  /** Two stores that agree on the contribution of every key in `keys` have the same sum over `keys`. */
  lemma {:induction false} BufferedOverFrame(keys: set<string>, c1: Store, c2: Store, ext: Externals, m: string)
    requires forall k :: k in keys ==> Contribution(c1, ext, m, k) == Contribution(c2, ext, m, k)
    ensures BufferedOver(keys, c1, ext, m) == BufferedOver(keys, c2, ext, m)
    decreases keys
  {
    if keys != {} {
      var k := Pick(keys);
      BufferedOverFrame(keys - {k}, c1, c2, ext, m);
    }
  }

  /** Adding keys that contribute nothing does not change the sum. */
  lemma {:induction false} BufferedOverExtend(keys: set<string>, more: set<string>, conn: Store, ext: Externals, m: string)
    requires keys <= more
    requires forall k :: k in more - keys ==> Contribution(conn, ext, m, k) == 0
    ensures BufferedOver(more, conn, ext, m) == BufferedOver(keys, conn, ext, m)
    decreases more
  {
    if more - keys == {} {
      forall x | x in more ensures x in keys {
        assert x !in more - keys;
      }
      assert more == keys;
    } else {
      var k := Pick(more - keys);
      BufferedOverPick(more, conn, ext, m, k);
      BufferedOverExtend(keys, more - {k}, conn, ext, m);
    }
  }

  /** Changing the list under one key changes the sum by the change of that key's contribution. */
  lemma BufferedUpdate(c1: Store, c2: Store, ext: Externals, m: string, key: string)
    requires forall k :: k != key ==> Contribution(c1, ext, m, k) == Contribution(c2, ext, m, k)
    ensures Buffered(c2, ext, m) == Buffered(c1, ext, m) - Contribution(c1, ext, m, key) + Contribution(c2, ext, m, key)
  {
    var all := c1.lists.Keys + c2.lists.Keys + {key};
    BufferedOverExtend(c1.lists.Keys, all, c1, ext, m);
    BufferedOverExtend(c2.lists.Keys, all, c2, ext, m);
    BufferedOverPick(all, c1, ext, m, key);
    BufferedOverPick(all, c2, ext, m, key);
    BufferedOverFrame(all - {key}, c1, c2, ext, m);
  }

  /** Emptying one watching buffer, and no other, releases exactly its records from every minute's sum. */
  lemma BufferDropped(c: Store, r: Store, ext: Externals, key: string)
    requires IsWatchKey(key)
    requires r.List(key) == []
    requires forall k :: k != key && IsWatchKey(k) ==> r.List(k) == c.List(k)
    ensures forall m :: Buffered(r, ext, m) == Buffered(c, ext, m) - CountMinute(ext, c.List(key), m)
  {
    forall m ensures Buffered(r, ext, m) == Buffered(c, ext, m) - CountMinute(ext, c.List(key), m) {
      BufferedUpdate(c, r, ext, m, key);
    }
  }

  /** Stores that hold the same list under every key have the same sum. */
  lemma BufferedSameLists(c1: Store, c2: Store, ext: Externals, m: string)
    requires forall k :: c1.List(k) == c2.List(k)
    ensures Buffered(c2, ext, m) == Buffered(c1, ext, m)
  {
    BufferedUpdate(c1, c2, ext, m, "");
  }

  /** The watching counter of every minute equals the number of buffered records of that minute. */
  ghost predicate WatchingConsistent(w: World, ext: Externals)
  {
    forall m :: w.stats.HashValue(VppvWatching, m) == Buffered(w.conn, ext, m)
  }

  /** The empty stores satisfy the invariant. */
  lemma EmptyWorldConsistent(ext: Externals)
    ensures WatchingConsistent(EmptyWorld, ext)
  {
  }

  /** A step that changes neither the lists nor the watching counter keeps the invariant. */
  lemma ConsistentFrame(w: World, w': World, ext: Externals)
    requires WatchingConsistent(w, ext)
    requires forall k :: w'.conn.List(k) == w.conn.List(k)
    requires forall f :: w'.stats.HashValue(VppvWatching, f) == w.stats.HashValue(VppvWatching, f)
    ensures WatchingConsistent(w', ext)
  {
    forall m ensures w'.stats.HashValue(VppvWatching, m) == Buffered(w'.conn, ext, m) {
      BufferedSameLists(w.conn, w'.conn, ext, m);
    }
  }

  /** Buffering a record adds one at its minute to both sides (this is where the round trip is needed). */
  lemma AddWatchingListConsistent(w: World, ext: Externals, log: AccessLog)
    requires RoundTrip(ext)
    requires WatchingConsistent(w, ext)
    ensures WatchingConsistent(AddWatchingList(w, ext, log), ext)
  {
    var r := AddWatchingList(w, ext, log);
    var key := WatchKey(log.remoteAddr);
    var line := ext.serialize(log);
    WatchKeyShape(log.remoteAddr);
    assert LineMinute(ext, line) == ext.minuteOf(log);
    assert r.conn.List(key) == [line] + w.conn.List(key);
    assert ([line] + w.conn.List(key))[1..] == w.conn.List(key);
    forall m ensures r.stats.HashValue(VppvWatching, m) == Buffered(r.conn, ext, m) {
      BufferedUpdate(w.conn, r.conn, ext, m, key);
    }
  }

  /** Resolving a client removes its buffer and releases exactly that buffer's records from the counter. */
  lemma ProcessWatchingListConsistent(w: World, ext: Externals, log: AccessLog)
    requires WatchingConsistent(w, ext)
    ensures WatchingConsistent(ProcessWatchingList(w, ext, log), ext)
  {
    var r := ProcessWatchingList(w, ext, log);
    var addr := log.remoteAddr;
    var key := WatchKey(addr);
    ProcessWatchingListCounters(w, ext, log);
    ProcessWatchingListKeys(w, ext, log);
    WatchKeyShape(addr);
    forall k | k != key && IsWatchKey(k)
      ensures r.conn.List(k) == w.conn.List(k)
    {
      assert k != RefererKey(addr);
    }
    BufferDropped(w.conn, r.conn, ext, key);
    var entries := w.conn.List(key);
    forall m ensures r.stats.HashValue(VppvWatching, m) == Buffered(r.conn, ext, m) {
      assert r.stats.HashValue(VppvWatching, m) == w.stats.HashValue(VppvWatching, m) - CountMinute(ext, entries, m);
    }
  }

  /** The white-list stage keeps the invariant. */
  lemma WhiteIpConsistent(w: World, ext: Externals, log: AccessLog)
    requires RoundTrip(ext)
    requires WatchingConsistent(w, ext)
    ensures WatchingConsistent(WhiteIpFilter(w, ext, log).1, ext)
  {
    if log.remoteAddr !in w.conn.Members(WhiteListKey) {
      AddWatchingListConsistent(w, ext, log);
    }
  }

  /** The status stage keeps the invariant. */
  lemma HttpCodeConsistent(w: World, ext: Externals, log: AccessLog)
    requires RoundTrip(ext)
    requires WatchingConsistent(w, ext)
    ensures WatchingConsistent(HttpCodeFilter(w, ext, log).1, ext)
  {
    CountersDistinct(log.httpCode);
    var w1 := w.(stats := w.stats.HashIncrby(CodeCounter(log.httpCode), ext.minuteOf(log), 1));
    ConsistentFrame(w, w1, ext);
    if HasPrefix(log.httpCode, "2") {
      WhiteIpConsistent(w1, ext, log);
    }
  }

  /** The URI stage keeps the invariant. */
  lemma URIConsistent(w: World, ext: Externals, log: AccessLog)
    requires RoundTrip(ext)
    requires WatchingConsistent(w, ext)
    ensures WatchingConsistent(URIFilter(w, ext, log).1, ext)
  {
    if HasPrefix(log.requestUri, ViewPrefix) {
      CountersDistinct("");
      var w1 := w.(stats := w.stats.HashIncrby(VppvTotal, ext.minuteOf(log), 1));
      ConsistentFrame(w, w1, ext);
      HttpCodeConsistent(w1, ext, log);
    } else if IsSearchHost(log.hostname) {
      ProcessWatchingListConsistent(w, ext, log);
    }
  }

  /** DoFilter keeps the invariant: only buffering and resolving touch the lists or the watching counter. */
  lemma DoFilterConsistent(w: World, ext: Externals, log: AccessLog)
    requires RoundTrip(ext)
    requires WatchingConsistent(w, ext)
    ensures WatchingConsistent(DoFilter(w, ext, log).1, ext)
  {
    var m := ext.minuteOf(log);
    CountersDistinct("");
    if UaRejected(ext, log) {
      ConsistentFrame(w, DoFilter(w, ext, log).1, ext);
    } else {
      var w1 := AfterUserAgent(w, ext, log);
      ConsistentFrame(w, w1, ext);
      URIConsistent(w1, ext, log);
    }
  }

  /** One iteration of the loop keeps the invariant. */
  lemma IterationConsistent(w: World, ext: Externals, line: string)
    requires RoundTrip(ext)
    requires WatchingConsistent(w, ext)
    ensures WatchingConsistent(FilterIteration(w, ext, line), ext)
  {
    if line != "" {
      var log := ext.getLog(line);
      var m := ext.minuteOf(log);
      CountersDistinct("");
      var w0 := w.(stats := w.stats.HashIncrby(TotalRequest, m, 1));
      ConsistentFrame(w, w0, ext);
      DoFilterConsistent(w0, ext, log);
      var w1 := DoFilter(w0, ext, log).1;
      ConsistentFrame(w1, FilterIteration(w, ext, line), ext);
    }
  }

  /** Any number of iterations keeps the invariant. */
  lemma {:induction false} RunConsistent(w: World, ext: Externals, lines: seq<string>)
    requires RoundTrip(ext)
    requires WatchingConsistent(w, ext)
    ensures WatchingConsistent(FilterRun(w, ext, lines), ext)
    decreases |lines|
  {
    if lines != [] {
      IterationConsistent(w, ext, lines[0]);
      RunConsistent(FilterIteration(w, ext, lines[0]), ext, lines[1..]);
    }
  }

  /**
   * Starting from empty stores, after any sequence of dequeued lines, the
   * watching counter of every minute equals the number of buffered records
   * of that minute.
   */
  lemma WatchingCounterMatchesBuffers(ext: Externals, lines: seq<string>, m: string)
    requires RoundTrip(ext)
    ensures FilterRun(EmptyWorld, ext, lines).stats.HashValue(VppvWatching, m)
            == Buffered(FilterRun(EmptyWorld, ext, lines).conn, ext, m)
  {
    EmptyWorldConsistent(ext);
    RunConsistent(EmptyWorld, ext, lines);
  }

  /** The white-list stage never removes a client from the white list. */
  lemma WhiteIpWhiteListGrows(w: World, ext: Externals, log: AccessLog)
    ensures w.conn.Members(WhiteListKey) <= WhiteIpFilter(w, ext, log).1.conn.Members(WhiteListKey)
  {
    KeysDistinct(log.remoteAddr, log.remoteAddr);
  }

  /** The status stage never removes a client from the white list. */
  lemma HttpCodeWhiteListGrows(w: World, ext: Externals, log: AccessLog)
    ensures w.conn.Members(WhiteListKey) <= HttpCodeFilter(w, ext, log).1.conn.Members(WhiteListKey)
  {
    var w1 := w.(stats := w.stats.HashIncrby(CodeCounter(log.httpCode), ext.minuteOf(log), 1));
    WhiteIpWhiteListGrows(w1, ext, log);
  }

  /** The URI stage never removes a client from the white list. */
  lemma URIWhiteListGrows(w: World, ext: Externals, log: AccessLog)
    ensures w.conn.Members(WhiteListKey) <= URIFilter(w, ext, log).1.conn.Members(WhiteListKey)
  {
    if HasPrefix(log.requestUri, ViewPrefix) {
      HttpCodeWhiteListGrows(w.(stats := w.stats.HashIncrby(VppvTotal, ext.minuteOf(log), 1)), ext, log);
    } else if IsSearchHost(log.hostname) {
      ProcessWatchingListKeys(w, ext, log);
    }
  }

  /** DoFilter never removes a client from the white list. */
  lemma DoFilterWhiteListGrows(w: World, ext: Externals, log: AccessLog)
    ensures w.conn.Members(WhiteListKey) <= DoFilter(w, ext, log).1.conn.Members(WhiteListKey)
  {
    if !UaRejected(ext, log) {
      var w1 := AfterUserAgent(w, ext, log);
      KeysDistinct(log.remoteAddr, log.remoteAddr);
      assert w1.conn.Members(WhiteListKey) == w.conn.Members(WhiteListKey);
      URIWhiteListGrows(w1, ext, log);
    }
  }

  /** One iteration never removes a client from the white list. */
  lemma IterationWhiteListGrows(w: World, ext: Externals, line: string)
    ensures w.conn.Members(WhiteListKey) <= FilterIteration(w, ext, line).conn.Members(WhiteListKey)
  {
    if line != "" {
      var log := ext.getLog(line);
      var w0 := w.(stats := w.stats.HashIncrby(TotalRequest, ext.minuteOf(log), 1));
      DoFilterWhiteListGrows(w0, ext, log);
    }
  }

  /** No sequence of iterations removes a client from the white list. */
  lemma {:induction false} RunWhiteListGrows(w: World, ext: Externals, lines: seq<string>)
    ensures w.conn.Members(WhiteListKey) <= FilterRun(w, ext, lines).conn.Members(WhiteListKey)
    decreases |lines|
  {
    if lines != [] {
      IterationWhiteListGrows(w, ext, lines[0]);
      RunWhiteListGrows(FilterIteration(w, ext, lines[0]), ext, lines[1..]);
    }
  }
}
