/**
 * End-to-end runs of the cascade from empty stores: a bot, a page view
 * that is buffered, and the two ways the buffered view can be resolved
 * when the same client later requests the confirmation origin.
 */
module Scenarios {
  import opened GoStrings
  import opened Redis
  import opened FilterSpec
  import opened Correlation
  import opened Stages

  /** A referer from an outside site. */
  const OutsideReferer: string := "http://example.com/x"

  /** A referer from the site's own member area. */
  const OwnReferer: string := "http://my.anjuke.com/user"

  lemma OutsideRefererIsExternal()
    ensures ClassifyReferer(OutsideReferer) == External
  {
    var s := OutsideReferer;
    assert forall i :: 0 <= i <= |s| - 13 ==> s[i] != 'm';
    FirstCharAbsent(s, "my.anjuke.com");
  }

  lemma OwnRefererIsSelfReferral()
    ensures ClassifyReferer(OwnReferer) == SelfReferral
  {
    assert OccursAt(OwnReferer, "my.anjuke.com", 7);
    ContainsIffOccurs(OwnReferer, "my.anjuke.com");
  }

  /** Scenario A: the user agent "-" is a bot, and the not-pass counter of its minute becomes 1. */
  lemma ScenarioA(ext: Externals, a: AccessLog)
    requires a.userAgent == "-"
    ensures var (v, r) := DoFilter(EmptyWorld, ext, a);
            && v == No
            && r.stats.HashValue(UaNotPass, ext.minuteOf(a)) == 1
            && r.conn == EmptyStore
  {
  }

  /**
   * Scenario B: a browser requests /prop/view/123 and gets 200; the client
   * is new, so the verdict is UNKNOWN, the client is watched, its buffer
   * holds the one record and the watching counter of the minute is 1.
   */
  lemma ScenarioB(ext: Externals, b: AccessLog)
    requires !UaRejected(ext, b)
    requires b.requestUri == "/prop/view/123" && b.httpCode == "200"
    ensures var (v, r) := DoFilter(EmptyWorld, ext, b);
            && v == Unknown
            && b.remoteAddr in r.conn.Members(WatchingListKey)
            && r.conn.List(WatchKey(b.remoteAddr)) == [ext.serialize(b)]
            && r.stats.HashValue(VppvWatching, ext.minuteOf(b)) == 1
            && r.stats.HashValue(VppvEffective, ext.minuteOf(b)) == 0
            && r.stats.HashValue(VppvFromMy, ext.minuteOf(b)) == 0
            && r.conn.Members(WhiteListKey) == {}
  {
    ScenarioBPath(ext, b);
    ViewedFromEmptyState(ext, b);
    NewClientBuffered(ViewedFromEmpty(ext, b), ext, b);
  }

  /** The state the white-list stage sees in scenario B: the first three stages' effects on empty stores. */
  function ViewedFromEmpty(ext: Externals, b: AccessLog): World
  {
    var m := ext.minuteOf(b);
    var w1 := AfterUserAgent(EmptyWorld, ext, b);
    w1.(stats := w1.stats.HashIncrby(VppvTotal, m, 1).HashIncrby(CodeCounter(b.httpCode), m, 1))
  }

  /** In scenario B the record passes the first three stages and reaches the white-list stage. */
  lemma ScenarioBPath(ext: Externals, b: AccessLog)
    requires !UaRejected(ext, b)
    requires b.requestUri == "/prop/view/123" && b.httpCode == "200"
    ensures DoFilter(EmptyWorld, ext, b) == WhiteIpFilter(ViewedFromEmpty(ext, b), ext, b)
  {
    var m := ext.minuteOf(b);
    assert HasPrefix(b.requestUri, ViewPrefix);
    assert HasPrefix(b.httpCode, "2");
    var w1 := AfterUserAgent(EmptyWorld, ext, b);
    var w2 := w1.(stats := w1.stats.HashIncrby(VppvTotal, m, 1));
    assert DoFilter(EmptyWorld, ext, b) == URIFilter(w1, ext, b);
    assert URIFilter(w1, ext, b) == HttpCodeFilter(w2, ext, b);
  }

  /** Before the white-list stage in scenario B nothing is white-listed or buffered and the correlation counters are 0. */
  lemma ViewedFromEmptyState(ext: Externals, b: AccessLog)
    ensures var w := ViewedFromEmpty(ext, b);
            var m := ext.minuteOf(b);
            && w.conn.Members(WhiteListKey) == {}
            && w.conn.List(WatchKey(b.remoteAddr)) == []
            && w.stats.HashValue(VppvWatching, m) == 0
            && w.stats.HashValue(VppvEffective, m) == 0
            && w.stats.HashValue(VppvFromMy, m) == 0
  {
    CountersDistinct(b.httpCode);
    KeysDistinct(b.remoteAddr, b.remoteAddr);
  }

  /** A passing search-host request outside /prop/view/ triggers the drain and gives UNKNOWN. */
  lemma TriggerPath(w: World, ext: Externals, c: AccessLog)
    requires !UaRejected(ext, c) && !HasPrefix(c.requestUri, ViewPrefix) && IsSearchHost(c.hostname)
    ensures DoFilter(w, ext, c) == (Unknown, ProcessWatchingList(AfterUserAgent(w, ext, c), ext, c))
  {
  }

  /** After scenario B, the state the trigger request of the same client reaches the drain with. */
  lemma TriggerDrainsB(ext: Externals, b: AccessLog, c: AccessLog)
    requires RoundTrip(ext)
    requires !UaRejected(ext, b)
    requires b.requestUri == "/prop/view/123" && b.httpCode == "200"
    requires c.remoteAddr == b.remoteAddr
    ensures var w2 := AfterUserAgent(DoFilter(EmptyWorld, ext, b).1, ext, c);
            var mb := ext.minuteOf(b);
            && w2.conn.List(WatchKey(b.remoteAddr)) == [ext.serialize(b)]
            && w2.conn.Members(WhiteListKey) == {}
            && w2.stats.HashValue(VppvWatching, mb) == 1
            && w2.stats.HashValue(VppvEffective, mb) == 0
            && w2.stats.HashValue(VppvFromMy, mb) == 0
            && LineMinute(ext, ext.serialize(b)) == mb
            && LineClass(ext, ext.serialize(b)) == ClassifyReferer(b.referer)
  {
    ScenarioB(ext, b);
    CountersDistinct("");
    KeysDistinct(b.remoteAddr, b.remoteAddr);
  }

  /** Resolving a buffer of exactly one record, counter by counter. */
  lemma DrainSingle(w: World, ext: Externals, c: AccessLog, line: string)
    requires w.conn.List(WatchKey(c.remoteAddr)) == [line]
    ensures var r := ProcessWatchingList(w, ext, c);
            var m := LineMinute(ext, line);
            var k := LineClass(ext, line);
            && r.stats.HashValue(VppvWatching, m) == w.stats.HashValue(VppvWatching, m) - 1
            && r.stats.HashValue(VppvEffective, m) == w.stats.HashValue(VppvEffective, m) + (if k == External then 1 else 0)
            && r.stats.HashValue(VppvFromMy, m) == w.stats.HashValue(VppvFromMy, m) + (if k == SelfReferral then 1 else 0)
            && (c.remoteAddr in r.conn.Members(WhiteListKey) <==> c.remoteAddr in w.conn.Members(WhiteListKey) || k == External)
            && r.conn.List(WatchKey(c.remoteAddr)) == []
  {
    var m := LineMinute(ext, line);
    var k := LineClass(ext, line);
    assert [line][1..] == [];
    assert CountMinute(ext, [line], m) == 1;
    assert CountClass(ext, [line], m, External) == (if k == External then 1 else 0);
    assert CountClass(ext, [line], m, SelfReferral) == (if k == SelfReferral then 1 else 0);
    assert CountHuman(ext, [line]) == (if k == External then 1 else 0);
    ProcessWatchingListCounters(w, ext, c);
    ProcessWatchingListKeys(w, ext, c);
  }

  /**
   * Scenario C: when the buffered view came from an outside site, the
   * trigger request moves it from the watching counter to the effective
   * counter of its own minute and white-lists the client.
   */
  lemma ScenarioC(ext: Externals, b: AccessLog, c: AccessLog)
    requires RoundTrip(ext)
    requires !UaRejected(ext, b)
    requires b.requestUri == "/prop/view/123" && b.httpCode == "200" && b.referer == OutsideReferer
    requires c.remoteAddr == b.remoteAddr
    requires !UaRejected(ext, c) && !HasPrefix(c.requestUri, ViewPrefix) && IsSearchHost(c.hostname)
    ensures var (v, r) := DoFilter(DoFilter(EmptyWorld, ext, b).1, ext, c);
            var mb := ext.minuteOf(b);
            && v == Unknown
            && r.stats.HashValue(VppvEffective, mb) == 1
            && r.stats.HashValue(VppvWatching, mb) == 0
            && b.remoteAddr in r.conn.Members(WhiteListKey)
            && r.conn.List(WatchKey(b.remoteAddr)) == []
  {
    var w1 := DoFilter(EmptyWorld, ext, b).1;
    var w2 := AfterUserAgent(w1, ext, c);
    TriggerPath(w1, ext, c);
    TriggerDrainsB(ext, b, c);
    OutsideRefererIsExternal();
    DrainSingle(w2, ext, c, ext.serialize(b));
  }

  /**
   * Scenario D: when the buffered view came from the site's own member
   * area, the effective counter does not move, the from-my counter of its
   * minute becomes 1 and the client is not white-listed.
   */
  lemma ScenarioD(ext: Externals, b: AccessLog, c: AccessLog)
    requires RoundTrip(ext)
    requires !UaRejected(ext, b)
    requires b.requestUri == "/prop/view/123" && b.httpCode == "200" && b.referer == OwnReferer
    requires c.remoteAddr == b.remoteAddr
    requires !UaRejected(ext, c) && !HasPrefix(c.requestUri, ViewPrefix) && IsSearchHost(c.hostname)
    ensures var (v, r) := DoFilter(DoFilter(EmptyWorld, ext, b).1, ext, c);
            var mb := ext.minuteOf(b);
            && v == Unknown
            && r.stats.HashValue(VppvEffective, mb) == 0
            && r.stats.HashValue(VppvFromMy, mb) == 1
            && r.stats.HashValue(VppvWatching, mb) == 0
            && b.remoteAddr !in r.conn.Members(WhiteListKey)
  {
    var w1 := DoFilter(EmptyWorld, ext, b).1;
    var w2 := AfterUserAgent(w1, ext, c);
    TriggerPath(w1, ext, c);
    TriggerDrainsB(ext, b, c);
    OwnRefererIsSelfReferral();
    DrainSingle(w2, ext, c, ext.serialize(b));
  }

  /**
   * Two buffered views of one client sit newest first, so the drain, which
   * takes the left end first, judges the later view before the earlier one.
   */
  lemma BufferNewestFirst(w: World, ext: Externals, first: AccessLog, second: AccessLog)
    requires first.remoteAddr == second.remoteAddr
    ensures var key := WatchKey(first.remoteAddr);
            AddWatchingList(AddWatchingList(w, ext, first), ext, second).conn.List(key)
            == [ext.serialize(second), ext.serialize(first)] + w.conn.List(key)
  {
  }
}
