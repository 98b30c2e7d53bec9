/**
 * Properties of the classification cascade, stage by stage, and of one
 * iteration of the loop in Filter.
 */
module Stages {
  import opened GoStrings
  import opened Redis
  import opened FilterSpec
  import opened Correlation

  /** `r` differs from `s` at most in the counter fields listed in `changed`, and not in sets or lists. */
  ghost predicate CountersOnly(s: Store, r: Store, changed: set<(string, string)>)
  {
    && r.sets == s.sets && r.lists == s.lists
    && forall h, f :: (h, f) !in changed ==> r.HashValue(h, f) == s.HashValue(h, f)
  }

  /**
   * A user agent that is "-", contains "bot" or "spider" in lower case, or
   * is not recognised by the classifier gives NO; the only change is one
   * more ua_not_pass at the record's minute.
   */
  lemma UserAgentRejected(w: World, ext: Externals, log: AccessLog)
    requires UaRejected(ext, log)
    ensures var (v, r) := DoFilter(w, ext, log);
            var m := ext.minuteOf(log);
            && v == No
            && r.conn == w.conn
            && r.stats.HashValue(UaNotPass, m) == w.stats.HashValue(UaNotPass, m) + 1
            && CountersOnly(w.stats, r.stats, {(UaNotPass, m)})
  {
  }

  /**
   * What the user-agent stage does on a pass: ua_pass of the minute and
   * ua_statistic of the lower-cased family each go up by one, the client
   * joins RefererList and the page URL joins the client's Referer_ set.
   */
  lemma AfterUserAgentEffects(w: World, ext: Externals, log: AccessLog)
    ensures var m := ext.minuteOf(log);
            var family := ToLower(ext.uaFamily(log.userAgent));
            var addr := log.remoteAddr;
            var w1 := AfterUserAgent(w, ext, log);
            && w1.stats.HashValue(UaPass, m) == w.stats.HashValue(UaPass, m) + 1
            && w1.stats.HashValue(UaStatistic, family) == w.stats.HashValue(UaStatistic, family) + 1
            && CountersOnly(w.stats, w1.stats, {(UaPass, m), (UaStatistic, family)})
            && w1.conn.Members(RefererListKey) == w.conn.Members(RefererListKey) + {addr}
            && w1.conn.Members(RefererKey(addr)) == w.conn.Members(RefererKey(addr)) + {"http://" + log.hostname + log.requestUri}
            && (forall k :: k != RefererListKey && k != RefererKey(addr) ==> w1.conn.Members(k) == w.conn.Members(k))
            && w1.conn.lists == w.conn.lists && w1.conn.hashes == w.conn.hashes
  {
    var m := ext.minuteOf(log);
    var family := ToLower(ext.uaFamily(log.userAgent));
    KeysDistinct(log.remoteAddr, log.remoteAddr);
    CountersDistinct("");
    var addr := log.remoteAddr;
    var s1 := w.stats.HashIncrby(UaPass, m, 1);
    var s2 := s1.HashIncrby(UaStatistic, family, 1);
    var c1 := w.conn.SetAdd(RefererListKey, addr);
    var c2 := c1.SetAdd(RefererKey(addr), "http://" + log.hostname + log.requestUri);
    assert s2.HashValue(UaPass, m) == w.stats.HashValue(UaPass, m) + 1;
    assert CountersOnly(w.stats, s2, {(UaPass, m), (UaStatistic, family)});
    assert c2.Members(RefererListKey) == w.conn.Members(RefererListKey) + {addr};
  }

  /**
   * A user agent that passes: the verdict and final state are those of the
   * URI stage run on the state the user-agent stage leaves, whose effects
   * are those of AfterUserAgentEffects.
   */
  lemma UserAgentPassed(w: World, ext: Externals, log: AccessLog)
    requires !UaRejected(ext, log)
    ensures var m := ext.minuteOf(log);
            var family := ToLower(ext.uaFamily(log.userAgent));
            var addr := log.remoteAddr;
            exists w1: World ::
              && DoFilter(w, ext, log) == URIFilter(w1, ext, log)
              && w1.stats.HashValue(UaPass, m) == w.stats.HashValue(UaPass, m) + 1
              && w1.stats.HashValue(UaStatistic, family) == w.stats.HashValue(UaStatistic, family) + 1
              && CountersOnly(w.stats, w1.stats, {(UaPass, m), (UaStatistic, family)})
              && w1.conn.Members(RefererListKey) == w.conn.Members(RefererListKey) + {addr}
              && w1.conn.Members(RefererKey(addr)) == w.conn.Members(RefererKey(addr)) + {"http://" + log.hostname + log.requestUri}
              && (forall k :: k != RefererListKey && k != RefererKey(addr) ==> w1.conn.Members(k) == w.conn.Members(k))
              && w1.conn.lists == w.conn.lists && w1.conn.hashes == w.conn.hashes
  {
    var w1 := AfterUserAgent(w, ext, log);
    AfterUserAgentEffects(w, ext, log);
    assert DoFilter(w, ext, log) == URIFilter(w1, ext, log);
  }

  /**
   * A request path outside /prop/view/ gives UNKNOWN and leaves vppv_total
   * alone; it resolves the client's buffer exactly when the host matches
   * the confirmation pattern, and otherwise changes nothing.
   */
  lemma NonViewPage(w: World, ext: Externals, log: AccessLog)
    requires !HasPrefix(log.requestUri, ViewPrefix)
    ensures URIFilter(w, ext, log).0 == Unknown
    ensures IsSearchHost(log.hostname) ==> URIFilter(w, ext, log).1 == ProcessWatchingList(w, ext, log)
    ensures !IsSearchHost(log.hostname) ==> URIFilter(w, ext, log).1 == w
    ensures forall f :: URIFilter(w, ext, log).1.stats.HashValue(VppvTotal, f) == w.stats.HashValue(VppvTotal, f)
  {
    ProcessWatchingListCounters(w, ext, log);
  }

  /** A /prop/view/ page: vppv_total of the minute goes up by one and the status stage decides. */
  lemma ViewPage(w: World, ext: Externals, log: AccessLog)
    requires HasPrefix(log.requestUri, ViewPrefix)
    ensures var m := ext.minuteOf(log);
            exists w1: World ::
              && URIFilter(w, ext, log) == HttpCodeFilter(w1, ext, log)
              && w1.conn == w.conn
              && w1.stats.HashValue(VppvTotal, m) == w.stats.HashValue(VppvTotal, m) + 1
              && CountersOnly(w.stats, w1.stats, {(VppvTotal, m)})
  {
    var m := ext.minuteOf(log);
    var w1 := w.(stats := w.stats.HashIncrby(VppvTotal, m, 1));
    assert URIFilter(w, ext, log) == HttpCodeFilter(w1, ext, log);
    assert w1.stats.HashValue(VppvTotal, m) == w.stats.HashValue(VppvTotal, m) + 1;
    assert CountersOnly(w.stats, w1.stats, {(VppvTotal, m)});
  }

  /**
   * The status stage counts the status exactly once, at the record's
   * minute; a status not starting with 2 gives UNKNOWN with no other change.
   */
  lemma HttpCodeCounted(w: World, ext: Externals, log: AccessLog)
    ensures var (v, r) := HttpCodeFilter(w, ext, log);
            var m := ext.minuteOf(log);
            var code := CodeCounter(log.httpCode);
            && (forall f :: r.stats.HashValue(code, f) == w.stats.HashValue(code, f) + (if f == m then 1 else 0))
            && (!HasPrefix(log.httpCode, "2") ==> v == Unknown && r.conn == w.conn && CountersOnly(w.stats, r.stats, {(code, m)}))
  {
    CountersDistinct(log.httpCode);
  }

  /** A white-listed client is human at once: YES, and nothing changes. */
  lemma WhiteListedClient(w: World, ext: Externals, log: AccessLog)
    requires log.remoteAddr in w.conn.Members(WhiteListKey)
    ensures WhiteIpFilter(w, ext, log) == (Yes, w)
  {
  }

  /**
   * Any other client is buffered: UNKNOWN, the client joins WatchingList,
   * its buffer grows by exactly one record at the left end, and
   * vppv_watching of the minute goes up by one. Nothing else changes.
   */
  lemma NewClientBuffered(w: World, ext: Externals, log: AccessLog)
    requires log.remoteAddr !in w.conn.Members(WhiteListKey)
    ensures var (v, r) := WhiteIpFilter(w, ext, log);
            var addr := log.remoteAddr;
            var m := ext.minuteOf(log);
            && v == Unknown
            && r.conn.Members(WatchingListKey) == w.conn.Members(WatchingListKey) + {addr}
            && (forall k :: k != WatchingListKey ==> r.conn.Members(k) == w.conn.Members(k))
            && r.conn.List(WatchKey(addr)) == [ext.serialize(log)] + w.conn.List(WatchKey(addr))
            && |r.conn.List(WatchKey(addr))| == |w.conn.List(WatchKey(addr))| + 1
            && (forall k :: k != WatchKey(addr) ==> r.conn.List(k) == w.conn.List(k))
            && r.stats.HashValue(VppvWatching, m) == w.stats.HashValue(VppvWatching, m) + 1
            && CountersOnly(w.stats, r.stats, {(VppvWatching, m)})
  {
  }

  /**
   * The verdict of the whole cascade: NO exactly when the user agent is
   * rejected, YES exactly when it passes, the page is a /prop/view/ page,
   * the status is 2xx and the client is already white-listed, and UNKNOWN
   * otherwise.
   */
  lemma DoFilterVerdict(w: World, ext: Externals, log: AccessLog)
    ensures var v := DoFilter(w, ext, log).0;
            && (v == No <==> UaRejected(ext, log))
            && (v == Yes <==>
                  && !UaRejected(ext, log)
                  && HasPrefix(log.requestUri, ViewPrefix)
                  && HasPrefix(log.httpCode, "2")
                  && log.remoteAddr in w.conn.Members(WhiteListKey))
  {
    KeysDistinct(log.remoteAddr, log.remoteAddr);
  }

  /**
   * A 2xx /prop/view/ request with a passing user agent from a white-listed
   * client is human and buffers nothing: lists and the watching counter
   * are as before.
   */
  lemma WhiteListedViewIsHuman(w: World, ext: Externals, log: AccessLog)
    requires !UaRejected(ext, log)
    requires HasPrefix(log.requestUri, ViewPrefix) && HasPrefix(log.httpCode, "2")
    requires log.remoteAddr in w.conn.Members(WhiteListKey)
    ensures var (v, r) := DoFilter(w, ext, log);
            && v == Yes
            && r.conn.lists == w.conn.lists
            && forall f :: r.stats.HashValue(VppvWatching, f) == w.stats.HashValue(VppvWatching, f)
  {
    KeysDistinct(log.remoteAddr, log.remoteAddr);
    CountersDistinct(log.httpCode);
  }

  /** The counters DoFilter may change for a record with status `code`. */
  predicate FilterCounter(h: string, code: string)
  {
    h in {UaNotPass, UaPass, UaStatistic, VppvTotal, CodeCounter(code)} || DrainCounter(h)
  }

  /** DoFilter never touches a counter outside the ones its stages name. */
  lemma DoFilterCounterFrame(w: World, ext: Externals, log: AccessLog, h: string)
    requires !FilterCounter(h, log.httpCode)
    ensures forall f :: DoFilter(w, ext, log).1.stats.HashValue(h, f) == w.stats.HashValue(h, f)
  {
    var m := ext.minuteOf(log);
    if !UaRejected(ext, log) {
      var w1 := AfterUserAgent(w, ext, log);
      if HasPrefix(log.requestUri, ViewPrefix) {
        var w2 := w1.(stats := w1.stats.HashIncrby(VppvTotal, m, 1));
        var w3 := w2.(stats := w2.stats.HashIncrby(CodeCounter(log.httpCode), m, 1));
        assert HttpCodeFilter(w2, ext, log).1 == WhiteIpFilter(w3, ext, log).1 || HttpCodeFilter(w2, ext, log).1 == w3;
      } else if IsSearchHost(log.hostname) {
        ProcessWatchingListCounters(w1, ext, log);
      }
    }
  }

  /** A YES verdict never comes with a resolution, so DoFilter leaves vppv_effective alone then. */
  lemma YesLeavesEffective(w: World, ext: Externals, log: AccessLog)
    requires DoFilter(w, ext, log).0 == Yes
    ensures forall f :: DoFilter(w, ext, log).1.stats.HashValue(VppvEffective, f) == w.stats.HashValue(VppvEffective, f)
  {
    CountersDistinct(log.httpCode);
    DoFilterVerdict(w, ext, log);
  }

  /** The shape of one iteration on a non-empty line: DoFilter after the total_request count, then the YES count. */
  lemma IterationUnfold(w: World, ext: Externals, line: string)
    requires line != ""
    ensures var log := ext.getLog(line);
            var m := ext.minuteOf(log);
            var res := DoFilter(w.(stats := w.stats.HashIncrby(TotalRequest, m, 1)), ext, log);
            FilterIteration(w, ext, line) ==
              if res.0 == Yes then res.1.(stats := res.1.stats.HashIncrby(VppvEffective, m, 1)) else res.1
  {
  }

  /** One iteration on a non-empty line: total_request of the record's minute goes up by exactly one. */
  lemma IterationTotal(w: World, ext: Externals, line: string)
    requires line != ""
    ensures var m := ext.minuteOf(ext.getLog(line));
            forall f :: FilterIteration(w, ext, line).stats.HashValue(TotalRequest, f)
                        == w.stats.HashValue(TotalRequest, f) + (if f == m then 1 else 0)
  {
    var log := ext.getLog(line);
    var m := ext.minuteOf(log);
    var w0 := w.(stats := w.stats.HashIncrby(TotalRequest, m, 1));
    var res := DoFilter(w0, ext, log);
    IterationUnfold(w, ext, line);
    CountersDistinct(log.httpCode);
    DoFilterCounterFrame(w0, ext, log, TotalRequest);
    if res.0 == Yes {
      var r := res.1.(stats := res.1.stats.HashIncrby(VppvEffective, m, 1));
      assert forall f :: r.stats.HashValue(TotalRequest, f) == res.1.stats.HashValue(TotalRequest, f);
    }
  }

  /** One iteration on a non-empty line whose verdict is YES: vppv_effective of the record's minute goes up by exactly one in all. */
  lemma IterationEffective(w: World, ext: Externals, line: string)
    requires line != ""
    ensures var log := ext.getLog(line);
            var m := ext.minuteOf(log);
            var res := DoFilter(w.(stats := w.stats.HashIncrby(TotalRequest, m, 1)), ext, log);
            res.0 == Yes ==>
              forall f :: FilterIteration(w, ext, line).stats.HashValue(VppvEffective, f)
                          == w.stats.HashValue(VppvEffective, f) + (if f == m then 1 else 0)
  {
    var log := ext.getLog(line);
    var m := ext.minuteOf(log);
    var w0 := w.(stats := w.stats.HashIncrby(TotalRequest, m, 1));
    var res := DoFilter(w0, ext, log);
    IterationUnfold(w, ext, line);
    if res.0 == Yes {
      CountersDistinct(log.httpCode);
      YesLeavesEffective(w0, ext, log);
      assert forall f :: w0.stats.HashValue(VppvEffective, f) == w.stats.HashValue(VppvEffective, f);
    }
  }

  /**
   * One iteration of the loop in Filter on a non-empty line: total_request
   * of the record's minute goes up by exactly one; if DoFilter says YES,
   * vppv_effective of that minute goes up by exactly one in all, and
   * otherwise the iteration adds nothing to what DoFilter did.
   */
  lemma IterationCounters(w: World, ext: Externals, line: string)
    requires line != ""
    ensures var log := ext.getLog(line);
            var m := ext.minuteOf(log);
            var r := FilterIteration(w, ext, line);
            var res := DoFilter(w.(stats := w.stats.HashIncrby(TotalRequest, m, 1)), ext, log);
            && (forall f :: r.stats.HashValue(TotalRequest, f) == w.stats.HashValue(TotalRequest, f) + (if f == m then 1 else 0))
            && (res.0 == Yes ==> forall f :: r.stats.HashValue(VppvEffective, f) ==
                                            w.stats.HashValue(VppvEffective, f) + (if f == m then 1 else 0))
            && (res.0 != Yes ==> r == res.1)
  {
    IterationUnfold(w, ext, line);
    IterationTotal(w, ext, line);
    IterationEffective(w, ext, line);
  }

  /** An empty line (a timed-out pop) changes nothing. */
  lemma EmptyLineIsNoOp(w: World, ext: Externals)
    ensures FilterIteration(w, ext, "") == w
  {
  }
}
