/**
 * The meaning of every function of the filter, as a function from the state
 * of the two stores before the call to the verdict and the state after it.
 * The imperative versions in module Filter are proved to compute exactly
 * these; the properties are proved about these in Stages, Correlation,
 * Invariants and Scenarios.
 */
module FilterSpec {
  import opened GoStrings
  import opened Redis

  /** The three classification results: YES (a human), NO (not a human), UNKNOWN. */
  datatype Verdict = Yes | No | Unknown

  /** One parsed access-log record. The filter only reads it. */
  datatype AccessLog = AccessLog(
    remoteAddr: string,
    hostname: string,
    requestUri: string,
    httpCode: string,
    userAgent: string,
    referer: string,
    guid: string,
    logTime: string)

  /**
   * The collaborators whose code is not part of this model, as
   * uninterpreted total functions: `getLog` parses a raw line (GetLog),
   * `serialize` turns a record back into a line (AccessLog.String),
   * `minuteOf` gives the minute bucket of a record (LogTimeMinString) and
   * `uaFamily` is the user-agent classifier (Parse, "" when unrecognised).
   */
  datatype Externals = Externals(
    getLog: string -> AccessLog,
    serialize: AccessLog -> string,
    minuteOf: AccessLog -> string,
    uaFamily: string -> string)

  /**
   * The assumption the correlation engine rests on: re-parsing a buffered
   * record gives back its referer and its minute.
   */
  ghost predicate RoundTrip(ext: Externals)
  {
    forall a: AccessLog ::
      && ext.getLog(ext.serialize(a)).referer == a.referer
      && ext.minuteOf(ext.getLog(ext.serialize(a))) == ext.minuteOf(a)
  }

  /** The two stores the filter writes: `conn` holds the sets and lists, `stats` the counters. */
  datatype World = World(conn: Store, stats: Store)

  const EmptyWorld: World := World(EmptyStore, EmptyStore)

  // Counter hashes; each is keyed by minute except the UA statistic, keyed by family.
  const TotalRequest: string := "accesslog_result_total_request_per_min"
  const VppvEffective: string := "accesslog_result_vppv_effective_per_min"
  const UaNotPass: string := "accesslog_result_ua_not_pass_per_min"
  const UaPass: string := "accesslog_result_ua_pass_per_min"
  const UaStatistic: string := "accesslog_result_ua_statistic"
  const VppvTotal: string := "accesslog_result_vppv_total_per_min"
  const VppvWatching: string := "accesslog_result_vppv_watching_per_min"
  const VppvFromMy: string := "accesslog_result_vppv_from_my_per_min"
  const VppvNoReferer: string := "accesslog_result_vppv_no_referer_per_min"

  /** The per-status counter `accesslog_result_vppv_code_<status>_per_min`. */
  function CodeCounter(code: string): string
  {
    "accesslog_result_vppv_code_" + code + "_per_min"
  }

  // Set and list keys.
  const WhiteListKey: string := "WhiteList"
  const WatchingListKey: string := "WatchingList"
  const RefererListKey: string := "RefererList"

  /** The set of page URLs a client has requested. */
  function RefererKey(addr: string): string
  {
    "Referer_" + addr
  }

  /** The per-client buffer of ambiguous page views. */
  function WatchKey(addr: string): string
  {
    "WL_" + addr
  }

  /** No per-client key collides with a fixed set name or with another client's key of the other kind. */
  lemma KeysDistinct(a: string, b: string)
    ensures RefererKey(a) !in {WhiteListKey, WatchingListKey, RefererListKey, WatchKey(b)}
    ensures WatchKey(a) !in {WhiteListKey, WatchingListKey, RefererListKey}
    ensures WhiteListKey != WatchingListKey && WhiteListKey != RefererListKey && WatchingListKey != RefererListKey
  {
    assert RefererKey(a)[0] == 'R' && RefererKey(a)[7] == '_' && WatchKey(b)[0] == 'W';
    assert WatchKey(a)[1] == 'L';
  }

  /** The counters are nine distinct hashes, and no status counter is one of them. */
  lemma CountersDistinct(code: string)
    ensures TotalRequest != VppvEffective && TotalRequest != UaNotPass && TotalRequest != UaPass && TotalRequest != UaStatistic
         && TotalRequest != VppvTotal && TotalRequest != VppvWatching && TotalRequest != VppvFromMy && TotalRequest != VppvNoReferer
    ensures VppvEffective != UaNotPass && VppvEffective != UaPass && VppvEffective != UaStatistic && VppvEffective != VppvTotal
         && VppvEffective != VppvWatching && VppvEffective != VppvFromMy && VppvEffective != VppvNoReferer
    ensures UaNotPass != UaPass && UaNotPass != UaStatistic && UaNotPass != VppvTotal && UaNotPass != VppvWatching
         && UaNotPass != VppvFromMy && UaNotPass != VppvNoReferer
    ensures UaPass != UaStatistic && UaPass != VppvTotal && UaPass != VppvWatching && UaPass != VppvFromMy
         && UaPass != VppvNoReferer
    ensures UaStatistic != VppvTotal && UaStatistic != VppvWatching && UaStatistic != VppvFromMy && UaStatistic != VppvNoReferer
    ensures VppvTotal != VppvWatching && VppvTotal != VppvFromMy && VppvTotal != VppvNoReferer
    ensures VppvWatching != VppvFromMy && VppvWatching != VppvNoReferer
    ensures VppvFromMy != VppvNoReferer
    ensures CodeCounter(code) != TotalRequest && CodeCounter(code) != VppvEffective && CodeCounter(code) != UaNotPass
    ensures CodeCounter(code) != UaPass && CodeCounter(code) != UaStatistic && CodeCounter(code) != VppvTotal
    ensures CodeCounter(code) != VppvWatching && CodeCounter(code) != VppvFromMy && CodeCounter(code) != VppvNoReferer
  {
    assert TotalRequest[17] == 't' && VppvWatching[17] == 'v';
    assert CodeCounter(code)[17] == 'v' && CodeCounter(code)[22] == 'c';
  }

  /** The user-agent test of UserAgentFilter: "-", a bot or spider marker, or a family the classifier does not know. */
  predicate UaRejected(ext: Externals, log: AccessLog)
  {
    var ua := ToLower(log.userAgent);
    || log.userAgent == "-"
    || Contains(ua, "bot")
    || Contains(ua, "spider")
    || ext.uaFamily(log.userAgent) == ""
  }

  /** DoFilter: the stage cascade starts with the user-agent stage. */
  function DoFilter(w: World, ext: Externals, log: AccessLog): (Verdict, World)
  {
    UserAgentFilter(w, ext, log)
  }

  /** UserAgentFilter: reject on the user agent, or count it, record the client's page and go on to the URI stage. */
  function UserAgentFilter(w: World, ext: Externals, log: AccessLog): (Verdict, World)
  {
    var m := ext.minuteOf(log);
    if UaRejected(ext, log) then
      (No, w.(stats := w.stats.HashIncrby(UaNotPass, m, 1)))
    else
      URIFilter(AfterUserAgent(w, ext, log), ext, log)
  }

  /** The state a request that passes the user-agent stage hands on to the URI stage. */
  function AfterUserAgent(w: World, ext: Externals, log: AccessLog): World
  {
    var family := ToLower(ext.uaFamily(log.userAgent));
    World(AddRefererList(w.conn, log), w.stats.HashIncrby(UaPass, ext.minuteOf(log), 1).HashIncrby(UaStatistic, family, 1))
  }

  /** URIFilter: property-view pages go on to the status stage; any other page may trigger the correlation. */
  function URIFilter(w: World, ext: Externals, log: AccessLog): (Verdict, World)
  {
    if HasPrefix(log.requestUri, ViewPrefix) then
      HttpCodeFilter(w.(stats := w.stats.HashIncrby(VppvTotal, ext.minuteOf(log), 1)), ext, log)
    else
      (Unknown, Analysis(w, ext, log))
  }

  /** HttpCodeFilter: count the status, then only 2xx answers go on to the white-list stage. */
  function HttpCodeFilter(w: World, ext: Externals, log: AccessLog): (Verdict, World)
  {
    var w1 := w.(stats := w.stats.HashIncrby(CodeCounter(log.httpCode), ext.minuteOf(log), 1));
    if HasPrefix(log.httpCode, "2") then WhiteIpFilter(w1, ext, log) else (Unknown, w1)
  }

  /** WhiteIpFilter: a white-listed client is human; any other is buffered for later correlation. */
  function WhiteIpFilter(w: World, ext: Externals, log: AccessLog): (Verdict, World)
  {
    if log.remoteAddr in w.conn.Members(WhiteListKey) then (Yes, w)
    else (Unknown, AddWatchingList(w, ext, log))
  }

  /** AddRefererList: remember the client and the URL of the page it requested. */
  function AddRefererList(conn: Store, log: AccessLog): Store
  {
    var addr := log.remoteAddr;
    conn.SetAdd(RefererListKey, addr).SetAdd(RefererKey(addr), "http://" + log.hostname + log.requestUri)
  }

  /** DelRefererList: forget the client and its page URLs. */
  function DelRefererList(conn: Store, log: AccessLog): Store
  {
    var addr := log.remoteAddr;
    conn.SetRem(RefererListKey, addr).KeyDel(RefererKey(addr))
  }

  /** AddWatchingList: count the ambiguous view at its minute and buffer it at the left end of the client's list. */
  function AddWatchingList(w: World, ext: Externals, log: AccessLog): World
  {
    var addr := log.remoteAddr;
    World(
      w.conn.SetAdd(WatchingListKey, addr).ListLeftPush(WatchKey(addr), ext.serialize(log)),
      w.stats.HashIncrby(VppvWatching, ext.minuteOf(log), 1))
  }

  /** DelWatchingList: the client is no longer watched and its buffer is gone. */
  function DelWatchingList(conn: Store, log: AccessLog): Store
  {
    var addr := log.remoteAddr;
    conn.SetRem(WatchingListKey, addr).KeyDel(WatchKey(addr))
  }

  /** AddWhiteList: the client is confirmed human. */
  function AddWhiteList(conn: Store, log: AccessLog): Store
  {
    conn.SetAdd(WhiteListKey, log.remoteAddr)
  }

  /** Analysis: a request to the confirmation origin resolves the client's buffer. */
  function Analysis(w: World, ext: Externals, log: AccessLog): World
  {
    if IsSearchHost(log.hostname) then ProcessWatchingList(w, ext, log) else w
  }

  /** The three outcomes of RefererFilter, by the referer alone. */
  datatype RefererClass = SelfReferral | NoReferer | External

  function ClassifyReferer(referer: string): RefererClass
  {
    if Contains(referer, "my.anjuke.com") then SelfReferral
    else if referer != "-" then External
    else NoReferer
  }

  /** RefererFilter: the verdict on a buffered record, with the self-referral and no-referer counters. */
  function RefererFilter(stats: Store, ext: Externals, log: AccessLog): (Verdict, Store)
  {
    var m := ext.minuteOf(log);
    match ClassifyReferer(log.referer)
    case SelfReferral => (No, stats.HashIncrby(VppvFromMy, m, 1))
    case External => (Yes, stats)
    case NoReferer => (No, stats.HashIncrby(VppvNoReferer, m, 1))
  }

  /**
   * One round of the drain loop of ProcessWatchingList on a popped line:
   * the counters after it and whether the record was judged human.
   */
  function DrainEntry(stats: Store, ext: Externals, line: string): (Store, bool)
  {
    var watch := ext.getLog(line);
    var m := ext.minuteOf(watch);
    var (v, s1) := RefererFilter(stats, ext, watch);
    var s2 := if v == Yes then s1.HashIncrby(VppvEffective, m, 1) else s1;
    (s2.HashIncrby(VppvWatching, m, -1), v == Yes)
  }

  /** The drain loop over `entries` in list order (left end first), threading the counters and the trust flag. */
  function Drain(stats: Store, ext: Externals, entries: seq<string>, trust: bool): (Store, bool)
    decreases |entries|
  {
    if entries == [] then (stats, trust)
    else
      var (s, yes) := DrainEntry(stats, ext, entries[0]);
      Drain(s, ext, entries[1..], trust || yes)
  }

  /** The drain of a non-empty buffer is one round on its left end followed by the drain of the rest. */
  lemma DrainUnfold(stats: Store, ext: Externals, entries: seq<string>, trust: bool)
    requires entries != []
    ensures Drain(stats, ext, entries, trust)
            == Drain(DrainEntry(stats, ext, entries[0]).0, ext, entries[1..], trust || DrainEntry(stats, ext, entries[0]).1)
  {
  }

  /**
   * ProcessWatchingList: drain the client's buffer, then delete it and the
   * client's page URLs, and white-list the client if some buffered view
   * was judged human. The pops that empty the buffer are not visible here:
   * the DEL that follows removes the key either way.
   */
  function ProcessWatchingList(w: World, ext: Externals, log: AccessLog): World
  {
    var (stats, trust) := Drain(w.stats, ext, w.conn.List(WatchKey(log.remoteAddr)), false);
    World(Cleanup(w.conn, log, trust), stats)
  }

  /** The deletions at the end of ProcessWatchingList, then the white-listing if the trust flag is set. */
  function Cleanup(conn: Store, log: AccessLog, trust: bool): Store
  {
    var c := DelRefererList(DelWatchingList(conn, log), log);
    if trust then AddWhiteList(c, log) else c
  }

  /** One iteration of the loop in Filter on a dequeued line ("" is a timeout and does nothing). */
  function FilterIteration(w: World, ext: Externals, line: string): World
  {
    if line == "" then w
    else
      var log := ext.getLog(line);
      var m := ext.minuteOf(log);
      var (v, w1) := DoFilter(w.(stats := w.stats.HashIncrby(TotalRequest, m, 1)), ext, log);
      if v == Yes then w1.(stats := w1.stats.HashIncrby(VppvEffective, m, 1)) else w1
  }

  /** The loop in Filter run over a sequence of dequeued lines. */
  function FilterRun(w: World, ext: Externals, lines: seq<string>): World
    decreases |lines|
  {
    if lines == [] then w else FilterRun(FilterIteration(w, ext, lines[0]), ext, lines[1..])
  }
}
