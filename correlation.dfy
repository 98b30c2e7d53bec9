/**
 * What resolving a client's watching list does to the counters and the
 * sets: closed forms for the drain loop of ProcessWatchingList, and the
 * three outcomes of RefererFilter.
 */
module Correlation {
  import opened GoStrings
  import opened Redis
  import opened FilterSpec

  /** The minute of a buffered line, as the drain loop computes it. */
  function LineMinute(ext: Externals, line: string): string
  {
    ext.minuteOf(ext.getLog(line))
  }

  /** The referer class of a buffered line. */
  function LineClass(ext: Externals, line: string): RefererClass
  {
    ClassifyReferer(ext.getLog(line).referer)
  }

  /** How many buffered lines fall in minute `m`. */
  function CountMinute(ext: Externals, entries: seq<string>, m: string): nat
    decreases |entries|
  {
    if entries == [] then 0
    else (if LineMinute(ext, entries[0]) == m then 1 else 0) + CountMinute(ext, entries[1..], m)
  }

  /** How many buffered lines fall in minute `m` and have referer class `c`. */
  function CountClass(ext: Externals, entries: seq<string>, m: string, c: RefererClass): nat
    decreases |entries|
  {
    if entries == [] then 0
    else
      (if LineMinute(ext, entries[0]) == m && LineClass(ext, entries[0]) == c then 1 else 0)
      + CountClass(ext, entries[1..], m, c)
  }

  /** How many buffered lines RefererFilter judges human, whatever their minute. */
  function CountHuman(ext: Externals, entries: seq<string>): nat
    decreases |entries|
  {
    if entries == [] then 0
    else (if LineClass(ext, entries[0]) == External then 1 else 0) + CountHuman(ext, entries[1..])
  }

  /** The minutes at which the drain decrements the watching counter, one per line. */
  function DecrementMinutes(ext: Externals, entries: seq<string>): multiset<string>
    decreases |entries|
  {
    if entries == [] then multiset{} else multiset{LineMinute(ext, entries[0])} + DecrementMinutes(ext, entries[1..])
  }

  /** The minutes at which the drain increments the effective counter, one per line judged human. */
  function EffectiveMinutes(ext: Externals, entries: seq<string>): multiset<string>
    decreases |entries|
  {
    if entries == [] then multiset{}
    else (if LineClass(ext, entries[0]) == External then multiset{LineMinute(ext, entries[0])} else multiset{})
         + EffectiveMinutes(ext, entries[1..])
  }

  /** The counters the drain can change. */
  predicate DrainCounter(ht: string)
  {
    ht == VppvWatching || ht == VppvEffective || ht == VppvFromMy || ht == VppvNoReferer
  }

  /**
   * RefererFilter has exactly three outcomes: a referer containing
   * `my.anjuke.com` is NO and counted as from-my, otherwise `-` is NO and
   * counted as no-referer, otherwise YES with no counter change.
   */
  lemma RefererOutcomes(stats: Store, ext: Externals, log: AccessLog)
    ensures var (v, s) := RefererFilter(stats, ext, log);
            var m := ext.minuteOf(log);
            && (Contains(log.referer, "my.anjuke.com") ==> v == No && s == stats.HashIncrby(VppvFromMy, m, 1))
            && (!Contains(log.referer, "my.anjuke.com") && log.referer == "-" ==>
                  v == No && s == stats.HashIncrby(VppvNoReferer, m, 1))
            && (!Contains(log.referer, "my.anjuke.com") && log.referer != "-" ==> v == Yes && s == stats)
  {
  }

  /** One round of the drain loop, counter by counter. */
  lemma DrainEntryCounters(stats: Store, ext: Externals, line: string)
    ensures var (s, yes) := DrainEntry(stats, ext, line);
            var m := LineMinute(ext, line);
            var c := LineClass(ext, line);
            && s.sets == stats.sets && s.lists == stats.lists
            && yes == (c == External)
            && (forall f :: s.HashValue(VppvWatching, f) == stats.HashValue(VppvWatching, f) - (if f == m then 1 else 0))
            && (forall f :: s.HashValue(VppvEffective, f) ==
                  stats.HashValue(VppvEffective, f) + (if f == m && c == External then 1 else 0))
            && (forall f :: s.HashValue(VppvFromMy, f) ==
                  stats.HashValue(VppvFromMy, f) + (if f == m && c == SelfReferral then 1 else 0))
            && (forall f :: s.HashValue(VppvNoReferer, f) ==
                  stats.HashValue(VppvNoReferer, f) + (if f == m && c == NoReferer then 1 else 0))
            && (forall h, f :: !DrainCounter(h) ==> s.HashValue(h, f) == stats.HashValue(h, f))
  {
    CountersDistinct("");
  }

  /**
   * The drain loop over N buffered lines: the watching counter of each
   * minute drops by the number of lines of that minute, only the four drain
   * counters move, and the trust flag ends up set iff it was set or some
   * line was judged human.
   */
  lemma {:induction false} DrainWatching(stats: Store, ext: Externals, entries: seq<string>, trust: bool)
    ensures var (s, t) := Drain(stats, ext, entries, trust);
            && s.sets == stats.sets && s.lists == stats.lists
            && (forall m :: s.HashValue(VppvWatching, m) == stats.HashValue(VppvWatching, m) - CountMinute(ext, entries, m))
            && (forall h, f :: !DrainCounter(h) ==> s.HashValue(h, f) == stats.HashValue(h, f))
            && t == (trust || CountHuman(ext, entries) > 0)
    decreases |entries|
  {
    if entries != [] {
      var (s1, yes) := DrainEntry(stats, ext, entries[0]);
      DrainEntryCounters(stats, ext, entries[0]);
      DrainWatching(s1, ext, entries[1..], trust || yes);
    }
  }

  /**
   * The drain loop over N buffered lines: the effective, from-my and
   * no-referer counters of each minute rise by the number of lines of that
   * minute with the matching referer class.
   */
  lemma {:induction false} DrainClasses(stats: Store, ext: Externals, entries: seq<string>, trust: bool)
    ensures var s := Drain(stats, ext, entries, trust).0;
            && (forall m :: s.HashValue(VppvEffective, m) ==
                  stats.HashValue(VppvEffective, m) + CountClass(ext, entries, m, External))
            && (forall m :: s.HashValue(VppvFromMy, m) ==
                  stats.HashValue(VppvFromMy, m) + CountClass(ext, entries, m, SelfReferral))
            && (forall m :: s.HashValue(VppvNoReferer, m) ==
                  stats.HashValue(VppvNoReferer, m) + CountClass(ext, entries, m, NoReferer))
    decreases |entries|
  {
    if entries != [] {
      var (s1, yes) := DrainEntry(stats, ext, entries[0]);
      DrainEntryCounters(stats, ext, entries[0]);
      DrainClasses(s1, ext, entries[1..], trust || yes);
    }
  }

  /** The drain loop over N buffered lines, in closed form: both of the above. */
  lemma DrainCounters(stats: Store, ext: Externals, entries: seq<string>, trust: bool)
    ensures var (s, t) := Drain(stats, ext, entries, trust);
            && s.sets == stats.sets && s.lists == stats.lists
            && (forall m :: s.HashValue(VppvWatching, m) == stats.HashValue(VppvWatching, m) - CountMinute(ext, entries, m))
            && (forall m :: s.HashValue(VppvEffective, m) ==
                  stats.HashValue(VppvEffective, m) + CountClass(ext, entries, m, External))
            && (forall m :: s.HashValue(VppvFromMy, m) ==
                  stats.HashValue(VppvFromMy, m) + CountClass(ext, entries, m, SelfReferral))
            && (forall m :: s.HashValue(VppvNoReferer, m) ==
                  stats.HashValue(VppvNoReferer, m) + CountClass(ext, entries, m, NoReferer))
            && (forall h, f :: !DrainCounter(h) ==> s.HashValue(h, f) == stats.HashValue(h, f))
            && t == (trust || CountHuman(ext, entries) > 0)
  {
    DrainWatching(stats, ext, entries, trust);
    DrainClasses(stats, ext, entries, trust);
  }

  /** Every buffered line has exactly one of the three referer classes. */
  lemma {:induction false} CountPartition(ext: Externals, entries: seq<string>, m: string)
    ensures CountMinute(ext, entries, m) ==
            CountClass(ext, entries, m, SelfReferral) + CountClass(ext, entries, m, NoReferer)
            + CountClass(ext, entries, m, External)
    decreases |entries|
  {
    if entries != [] {
      CountPartition(ext, entries[1..], m);
    }
  }

  /** At most N of N buffered lines are judged human. */
  lemma {:induction false} CountHumanBound(ext: Externals, entries: seq<string>)
    ensures CountHuman(ext, entries) <= |entries|
    decreases |entries|
  {
    if entries != [] {
      CountHumanBound(ext, entries[1..]);
    }
  }

  /** The drain makes exactly N decrements, and the decrements at minute m are the lines of minute m. */
  lemma {:induction false} DecrementsPerEntry(ext: Externals, entries: seq<string>)
    ensures |DecrementMinutes(ext, entries)| == |entries|
    ensures forall m :: DecrementMinutes(ext, entries)[m] == CountMinute(ext, entries, m)
    decreases |entries|
  {
    if entries != [] {
      DecrementsPerEntry(ext, entries[1..]);
    }
  }

  /**
   * ProcessWatchingList on a client whose buffer holds N lines, counters:
   * they move as the drain says, so there are N decrements of the watching
   * counter and k <= N increments of the effective counter, k being the
   * number of lines judged human.
   */
  lemma ProcessWatchingListCounters(w: World, ext: Externals, log: AccessLog)
    ensures var entries := w.conn.List(WatchKey(log.remoteAddr));
            var r := ProcessWatchingList(w, ext, log);
            && CountHuman(ext, entries) <= |entries|
            && r.stats.sets == w.stats.sets && r.stats.lists == w.stats.lists
            && (forall m :: r.stats.HashValue(VppvWatching, m) == w.stats.HashValue(VppvWatching, m) - CountMinute(ext, entries, m))
            && (forall m :: r.stats.HashValue(VppvEffective, m) ==
                  w.stats.HashValue(VppvEffective, m) + CountClass(ext, entries, m, External))
            && (forall m :: r.stats.HashValue(VppvFromMy, m) ==
                  w.stats.HashValue(VppvFromMy, m) + CountClass(ext, entries, m, SelfReferral))
            && (forall m :: r.stats.HashValue(VppvNoReferer, m) ==
                  w.stats.HashValue(VppvNoReferer, m) + CountClass(ext, entries, m, NoReferer))
            && (forall h, f :: !DrainCounter(h) ==> r.stats.HashValue(h, f) == w.stats.HashValue(h, f))
  {
    var entries := w.conn.List(WatchKey(log.remoteAddr));
    DrainCounters(w.stats, ext, entries, false);
    CountHumanBound(ext, entries);
  }

  /**
   * The deletions at the end of ProcessWatchingList remove the buffer, the
   * page-URL set and both memberships; the white list gains the client iff
   * the trust flag is set; no other key changes.
   */
  lemma CleanupKeys(conn: Store, log: AccessLog, trust: bool)
    ensures var addr := log.remoteAddr;
            var r := Cleanup(conn, log, trust);
            && r.List(WatchKey(addr)) == []
            && r.Members(RefererKey(addr)) == {}
            && addr !in r.Members(WatchingListKey)
            && addr !in r.Members(RefererListKey)
            && r.Members(WatchingListKey) == conn.Members(WatchingListKey) - {addr}
            && r.Members(RefererListKey) == conn.Members(RefererListKey) - {addr}
            && r.Members(WhiteListKey) == conn.Members(WhiteListKey) + (if trust then {addr} else {})
            && (forall key :: key != WatchKey(addr) && key != RefererKey(addr) ==> r.List(key) == conn.List(key))
            && (forall key :: key !in {WatchKey(addr), RefererKey(addr), WatchingListKey, RefererListKey, WhiteListKey} ==>
                  r.Members(key) == conn.Members(key))
  {
    var addr := log.remoteAddr;
    KeysDistinct(addr, addr);
    var c1 := conn.SetRem(WatchingListKey, addr);
    var c2 := c1.KeyDel(WatchKey(addr));
    var c3 := c2.SetRem(RefererListKey, addr);
    var c4 := c3.KeyDel(RefererKey(addr));
    assert c4 == DelRefererList(DelWatchingList(conn, log), log);
    assert addr !in c2.Members(WatchingListKey);
    assert addr !in c4.Members(WatchingListKey) && addr !in c4.Members(RefererListKey);
    assert c4.Members(WhiteListKey) == conn.Members(WhiteListKey);
    assert c4.List(WatchKey(addr)) == [];
  }

  /**
   * ProcessWatchingList, sets and lists: the buffer, the client's page URLs
   * and its memberships of WatchingList and RefererList are gone, and the
   * client is white-listed iff one of the buffered lines was judged human.
   * No other key changes.
   */
  lemma ProcessWatchingListKeys(w: World, ext: Externals, log: AccessLog)
    ensures var addr := log.remoteAddr;
            var entries := w.conn.List(WatchKey(addr));
            var r := ProcessWatchingList(w, ext, log);
            var k := CountHuman(ext, entries);
            && r.conn.List(WatchKey(addr)) == []
            && r.conn.Members(RefererKey(addr)) == {}
            && addr !in r.conn.Members(WatchingListKey)
            && addr !in r.conn.Members(RefererListKey)
            && r.conn.Members(WatchingListKey) == w.conn.Members(WatchingListKey) - {addr}
            && r.conn.Members(RefererListKey) == w.conn.Members(RefererListKey) - {addr}
            && r.conn.Members(WhiteListKey) == w.conn.Members(WhiteListKey) + (if k > 0 then {addr} else {})
            && (forall key :: key != WatchKey(addr) && key != RefererKey(addr) ==> r.conn.List(key) == w.conn.List(key))
            && (forall key :: key !in {WatchKey(addr), RefererKey(addr), WatchingListKey, RefererListKey, WhiteListKey} ==>
                  r.conn.Members(key) == w.conn.Members(key))
  {
    var entries := w.conn.List(WatchKey(log.remoteAddr));
    var (stats, trust) := Drain(w.stats, ext, entries, false);
    DrainCounters(w.stats, ext, entries, false);
    CleanupKeys(w.conn, log, trust);
  }

  /** A minute's count of human lines never exceeds the count of human lines overall. */
  lemma {:induction false} ClassBelowHuman(ext: Externals, entries: seq<string>, m: string)
    ensures CountClass(ext, entries, m, External) <= CountHuman(ext, entries)
    decreases |entries|
  {
    if entries != [] {
      ClassBelowHuman(ext, entries[1..], m);
    }
  }

  /** When some buffered line is human, the minute of such a line has a human line. */
  lemma {:induction false} HumanWitness(ext: Externals, entries: seq<string>) returns (m: string)
    requires CountHuman(ext, entries) > 0
    ensures CountClass(ext, entries, m, External) > 0
    decreases |entries|
  {
    if LineClass(ext, entries[0]) == External {
      m := LineMinute(ext, entries[0]);
    } else {
      m := HumanWitness(ext, entries[1..]);
    }
  }

  /** Some buffered line is human iff the drain adds to the effective counter of some minute. */
  lemma HumanIffEffective(ext: Externals, entries: seq<string>)
    ensures CountHuman(ext, entries) > 0 <==> exists m :: CountClass(ext, entries, m, External) > 0
  {
    if CountHuman(ext, entries) > 0 {
      var m := HumanWitness(ext, entries);
    }
    forall m | CountClass(ext, entries, m, External) > 0
      ensures CountHuman(ext, entries) > 0
    {
      ClassBelowHuman(ext, entries, m);
    }
  }

  /**
   * ProcessWatchingList white-lists a client that was not white-listed iff
   * it raises the effective counter of some minute.
   */
  lemma WhiteListedIffEffective(w: World, ext: Externals, log: AccessLog)
    ensures var addr := log.remoteAddr;
            var r := ProcessWatchingList(w, ext, log);
            addr !in w.conn.Members(WhiteListKey) ==>
              (addr in r.conn.Members(WhiteListKey) <==>
               exists m :: r.stats.HashValue(VppvEffective, m) > w.stats.HashValue(VppvEffective, m))
  {
    var addr := log.remoteAddr;
    var entries := w.conn.List(WatchKey(addr));
    var r := ProcessWatchingList(w, ext, log);
    ProcessWatchingListCounters(w, ext, log);
    ProcessWatchingListKeys(w, ext, log);
    if addr !in w.conn.Members(WhiteListKey) {
      assert addr in r.conn.Members(WhiteListKey) <==> CountHuman(ext, entries) > 0;
      if exists m :: r.stats.HashValue(VppvEffective, m) > w.stats.HashValue(VppvEffective, m) {
        var m :| r.stats.HashValue(VppvEffective, m) > w.stats.HashValue(VppvEffective, m);
        assert CountClass(ext, entries, m, External) > 0;
        ClassBelowHuman(ext, entries, m);
      }
      if CountHuman(ext, entries) > 0 {
        var m := HumanWitness(ext, entries);
        assert r.stats.HashValue(VppvEffective, m) > w.stats.HashValue(VppvEffective, m);
      }
    }
  }

  /** The drain makes exactly k effective increments, k being the lines judged human, CountClass(m, External) of them at minute m. */
  lemma {:induction false} EffectivePerEntry(ext: Externals, entries: seq<string>)
    ensures |EffectiveMinutes(ext, entries)| == CountHuman(ext, entries)
    ensures forall m :: EffectiveMinutes(ext, entries)[m] == CountClass(ext, entries, m, External)
    decreases |entries|
  {
    if entries != [] {
      EffectivePerEntry(ext, entries[1..]);
    }
  }

  /**
   * ProcessWatchingList on a buffer of N lines makes k <= N increments of
   * the effective counter in all, k being the lines judged human, and the
   * ones at minute m are those of minute m.
   */
  lemma EffectiveIncrements(w: World, ext: Externals, log: AccessLog)
    ensures var entries := w.conn.List(WatchKey(log.remoteAddr));
            var r := ProcessWatchingList(w, ext, log);
            && |EffectiveMinutes(ext, entries)| == CountHuman(ext, entries) <= |entries|
            && (forall m :: r.stats.HashValue(VppvEffective, m) ==
                  w.stats.HashValue(VppvEffective, m) + EffectiveMinutes(ext, entries)[m])
  {
    var entries := w.conn.List(WatchKey(log.remoteAddr));
    ProcessWatchingListCounters(w, ext, log);
    EffectivePerEntry(ext, entries);
  }

  /** When no buffered line is judged human, no count of human lines is positive. */
  lemma {:induction false} NoHumanCounts(ext: Externals, entries: seq<string>)
    requires forall i :: 0 <= i < |entries| ==> LineClass(ext, entries[i]) != External
    ensures CountHuman(ext, entries) == 0
    ensures forall m :: CountClass(ext, entries, m, External) == 0
    decreases |entries|
  {
    if entries != [] {
      assert forall i :: 0 <= i < |entries[1..]| ==> entries[1..][i] == entries[i + 1];
      NoHumanCounts(ext, entries[1..]);
    }
  }

  /**
   * A client whose buffered views all came from the site's own member area
   * gains no trust from the drain: it is white-listed afterwards only if it
   * already was, and the effective counter does not move at any minute.
   */
  lemma SelfReferralsGainNoTrust(w: World, ext: Externals, log: AccessLog)
    requires var entries := w.conn.List(WatchKey(log.remoteAddr));
             forall i :: 0 <= i < |entries| ==> Contains(ext.getLog(entries[i]).referer, "my.anjuke.com")
    ensures var r := ProcessWatchingList(w, ext, log);
            && (log.remoteAddr in r.conn.Members(WhiteListKey) <==> log.remoteAddr in w.conn.Members(WhiteListKey))
            && (forall m :: r.stats.HashValue(VppvEffective, m) == w.stats.HashValue(VppvEffective, m))
  {
    var entries := w.conn.List(WatchKey(log.remoteAddr));
    assert forall i :: 0 <= i < |entries| ==> LineClass(ext, entries[i]) == SelfReferral;
    NoHumanCounts(ext, entries);
    ProcessWatchingListCounters(w, ext, log);
    ProcessWatchingListKeys(w, ext, log);
  }
}
