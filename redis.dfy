/**
 * An abstract Redis keyspace and the connection wrapper the filter talks to.
 *
 * Only the commands the filter issues are modelled: HINCRBY, SADD, SREM,
 * SISMEMBER, LLEN, LPUSH, LPOP and DEL. A missing hash field reads as 0, a
 * missing set as the empty set and a missing list as the empty list, as in
 * Redis. Every command succeeds (the wrapper aborts the process on an error).
 */
module Redis {

  /** The keyspace as a value: hash fields keyed by (hash name, field), sets and lists keyed by name. */
  datatype Store = Store(
    hashes: map<(string, string), int>,
    sets: map<string, set<string>>,
    lists: map<string, seq<string>>)
  {
    /** HGET, with a missing field read as 0. */
    function HashValue(ht: string, field: string): int
    {
      if (ht, field) in hashes then hashes[(ht, field)] else 0
    }

    /** SMEMBERS, with a missing key read as the empty set. */
    function Members(key: string): set<string>
    {
      if key in sets then sets[key] else {}
    }

    /** LRANGE key 0 -1, with a missing key read as the empty list; index 0 is the left end. */
    function List(key: string): seq<string>
    {
      if key in lists then lists[key] else []
    }

    /** HINCRBY: adds a signed delta to one field and touches nothing else. */
    function HashIncrby(ht: string, field: string, increment: int): (r: Store)
      ensures r.HashValue(ht, field) == HashValue(ht, field) + increment
      ensures forall h, f :: (h, f) != (ht, field) ==> r.HashValue(h, f) == HashValue(h, f)
      ensures r.sets == sets && r.lists == lists
    {
      this.(hashes := hashes[(ht, field) := HashValue(ht, field) + increment])
    }

    /** SADD: afterwards `member` is in the set; no other key changes. */
    function SetAdd(key: string, member: string): (r: Store)
      ensures r.Members(key) == Members(key) + {member}
      ensures forall k :: k != key ==> r.Members(k) == Members(k)
      ensures r.hashes == hashes && r.lists == lists
    {
      this.(sets := sets[key := Members(key) + {member}])
    }

    /** SREM: afterwards `member` is not in the set; no other key changes. */
    function SetRem(key: string, member: string): (r: Store)
      ensures r.Members(key) == Members(key) - {member}
      ensures forall k :: k != key ==> r.Members(k) == Members(k)
      ensures r.hashes == hashes && r.lists == lists
    {
      this.(sets := sets[key := Members(key) - {member}])
    }

    /** LPUSH: the item becomes the new left end (index 0) of the list. */
    function ListLeftPush(key: string, item: string): (r: Store)
      ensures r.List(key) == [item] + List(key)
      ensures |r.List(key)| == |List(key)| + 1
      ensures forall k :: k != key ==> r.List(k) == List(k)
      ensures r.hashes == hashes && r.sets == sets
    {
      this.(lists := lists[key := [item] + List(key)])
    }

    /** LPOP: removes and returns the left end; on an empty list returns "" and changes nothing. */
    function ListLeftPop(key: string): (r: (Store, string))
      ensures List(key) == [] ==> r == (this, "")
      ensures List(key) != [] ==> r.1 == List(key)[0] && r.0.List(key) == List(key)[1..]
      ensures forall k :: k != key ==> r.0.List(k) == List(k)
      ensures r.0.hashes == hashes && r.0.sets == sets
    {
      var l := List(key);
      if l == [] then (this, "") else (this.(lists := lists[key := l[1..]]), l[0])
    }

    /** DEL: the key disappears whatever its type; every other key is kept. */
    function KeyDel(key: string): (r: Store)
      ensures r.List(key) == [] && r.Members(key) == {}
      ensures forall f :: r.HashValue(key, f) == 0
      ensures forall k :: k != key ==> r.List(k) == List(k) && r.Members(k) == Members(k)
      ensures forall h, f :: h != key ==> r.HashValue(h, f) == HashValue(h, f)
    {
      Store(map p | p in hashes && p.0 != key :: hashes[p], sets - {key}, lists - {key})
    }

    /**
     * Whether DEL finds something to remove under `key`. A server drops a
     * list or set key once it is empty, so an entry left empty by LPOP or
     * SREM does not count as a key.
     */
    predicate KeyExists(key: string)
    {
      List(key) != [] || Members(key) != {} || exists p :: p in hashes && p.0 == key
    }
  }

  /** Writing a key twice leaves the second value. */
  lemma UpdateTwice(m: map<string, seq<string>>, k: string, a: seq<string>, b: seq<string>)
    ensures m[k := a][k := b] == m[k := b]
  {
  }

  /** The keyspace of a fresh server. */
  const EmptyStore: Store := Store(map[], map[], map[])

  /** LPUSH then LPOP on the same key gives back the pushed item and the list as it was. */
  lemma PushThenPop(s: Store, key: string, item: string)
    ensures s.ListLeftPush(key, item).ListLeftPop(key).1 == item
    ensures s.ListLeftPush(key, item).ListLeftPop(key).0.List(key) == s.List(key)
  {
  }

  /** A list emptied by LPOP is gone: LPUSH then LPOP on a fresh key leaves nothing for DEL to remove. */
  lemma PopLastThenDel(key: string, item: string)
    ensures !EmptyStore.ListLeftPush(key, item).ListLeftPop(key).0.KeyExists(key)
  {
    var s := EmptyStore.ListLeftPush(key, item).ListLeftPop(key).0;
    assert s.List(key) == [];
    assert s.hashes == map[];
  }

  /** A set emptied by SREM is gone: SADD then SREM of the same member leaves nothing for DEL to remove. */
  lemma RemLastThenDel(key: string, member: string)
    ensures !EmptyStore.SetAdd(key, member).SetRem(key, member).KeyExists(key)
  {
    var s := EmptyStore.SetAdd(key, member).SetRem(key, member);
    assert s.Members(key) == {};
    assert s.hashes == map[];
  }

  /** The left end is the most recently pushed item: LPUSH a, LPUSH b gives `[b, a] + old list`. */
  lemma PushOrder(s: Store, key: string, a: string, b: string)
    ensures s.ListLeftPush(key, a).ListLeftPush(key, b).List(key) == [b, a] + s.List(key)
  {
  }

  /**
   * One connection to a Redis server. The filter keeps the server's state in
   * these three fields and reads it through `State()`.
   */
  class RedisConn {
    var hashes: map<(string, string), int>
    var sets: map<string, set<string>>
    var lists: map<string, seq<string>>

    /** The keyspace this connection currently sees. */
    function State(): Store
      reads this
    {
      Store(hashes, sets, lists)
    }

    /** A connection to an empty server. */
    constructor ()
      ensures State() == EmptyStore
    {
      hashes, sets, lists := map[], map[], map[];
    }

    /** HINCRBY ht field increment; returns the field's new value. */
    method HashIncrby(ht: string, field: string, increment: int) returns (result: int)
      modifies this
      ensures State() == old(State()).HashIncrby(ht, field, increment)
      ensures result == old(State()).HashValue(ht, field) + increment
    {
      result := State().HashValue(ht, field) + increment;
      hashes := hashes[(ht, field) := result];
    }

    /** SADD key member; returns 1 when the member was not there before, else 0. */
    method SetAdd(key: string, member: string) returns (result: int)
      modifies this
      ensures State() == old(State()).SetAdd(key, member)
      ensures result == if member in old(State()).Members(key) then 0 else 1
    {
      var before := State().Members(key);
      result := if member in before then 0 else 1;
      sets := sets[key := before + {member}];
    }

    /** SREM key member; returns 1 when the member was there, else 0. */
    method SetRem(key: string, member: string) returns (result: int)
      modifies this
      ensures State() == old(State()).SetRem(key, member)
      ensures result == if member in old(State()).Members(key) then 1 else 0
    {
      var before := State().Members(key);
      result := if member in before then 1 else 0;
      sets := sets[key := before - {member}];
    }

    /** SISMEMBER key member: 1 or 0. */
    method SetIsMember(key: string, member: string) returns (result: int)
      ensures result == if member in State().Members(key) then 1 else 0
    {
      result := if member in State().Members(key) then 1 else 0;
    }

    /** LLEN list. */
    method ListLen(list: string) returns (result: int)
      ensures result == |State().List(list)|
    {
      result := |State().List(list)|;
    }

    /** LPUSH list item; returns the length of the list after the push. */
    method ListLeftPush(list: string, item: string) returns (result: int)
      modifies this
      ensures State() == old(State()).ListLeftPush(list, item)
      ensures result == |State().List(list)|
    {
      var l := [item] + State().List(list);
      lists := lists[list := l];
      result := |l|;
    }

    /** LPOP list; returns the removed left end, or "" on an empty list. */
    method ListLeftPop(list: string) returns (result: string)
      modifies this
      ensures (State(), result) == old(State()).ListLeftPop(list)
    {
      var l := State().List(list);
      if l == [] {
        result := "";
      } else {
        result := l[0];
        lists := lists[list := l[1..]];
      }
    }

    /** DEL key; returns the number of keys removed (0 or 1). */
    method KeyDel(key: string) returns (result: int)
      modifies this
      ensures State() == old(State()).KeyDel(key)
      ensures result == if old(State()).KeyExists(key) then 1 else 0
    {
      result := if State().KeyExists(key) then 1 else 0;
      hashes := map p | p in hashes && p.0 != key :: hashes[p];
      sets := sets - {key};
      lists := lists - {key};
    }
  }
}
