/** The in-memory stand-in for Redis (lib/state/redis-manager.ts): a value
    map, a separate list map, and the expiry timers `set` schedules. */
module Store {
  import opened Wrappers
  import opened Types
  import Slices

  /** The JavaScript truthiness of a stored string: only the empty text is
      falsy. */
  predicate Truthy(v: Value) {
    !(v.Text? && v.text == "")
  }

  class RedisManager {
    var values: map<string, Value>
    var lists: map<string, seq<Value>>
    /** One entry per `setTimeout` still to fire; a timer is never cancelled,
        so it deletes whatever value its key holds when it fires. */
    var timers: multiset<string>

    constructor ()
      ensures values == map[] && lists == map[] && timers == multiset{}
    {
      values, lists, timers := map[], map[], multiset{};
    }

    /** `get`: the stored value, or `null` both for an absent key and for a
        stored empty string (the `|| null`). */
    function Get(key: string): (r: Option<Value>)
      reads this
      ensures r.Some? <==> key in values && Truthy(values[key])
      ensures r.Some? ==> r.value == values[key]
    {
      if key in values && Truthy(values[key]) then Some(values[key]) else None
    }

    /** `set`: overwrite the value; a truthy expiry schedules one deletion. */
    method Set(key: string, value: Value, expirySeconds: Option<int>)
      modifies this
      ensures values == old(values)[key := value]
      ensures lists == old(lists)
      ensures timers == if expirySeconds.Some? && expirySeconds.value != 0
                        then old(timers) + multiset{key} else old(timers)
      ensures Get(key) == if Truthy(value) then Some(value) else None
      ensures forall k :: k != key ==> Get(k) == old(Get(k))
    {
      values := values[key := value];
      if expirySeconds.Some? && expirySeconds.value != 0 {
        timers := timers + multiset{key};
      }
    }

    /** One pending timer for `key` fires and deletes the value under it
        (lists are not touched). */
    method Expire(key: string)
      requires key in timers
      modifies this
      ensures values == old(values) - {key}
      ensures lists == old(lists)
      ensures timers == old(timers) - multiset{key}
    {
      values := values - {key};
      timers := timers - multiset{key};
    }

    /** `delete` removes the key from both namespaces. */
    method Delete(key: string)
      modifies this
      ensures values == old(values) - {key}
      ensures lists == old(lists) - {key}
      ensures timers == old(timers)
      ensures !Exists(key)
    {
      values := values - {key};
      lists := lists - {key};
    }

    /** `exists` asks `has` of both maps, so a key holding an empty string
        exists although `get` reads it as absent. */
    function Exists(key: string): (r: bool)
      reads this
      ensures Get(key).Some? ==> r
      ensures ListLength(key) > 0 ==> r
      ensures key in values && !Truthy(values[key]) ==> r && Get(key).None?
      ensures !r ==> Get(key).None? && GetList(key) == []
    {
      key in values || key in lists
    }

    /** `addToList` creates a missing list and appends at its tail. */
    method AddToList(key: string, value: Value)
      modifies this
      ensures lists == old(lists)[key := old(GetList(key)) + [value]]
      ensures values == old(values) && timers == old(timers)
      ensures ListLength(key) == old(ListLength(key)) + 1
      ensures GetList(key)[..old(ListLength(key))] == old(GetList(key))
    {
      var current := if key in lists then lists[key] else [];
      lists := lists[key := current + [value]];
      assert GetList(key) == current + [value];
    }

    /** `getList`: the list, or the empty list when there is none. */
    function GetList(key: string): (r: seq<Value>)
      reads this
      ensures key in lists ==> r == lists[key]
      ensures key !in lists ==> r == []
    {
      if key in lists then lists[key] else []
    }

    /** `getListRange`: `end == -1` reads to the tail, any other `end` is
        inclusive (`slice(start, end + 1)`); negative positions count from
        the end of the list and are clamped to it. */
    function GetListRange(key: string, start: int, end: int): (r: seq<Value>)
      reads this
      ensures var l := GetList(key);
        0 <= start && end == -1 ==> r == l[Slices.Min(start, |l|)..]
      ensures var l := GetList(key);
        start < 0 && end == -1 ==> r == Slices.LastN(l, -start)
      ensures var l := GetList(key);
        0 <= start <= end < |l| ==> r == l[start..end + 1]
      ensures var l := GetList(key);
        end != -1 && end + 1 >= |l| ==> r == Slices.SliceFrom(l, start)
      ensures var l := GetList(key);
        end != -1 ==>
          var a, b := Slices.RelIndex(start, |l|), Slices.RelIndex(end + 1, |l|);
          |r| == (if a < b then b - a else 0) && forall k :: 0 <= k < |r| ==> r[k] == l[a + k]
      ensures key !in lists ==> r == []
    {
      var list := GetList(key);
      if end == -1 then Slices.SliceFrom(list, start) else Slices.Slice(list, start, end + 1)
    }

    /** `listLength`: a missing list has length 0. */
    function ListLength(key: string): (n: nat)
      reads this
      ensures key in lists ==> n == |lists[key]|
      ensures key !in lists ==> n == 0
    {
      |GetList(key)|
    }

    /** `clear` empties both maps; timers already scheduled still fire. */
    method Clear()
      modifies this
      ensures values == map[] && lists == map[]
      ensures timers == old(timers)
    {
      values, lists := map[], map[];
    }
  }
}
