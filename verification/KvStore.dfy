/** The key-value handlers of server/quashserver/quashserver.go. Each method is what one handler does
    under kvLock; clock readings are parameters, and go forward. The log records what was done, so that
    the run theorems of KvRuns speak about `kvMap` itself. */
module KvStore {
  import opened Common
  import opened KvSpec

  class KvStore {
    /** the global `kvMap` */
    var kvMap: Store
    /** when the clock started */
    ghost const from: Instant
    ghost var log: seq<Event>

    ghost predicate Valid()
      reads this
    {
      Legal(from, log) && Replay(log) == kvMap
    }

    constructor (ghost from: Instant)
      ensures Valid() && this.from == from
      ensures kvMap == map[] && log == []
    {
      kvMap := map[];
      this.from, log := from, [];
    }

    method SetKV(k: Key, v: Value, seconds: int, now: Instant)
      requires Valid() && Latest(from, log) <= now
      modifies this
      ensures Valid() && log == old(log) + [KvSpec.SetKV(k, v, seconds, now)]
      ensures kvMap == old(kvMap)[k := Entry(v, now, TimeOut(seconds))]
    {
      LogExtends(from, log, KvSpec.SetKV(k, v, seconds, now));
      kvMap := kvMap[k := Entry(v, now, TimeOut(seconds))];
      log := log + [KvSpec.SetKV(k, v, seconds, now)];
    }

    /** `now` was read before the lock was taken, when `since` events had happened; the answer is made at `at`. */
    method GetKV(k: Key, now: Instant, ghost since: nat, ghost at: Instant) returns (answer: Option<Value>)
      requires Valid() && since <= |log| && Latest(from, log[..since]) <= now <= at && Latest(from, log) <= at
      modifies this
      ensures Valid() && log == old(log) + [KvSpec.GetKV(k, since, now, at, answer)]
      ensures answer == Lookup(old(kvMap), k, now)
      ensures kvMap == AfterGet(old(kvMap), k, now)
    {
      ghost var e := KvSpec.GetKV(k, since, now, at, Lookup(kvMap, k, now));
      LogExtends(from, log, e);
      log := log + [e];
      if k !in kvMap {
        return None;
      }
      var val := kvMap[k];
      if val.Expired(now) {
        kvMap := Without(kvMap, k);
        return None;
      }
      return Some(val.value);
    }

    method DeleteKV(k: Key)
      requires Valid()
      modifies this
      ensures Valid() && log == old(log) + [KvSpec.DeleteKV(k)]
      ensures kvMap == Without(old(kvMap), k)
    {
      LogExtends(from, log, KvSpec.DeleteKV(k));
      kvMap := Without(kvMap, k);
      log := log + [KvSpec.DeleteKV(k)];
    }

    /** One pass of GarbageCollection: it deletes from the map it ranges over, in any order. */
    method Collect(now: Instant)
      requires Valid() && Latest(from, log) <= now
      modifies this
      ensures Valid() && log == old(log) + [KvSpec.Collect(now)]
      ensures kvMap == Swept(old(kvMap), now)
    {
      var todo := kvMap.Keys;
      assert kvMap == SweptExcept(kvMap, now, todo);
      while todo != {}
        invariant todo <= kvMap.Keys && log == old(log)
        invariant kvMap == SweptExcept(old(kvMap), now, todo)
      {
        var k :| k in todo;
        CollectStep(old(kvMap), now, todo, k);
        if kvMap[k].Expired(now) {
          kvMap := Without(kvMap, k);
        }
        todo := todo - {k};
      }
      LogExtends(from, log, KvSpec.Collect(now));
      log := log + [KvSpec.Collect(now)];
    }

    /** The key-value half of Snapshot. */
    method Length() returns (n: int)
      requires Valid()
      modifies `log
      ensures Valid() && log == old(log) + [KvSpec.Length(n)]
      ensures n == |kvMap|
    {
      n := |kvMap|;
      LogExtends(from, log, KvSpec.Length(n));
      log := log + [KvSpec.Length(n)];
    }
  }
}
