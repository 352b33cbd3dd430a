/** The key-value store as seen from outside its lock: one event for every
    critical section on `kvLock`, with the clock readings each one used. */
module KvSpec {
  import opened Common

  type Key(==, !new)

  /** A reading of the clock, in nanoseconds. */
  type Instant = int

  const SECOND := 1_000_000_000
  const TWO_63 := 0x8000_0000_0000_0000
  const TWO_64 := 0x1_0000_0000_0000_0000

  predicate IsInt64(x: int) {
    -TWO_63 <= x < TWO_63
  }

  function Wrap(x: int): int {
    (x + TWO_63) % TWO_64 - TWO_63
  }

  /** time.Duration(seconds) * time.Second: a product of int64 values */
  function TimeOut(seconds: int): int {
    Wrap(seconds * SECOND)
  }

  datatype Entry = Entry(value: Value, init: Instant, timeOut: int) {
    /** now.After(InitTime.Add(TimeOut)) */
    predicate Expired(now: Instant) {
      now > init + timeOut
    }
  }

  type Store = map<Key, Entry>

  /** SetKV stamps the entry with `init`, read under the lock. GetKV reads `now` before it takes the lock,
      when `since` events had happened, and answers at `at`. GarbageCollection reads `now` under the lock. */
  datatype Event =
    | SetKV(key: Key, value: Value, seconds: int, init: Instant)
    | DeleteKV(key: Key)
    | GetKV(key: Key, since: nat, now: Instant, at: Instant, answer: Option<Value>)
    | Collect(now: Instant)
    | Length(n: int)

  function Stored(e: Event): Entry
    requires e.SetKV?
  {
    Entry(e.value, e.init, TimeOut(e.seconds))
  }

  function Lookup(m: Store, k: Key, now: Instant): Option<Value> {
    if k in m && !m[k].Expired(now) then Some(m[k].value) else None
  }

  /** GetKV drops an entry it finds expired. */
  function AfterGet(m: Store, k: Key, now: Instant): Store {
    if k in m && m[k].Expired(now) then Without(m, k) else m
  }

  function Swept(m: Store, now: Instant): Store {
    map k | k in m && !m[k].Expired(now) :: m[k]
  }

  /** Midway through a collection: the keys in `todo` have not been visited yet. */
  function SweptExcept(m: Store, now: Instant, todo: set<Key>): Store {
    map k | k in m && (k in todo || !m[k].Expired(now)) :: m[k]
  }

  /** A collection may visit the keys in any order, and what it visits is still there to be visited. */
  lemma CollectStep(m: Store, now: Instant, todo: set<Key>, k: Key)
    requires k in todo && todo <= m.Keys
    ensures var m' := SweptExcept(m, now, todo);
      && k in m' && m'[k] == m[k]
      && (if m[k].Expired(now) then Without(m', k) else m') == SweptExcept(m, now, todo - {k})
    ensures SweptExcept(m, now, m.Keys) == m && SweptExcept(m, now, {}) == Swept(m, now)
  {
  }

  function Apply(m: Store, e: Event): Store {
    match e
    case SetKV(k, _, _, _) => m[k := Stored(e)]
    case DeleteKV(k) => Without(m, k)
    case GetKV(k, _, now, _, _) => AfterGet(m, k, now)
    case Collect(now) => Swept(m, now)
    case Length(_) => m
  }

  /** The concrete map. */
  function Replay(log: seq<Event>): Store {
    if log == [] then map[] else Apply(Replay(Front(log)), Last(log))
  }

  /** The reference store: entries stay until they are set again or deleted, and only lookups mind the deadline. */
  function Reference(log: seq<Event>): Store {
    if log == [] then map[]
    else
      var m, e := Reference(Front(log)), Last(log);
      if e.SetKV? || e.DeleteKV? then Apply(m, e) else m
  }

  /** The latest clock reading made under the lock, or `from` if there was none later. */
  function Latest(from: Instant, log: seq<Event>): Instant {
    if log == [] then from
    else
      match Last(log)
      case SetKV(_, _, _, init) => Max(Latest(from, Front(log)), init)
      case GetKV(_, _, _, at, _) => Max(Latest(from, Front(log)), at)
      case Collect(now) => Max(Latest(from, Front(log)), now)
      case _ => Latest(from, Front(log))
  }

  function Max(a: int, b: int): int {
    if a < b then b else a
  }

  /** `e` can come after `log` when the clock never goes back, started at `from`, and GetKV answers what it finds. */
  predicate Follows(from: Instant, log: seq<Event>, e: Event) {
    match e
    case SetKV(_, _, _, init) => Latest(from, log) <= init
    case DeleteKV(_) => true
    case GetKV(k, since, now, at, answer) =>
      && since <= |log|
      && Latest(from, log[..since]) <= now <= at
      && Latest(from, log) <= at
      && answer == Lookup(Replay(log), k, now)
    case Collect(now) => Latest(from, log) <= now
    case Length(n) => n == |Replay(log)|
  }

  predicate Legal(from: Instant, log: seq<Event>) {
    log == [] || (Legal(from, Front(log)) && Follows(from, Front(log), Last(log)))
  }

  lemma LogExtends(from: Instant, log: seq<Event>, e: Event)
    requires Legal(from, log) && Follows(from, log, e)
    ensures Legal(from, log + [e]) && Replay(log + [e]) == Apply(Replay(log), e)
    ensures Latest(from, log + [e]) ==
      match e
      case SetKV(_, _, _, init) => init
      case GetKV(_, _, _, at, _) => at
      case Collect(now) => now
      case _ => Latest(from, log)
  {
    assert Front(log + [e]) == log;
  }
}
