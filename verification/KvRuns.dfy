/** What holds of every run of the key-value store. The reference store never deletes on its
    own; the question is when expiry by deletion can be told from expiry by looking at the deadline. */
module KvRuns {
  import opened Common
  import opened KvSpec

  predicate Sets(e: Event, k: Key) {
    e.SetKV? && e.key == k
  }

  predicate Writes(e: Event, k: Key) {
    Sets(e, k) || e == DeleteKV(k)
  }

  /** Did `e` look at `entry` and find it expired? */
  predicate Sweeps(e: Event, k: Key, entry: Entry) {
    match e
    case GetKV(k', _, now, _, _) => k' == k && entry.Expired(now)
    case Collect(now) => entry.Expired(now)
    case _ => false
  }

  /** Has the entry that the reference store holds for `k` been swept since it was set? */
  predicate SweptAway(log: seq<Event>, k: Key)
    requires k in Reference(log)
  {
    if Sets(Last(log), k) then false
    else SweptAway(Front(log), k) || Sweeps(Last(log), k, Reference(log)[k])
  }

  /** That is: some one event after its SetKV found it expired. */
  lemma {:induction false} SweptAwayMeans(log: seq<Event>, k: Key)
    requires k in Reference(log)
    ensures SweptAway(log, k) <==>
      exists i :: LastSet(log, k) < i < |log| && Sweeps(log[i], k, Reference(log)[k])
  {
    if !Sets(Last(log), k) {
      var was, entry, m := Front(log), Reference(log)[k], LastSet(log, k);
      SweptAwayMeans(was, k);
      assert forall i :: 0 <= i < |was| ==> was[i] == log[i];
      if SweptAway(was, k) {
        var i :| m < i < |was| && Sweeps(was[i], k, entry);
        assert Sweeps(log[i], k, entry);
      } else if Sweeps(Last(log), k, entry) {
        assert Sweeps(log[|log| - 1], k, entry);
      }
    }
  }

  // ------------------------------------------------------- the store and its reference

  /** The concrete map is the reference store without the entries swept so far. */
  lemma {:induction false} ConcreteIsReferenceLessSwept(log: seq<Event>, k: Key)
    ensures k in Replay(log) <==> k in Reference(log) && !SweptAway(log, k)
    ensures k in Replay(log) ==> Replay(log)[k] == Reference(log)[k]
  {
    if log != [] {
      ConcreteIsReferenceLessSwept(Front(log), k);
    }
  }

  lemma {:induction false} SweptMeansExpired(from: Instant, log: seq<Event>, k: Key)
    requires Legal(from, log) && k in Reference(log) && SweptAway(log, k)
    ensures Reference(log)[k].Expired(Latest(from, log))
  {
    if SweptAway(Front(log), k) {
      SweptMeansExpired(from, Front(log), k);
    }
  }

  /** The concrete map lies between the live part of the reference store and all of it. */
  lemma {:induction false} Sandwich(from: Instant, log: seq<Event>, k: Key)
    requires Legal(from, log)
    ensures k in Replay(log) ==> k in Reference(log) && Replay(log)[k] == Reference(log)[k]
    ensures k in Reference(log) && !Reference(log)[k].Expired(Latest(from, log)) ==> k in Replay(log)
  {
    ConcreteIsReferenceLessSwept(log, k);
    if k in Reference(log) && SweptAway(log, k) {
      SweptMeansExpired(from, log, k);
    }
  }

  /** The SetKV that the reference store's entry for `k` stems from. */
  function LastSet(log: seq<Event>, k: Key): (m: nat)
    requires k in Reference(log)
    ensures m < |log| && Sets(log[m], k)
  {
    if Sets(Last(log), k) then |log| - 1 else LastSet(Front(log), k)
  }

  lemma {:induction false} LastSetIsTheLastWrite(log: seq<Event>, k: Key)
    requires k in Reference(log)
    ensures var m := LastSet(log, k);
      && Reference(log)[k] == Stored(log[m])
      && forall i :: m < i < |log| ==> !Writes(log[i], k)
  {
    if !Sets(Last(log), k) {
      LastSetIsTheLastWrite(Front(log), k);
      assert forall i :: 0 <= i < |log| - 1 ==> log[i] == Front(log)[i];
    }
  }

  /** And the other way round: what was set, and not written since, is what the reference store holds. */
  lemma {:induction false} SetIsRemembered(log: seq<Event>, m: nat, k: Key)
    requires m < |log| && Sets(log[m], k) && forall i :: m < i < |log| ==> !Writes(log[i], k)
    ensures k in Reference(log) && LastSet(log, k) == m && Reference(log)[k] == Stored(log[m])
  {
    if m < |log| - 1 {
      assert !Writes(Last(log), k);
      assert Front(log)[m] == log[m] && forall i :: m < i < |log| - 1 ==> Front(log)[i] == log[i];
      SetIsRemembered(Front(log), m, k);
    }
  }

  /** Between two writes of `k` the reference store's entry does not change. */
  lemma {:induction false} ReferenceIsStable(log: seq<Event>, p: nat, k: Key)
    requires p <= |log| && forall i :: p <= i < |log| ==> !Writes(log[i], k)
    ensures Get(Reference(log), k) == Get(Reference(log[..p]), k)
  {
    if p == |log| {
      assert log[..p] == log;
    } else {
      assert !Writes(Last(log), k);
      assert forall i :: p <= i < |log| - 1 ==> Front(log)[i] == log[i];
      ReferenceIsStable(Front(log), p, k);
      assert Front(log)[..p] == log[..p];
    }
  }

  lemma {:induction false} LatestGrows(from: Instant, log: seq<Event>, p: nat)
    requires p <= |log|
    ensures Latest(from, log[..p]) <= Latest(from, log)
    ensures forall i :: p <= i < |log| && log[i].SetKV? ==> log[i].init <= Latest(from, log)
  {
    if p == |log| {
      assert log[..p] == log;
    } else {
      LatestGrows(from, Front(log), p);
      assert Front(log)[..p] == log[..p];
      assert forall i :: p <= i < |log| - 1 ==> Front(log)[i] == log[i];
    }
  }

  // ----------------------------------------------------------- GetKV is linearizable

  /** Does the reference store, after log[..p], show exactly `entry` to a lookup at `now`? */
  predicate ShowsAt(log: seq<Event>, p: nat, k: Key, now: Instant, entry: Entry)
    requires p <= |log|
  {
    Get(Reference(log[..p]), k) == Some(entry) && !entry.Expired(now)
  }

  /** A miss is right at the moment the lock is held: the reference store shows nothing then. */
  lemma MissIsTrueUnderTheLock(from: Instant, log: seq<Event>, e: Event)
    requires Legal(from, log) && Follows(from, log, e) && e.GetKV? && e.answer == None
    ensures Lookup(Reference(log), e.key, e.at) == None
  {
    Sandwich(from, log, e.key);
  }

  /** A hit returns an entry that the reference store held, and shows it at one moment between the clock reading
      and the answer: at the reading itself, or after a SetKV that came later. Such a SetKV counts from its stamp, and
      when the lookup read its clock after that stamp, the moment is the reading. */
  predicate Explained(log: seq<Event>, e: Event, entry: Entry)
    requires e.GetKV? && e.since <= |log|
  {
    || ShowsAt(log, e.since, e.key, e.now, entry)
    || exists i :: e.since <= i < |log| && log[i].SetKV? && ShowsAfter(log, i, e, entry)
  }

  predicate ShowsAfter(log: seq<Event>, i: nat, e: Event, entry: Entry)
    requires i < |log| && log[i].SetKV? && e.GetKV?
  {
    var moment := Max(e.now, log[i].init);
    moment <= e.at && ShowsAt(log, i + 1, e.key, moment, entry)
  }

  /** ... except that an entry with a negative time-out, set after the clock was read, can be
      returned although it was never readable. That is the only exception. */
  lemma HitIsExplained(from: Instant, log: seq<Event>, e: Event)
    requires Legal(from, log) && Follows(from, log, e) && e.GetKV? && e.answer.Some?
    ensures e.key in Reference(log)
    ensures var entry := Reference(log)[e.key];
      && e.answer == Some(entry.value)
      && (Explained(log, e, entry) <==> entry.timeOut >= 0 || LastSet(log, e.key) < e.since)
  {
    Sandwich(from, log, e.key);
    var k, entry, m := e.key, Reference(log)[e.key], LastSet(log, e.key);
    LastSetIsTheLastWrite(log, k);
    if m < e.since {
      ReferenceIsStable(log, e.since, k);
      assert ShowsAt(log, e.since, k, e.now, entry);
    } else {
      ReferenceIsStable(log, m + 1, k);
      LatestGrows(from, log, m);
      if entry.timeOut >= 0 {
        assert ShowsAfter(log, m, e, entry);
      } else {
        NothingExplains(from, log, e, entry);
      }
    }
  }

  /** Every stamp from log[p..] on is at least as late as every clock reading before. */
  lemma {:induction false} StampsAreOrdered(from: Instant, log: seq<Event>, p: nat, i: nat)
    requires Legal(from, log) && p <= i < |log| && log[i].SetKV?
    ensures Latest(from, log[..p]) <= log[i].init
  {
    if i < |log| - 1 {
      StampsAreOrdered(from, Front(log), p, i);
      assert Front(log)[..p] == log[..p];
    } else {
      LatestGrows(from, Front(log), p);
      assert Front(log)[..p] == log[..p];
    }
  }

  lemma NothingExplains(from: Instant, log: seq<Event>, e: Event, entry: Entry)
    requires Legal(from, log) && Follows(from, log, e) && e.GetKV? && e.key in Reference(log)
    requires entry == Reference(log)[e.key] && entry.timeOut < 0 && LastSet(log, e.key) >= e.since
    ensures !Explained(log, e, entry)
  {
    var k, m := e.key, LastSet(log, e.key);
    LastSetIsTheLastWrite(log, k);
    if ShowsAt(log, e.since, k, e.now, entry) {
      // the same entry, set twice at the same instant: its deadline is before that instant, and before e.now
      LastSetIsTheLastWrite(log[..e.since], k);
      var m' := LastSet(log[..e.since], k);
      LatestGrows(from, log[..e.since], m');
      assert false;
    }
    forall i | e.since <= i < |log| && log[i].SetKV?
      ensures !ShowsAfter(log, i, e, entry)
    {
      if ShowsAfter(log, i, e, entry) {
        LastSetIsTheLastWrite(log[..i + 1], k);
        var m' := LastSet(log[..i + 1], k);
        if m' < i {
          StampsAreOrdered(from, log, m' + 1, i);
        }
        assert false;
      }
    }
  }

  /** The exception is real: the clock is read at 0, a time-out of -1 s is stored at 2 s, and then found. */
  lemma NegativeTimeOutIsRead(k: Key, v: Value)
    ensures var log := [SetKV(k, v, -1, 2 * SECOND)];
      var e := GetKV(k, 0, 0, 2 * SECOND, Some(v));
      && Legal(0, log) && Follows(0, log, e)
      && forall now :: now >= 2 * SECOND ==> Lookup(Reference(log), k, now) == None
  {
    var set_ := SetKV(k, v, -1, 2 * SECOND);
    var log := [set_];
    assert Front(log) == [];
    assert log[..0] == [];
    assert TimeOut(-1) == -SECOND;
    assert Replay(log)[k] == Stored(set_) && Reference(log)[k] == Stored(set_);
  }

  /** Each prefix of a legal log is one, and permits the event that follows it. */
  lemma {:induction false} EachFollows(from: Instant, log: seq<Event>, n: nat)
    requires Legal(from, log) && n < |log|
    ensures Legal(from, log[..n]) && Follows(from, log[..n], log[n])
  {
    if n == |log| - 1 {
      assert log[..n] == Front(log);
    } else {
      EachFollows(from, Front(log), n);
      assert Front(log)[..n] == log[..n];
    }
  }

  // ------------------------------------------- can deletion by expiry be observed?

  /** A sweep overtakes a lookup that read its clock earlier: it removed an entry the lookup would still show. */
  predicate Overtaken(log: seq<Event>, k: Key, now: Instant) {
    k in Reference(log) && SweptAway(log, k) && !Reference(log)[k].Expired(now)
  }

  /** A lookup answers as the never-deleting store would at the same reading, if and only if no sweep overtook it. */
  lemma LookupAgreesUnlessOvertaken(log: seq<Event>, k: Key, now: Instant)
    ensures Lookup(Replay(log), k, now) == Lookup(Reference(log), k, now) <==> !Overtaken(log, k, now)
  {
    ConcreteIsReferenceLessSwept(log, k);
  }

  /** No sweep overtakes a lookup whose clock reading is as late as every reading made under the lock. */
  lemma {:induction false} UpToDateIsNotOvertaken(from: Instant, log: seq<Event>, k: Key, now: Instant)
    requires Legal(from, log) && Latest(from, log) <= now
    ensures !Overtaken(log, k, now)
  {
    if k in Reference(log) && SweptAway(log, k) {
      SweptMeansExpired(from, log, k);
    }
  }

  /** The run with every collection, lookup and length query left out. */
  function WritesOf(log: seq<Event>): seq<Event> {
    if log == [] then []
    else WritesOf(Front(log)) + if Last(log).SetKV? || Last(log).DeleteKV? then [Last(log)] else []
  }

  /** The reference store is what the writes alone make. */
  lemma {:induction false} ReferenceIsReplayOfWrites(log: seq<Event>)
    ensures Reference(log) == Replay(WritesOf(log))
  {
    if log != [] {
      ReferenceIsReplayOfWrites(Front(log));
      var w := WritesOf(Front(log));
      if Last(log).SetKV? || Last(log).DeleteKV? {
        assert Front(w + [Last(log)]) == w;
      } else {
        assert WritesOf(log) == w;
      }
    }
  }

  lemma {:induction false} LatestOfWrites(from: Instant, log: seq<Event>)
    ensures Latest(from, WritesOf(log)) <= Latest(from, log)
  {
    if log != [] {
      var was, e := Front(log), Last(log);
      LatestOfWrites(from, was);
      if e.SetKV? || e.DeleteKV? {
        assert Front(WritesOf(was) + [e]) == WritesOf(was);
      } else {
        assert WritesOf(log) == WritesOf(was);
      }
    }
  }

  /** A run with its collections, lookups and length queries left out is still a run. */
  lemma {:induction false} WritesAreARun(from: Instant, log: seq<Event>)
    requires Legal(from, log)
    ensures Legal(from, WritesOf(log)) && Latest(from, WritesOf(log)) <= Latest(from, log)
  {
    LatestOfWrites(from, log);
    if log != [] {
      var was, e := Front(log), Last(log);
      WritesAreARun(from, was);
      if e.SetKV? || e.DeleteKV? {
        LogExtends(from, WritesOf(was), e);
      } else {
        assert WritesOf(log) == WritesOf(was);
      }
    }
  }

  /** Inserting or removing collections and lookups, anywhere, changes no up-to-date lookup. */
  lemma DeletionIsUnobservable(from: Instant, log: seq<Event>, log': seq<Event>, k: Key, now: Instant)
    requires Legal(from, log) && Legal(from, log') && WritesOf(log) == WritesOf(log')
    requires Latest(from, log) <= now && Latest(from, log') <= now
    ensures Lookup(Replay(log), k, now) == Lookup(Replay(log'), k, now)
  {
    ReferenceIsReplayOfWrites(log);
    ReferenceIsReplayOfWrites(log');
    UpToDateIsNotOvertaken(from, log, k, now);
    UpToDateIsNotOvertaken(from, log', k, now);
    LookupAgreesUnlessOvertaken(log, k, now);
    LookupAgreesUnlessOvertaken(log', k, now);
  }

  /** Since GetKV reads the clock before it takes the lock, an overtaken lookup exists: one collection in between
      turns a hit into a miss. */
  lemma CollectionIsObserved(k: Key, v: Value)
    ensures var set_ := SetKV(k, v, 0, 10);
      && Legal(0, [set_]) && Legal(0, [set_, Collect(11)])
      && Follows(0, [set_], GetKV(k, 1, 10, 11, Some(v)))
      && Follows(0, [set_, Collect(11)], GetKV(k, 1, 10, 11, None))
      && Overtaken([set_, Collect(11)], k, 10)
  {
    var set_ := SetKV(k, v, 0, 10);
    var log, log' := [set_], [set_, Collect(11)];
    assert [] + [set_] == log && log + [Collect(11)] == log';
    assert Legal(0, []) && Latest(0, []) == 0 && Reference([]) == map[];
    LogExtends(0, [], set_);
    LogExtends(0, log, Collect(11));
    assert TimeOut(0) == 0 && Stored(set_) == Entry(v, 10, 0);
    assert Front(log) == [] && Front(log') == log;
    assert log[..1] == log && log'[..1] == log;
  }

  /** Once a key is gone it stays gone until it is set again, whatever else happens. */
  lemma {:induction false} NoReappearance(log: seq<Event>, p: nat, k: Key, now: Instant, later: Instant)
    requires p <= |log| && now <= later
    requires forall i :: p <= i < |log| ==> !Sets(log[i], k)
    requires Lookup(Replay(log[..p]), k, now) == None
    ensures Lookup(Replay(log), k, later) == None
  {
    if p == |log| {
      assert log[..p] == log;
    } else {
      assert !Sets(Last(log), k);
      assert Front(log)[..p] == log[..p];
      assert forall i :: p <= i < |log| - 1 ==> Front(log)[i] == log[i];
      NoReappearance(Front(log), p, k, now, later);
    }
  }

  // ------------------------------------------------------------------ time to live

  const MAX_SECONDS := 9223372036

  /** The time-out is the one int64 that agrees with the product modulo 2^64. */
  lemma TimeOutIsTheInt64Product(seconds: int)
    ensures IsInt64(TimeOut(seconds)) && (TimeOut(seconds) - seconds * SECOND) % TWO_64 == 0
  {
    var x := seconds * SECOND + TWO_63;
    assert TimeOut(seconds) - seconds * SECOND == x % TWO_64 - x == -(x / TWO_64) * TWO_64;
    ResidueIs(-(x / TWO_64) * TWO_64, -(x / TWO_64), 0);
  }

  /** The int64 product of seconds and nanoseconds is exact in this range and in no other case. */
  lemma ProductIsExact(seconds: int)
    requires IsInt64(seconds)
    ensures TimeOut(seconds) == seconds * SECOND <==> -MAX_SECONDS <= seconds <= MAX_SECONDS
  {
    var x := seconds * SECOND;
    if -MAX_SECONDS <= seconds <= MAX_SECONDS {
      assert 0 <= x + TWO_63 < TWO_64;
    } else {
      assert x + TWO_63 < 0 || x + TWO_63 >= TWO_64;
    }
  }

  /** A key set with `seconds` is readable for exactly that long, at every instant from its stamp on, if and only if
      the seconds are in range, or negative with a product in the upper half of the residues modulo 2^64. */
  lemma TimeToLive(seconds: int, init: Instant, v: Value)
    requires IsInt64(seconds)
    ensures (forall now :: now >= init ==>
              (!Entry(v, init, TimeOut(seconds)).Expired(now) <==> now <= init + seconds * SECOND))
      <==> seconds <= MAX_SECONDS && (seconds < 0 ==> seconds * SECOND % TWO_64 >= TWO_63)
  {
    ProductIsExact(seconds);
    WrapsNegative(seconds * SECOND);
    var entry := Entry(v, init, TimeOut(seconds));
    if seconds > MAX_SECONDS {
      var end := init + seconds * SECOND;
      assert entry.Expired(end);
    } else if seconds < 0 && TimeOut(seconds) >= 0 {
      assert !entry.Expired(init);
    }
  }

  /** The wrapped product is negative exactly for the upper half of the residues. */
  lemma WrapsNegative(x: int)
    ensures Wrap(x) < 0 <==> x % TWO_64 >= TWO_63
  {
    var q, r := x / TWO_64, x % TWO_64;
    assert x + TWO_63 == q * TWO_64 + (r + TWO_63);
    if r < TWO_63 {
      ResidueIs(x + TWO_63, q, r + TWO_63);
    } else {
      ResidueIs(x + TWO_63, q + 1, r - TWO_63);
    }
  }

  lemma ResidueIs(x: int, q: int, r: int)
    requires 0 <= r < TWO_64 && x == q * TWO_64 + r
    ensures x % TWO_64 == r
  {
  }

  /** One second below the range, a key that should be gone at once stays for some 292 years. */
  lemma TooShortIsTooLong(init: Instant, v: Value, now: Instant)
    requires now <= init + MAX_SECONDS * SECOND
    ensures !Entry(v, init, TimeOut(-MAX_SECONDS - 1)).Expired(now)
  {
  }

  /** One second beyond the range, the key is gone at once. */
  lemma TooLongIsTooShort(init: Instant, v: Value)
    ensures Entry(v, init, TimeOut(MAX_SECONDS + 1)).Expired(init)
  {
  }

  /** In a run, an up-to-date lookup of a key that was set with a time-out in range and not
      written since finds it up to the last nanosecond of its time to live, and never after. */
  lemma {:induction false} ReadableWindow(from: Instant, log: seq<Event>, k: Key, now: Instant)
    requires Legal(from, log) && Latest(from, log) <= now
    requires k in Reference(log) && 0 <= log[LastSet(log, k)].seconds <= MAX_SECONDS
    ensures var set_ := log[LastSet(log, k)];
      Lookup(Replay(log), k, now)
      == if set_.init <= now <= set_.init + set_.seconds * SECOND then Some(set_.value) else None
  {
    LastSetIsTheLastWrite(log, k);
    UpToDateIsNotOvertaken(from, log, k, now);
    LookupAgreesUnlessOvertaken(log, k, now);
    ProductIsExact(log[LastSet(log, k)].seconds);
    LatestGrows(from, log, LastSet(log, k));
  }

  /** The same, said of the SetKV itself, which stored what it was given. */
  lemma ReadableUntilItsDeadline(from: Instant, log: seq<Event>, m: nat, k: Key, v: Value, seconds: int, init: Instant,
                                 now: Instant)
    requires Legal(from, log) && Latest(from, log) <= now && 0 <= seconds <= MAX_SECONDS
    requires m < |log| && log[m] == SetKV(k, v, seconds, init) && forall i :: m < i < |log| ==> !Writes(log[i], k)
    ensures Lookup(Replay(log), k, now) == if now <= init + seconds * SECOND then Some(v) else None
  {
    SetIsRemembered(log, m, k);
    LatestGrows(from, log, m);
    ReadableWindow(from, log, k, now);
  }

  /** A GetKV finds the last value set, if it answers by the deadline, and nothing, if it reads its clock after it. */
  lemma ReadsTheLastWrite(from: Instant, log: seq<Event>, m: nat, n: nat, k: Key)
    requires Legal(from, log) && m < n < |log|
    requires Sets(log[m], k) && 0 <= log[m].seconds <= MAX_SECONDS && forall i :: m < i < n ==> !Writes(log[i], k)
    requires log[n].GetKV? && log[n].key == k
    ensures var deadline := log[m].init + log[m].seconds * SECOND;
      && (log[n].at <= deadline ==> log[n].answer == Some(log[m].value))
      && (log[n].now > deadline ==> log[n].answer == None)
      && (log[n].answer.Some? ==> log[n].answer == Some(log[m].value))
  {
    var was := log[..n];
    EachFollows(from, log, n);
    SetIsRemembered(was, m, k);
    ProductIsExact(log[m].seconds);
    Sandwich(from, was, k);
  }

  /** A key that was never set, or deleted and not set since, is not found. */
  lemma NothingIsReadWithoutASet(from: Instant, log: seq<Event>, n: nat, k: Key)
    requires Legal(from, log) && n < |log| && log[n].GetKV? && log[n].key == k && log[n].answer.Some?
    ensures exists m :: 0 <= m < n && Sets(log[m], k) && forall i :: m < i < n ==> !Writes(log[i], k)
  {
    var was := log[..n];
    EachFollows(from, log, n);
    Sandwich(from, was, k);
    LastSetIsTheLastWrite(was, k);
    var m := LastSet(was, k);
    assert Sets(log[m], k) && forall i :: m < i < n ==> was[i] == log[i];
  }

  // -------------------------------------------------------------------- collection

  /** Two passes are one pass at the later of the two readings; one pass changes nothing the second time. */
  lemma PassesCompose(m: Store, now: Instant, later: Instant)
    requires now <= later
    ensures Swept(Swept(m, now), later) == Swept(m, later)
    ensures Swept(Swept(m, later), now) == Swept(m, later)
    ensures Swept(Swept(m, now), now) == Swept(m, now)
  {
  }
}
