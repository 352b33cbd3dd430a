/** Every interleaving of the handlers looks as if each critical section had happened at
    one moment: the machine refines the two logs, and the locks do their work. */
module ServerRuns {
  import opened Common
  import opened ServerMachine
  import B = BrokerSpec
  import BR = BrokerRuns
  import K = KvSpec

  // ----------------------------------------------------------------- the invariant

  /** A lock is taken exactly when one handler is where it holds it. */
  ghost predicate LocksFit(s: State) {
    && (forall i: ThreadId :: s.At(i).HoldsKv() <==> s.kvLock == Some(i))
    && (forall i: ThreadId :: s.At(i).HoldsBr() <==> s.brokersLock == Some(i))
  }

  /** A lookup under way remembers a reading as late as every event it had seen by then. */
  ghost predicate LookupFits(from: K.Instant, log: seq<K.Event>, clock: K.Instant, pc: Pc) {
    (pc.KvWait? || pc.KvHeld?) && pc.kvOp.OpGet? ==>
      pc.kvOp.since <= |log| && K.Latest(from, log[..pc.kvOp.since]) <= pc.kvOp.now <= clock
  }

  /** What the holder of kvLock has done to the map so far. */
  ghost predicate KvFits(from: K.Instant, log: seq<K.Event>, clock: K.Instant, m: K.Store, pc: Pc) {
    var committed := K.Replay(log);
    match pc
    case Stamped(_, _, _, init) => m == committed && K.Latest(from, log) <= init <= clock
    case Collecting(now, keys) =>
      && K.Latest(from, log) <= now <= clock
      && keys <= committed.Keys
      && m == K.SweptExcept(committed, now, keys)
    case _ => m == committed
  }

  ghost predicate KvInv(from: K.Instant, s: State) {
    && K.Legal(from, s.kvLog)
    && K.Latest(from, s.kvLog) <= s.clock
    && (forall i: ThreadId :: LookupFits(from, s.kvLog, s.clock, s.At(i)))
    && KvFits(from, s.kvLog, s.clock, s.kvMap, Holder(s, s.kvLock))
  }

  function Holder(s: State, lock: Option<ThreadId>): Pc {
    if lock.Some? then s.At(lock.value) else Idle
  }

  /** What the holder of brokersLock has done to the mailboxes so far. */
  ghost predicate BrFits(log: seq<B.Event>, b: B.Mailboxes, pc: Pc) {
    var committed := B.Replay(log);
    match pc
    case Pushing(t, v, ids) =>
      if t in committed then ids <= committed[t].Keys && b == B.PartPublished(committed, t, v, ids)
      else ids == {} && b == committed
    case Draining(t, id, count, sent) => DrainFits(committed, b, t, id, count, sent)
    case Sending(t, id, count, sent, val) => |sent| < count && DrainFits(committed, b, t, id, count, sent + [val])
    case CountingTopics(_, topics, counts) => b == committed && CountFits(b, topics, counts)
    case CountingSubs(_, topics, counts, t, ids, part) =>
      && b == committed && CountFits(b, topics + {t}, counts) && t in b && t !in topics
      && ids <= b[t].Keys
      && (forall id :: id in part <==> id in b[t] && id !in ids)
      && (forall id :: id in part ==> part[id] == |b[t][id]|)
    case _ => b == committed
  }

  ghost predicate DrainFits(committed: B.Mailboxes, b: B.Mailboxes, t: B.Topic, id: B.SubscriptionId, count: nat,
                            out: seq<Value>)
  {
    && B.Has(committed, t, id)
    && count == |committed[t][id]|
    && out <= committed[t][id]
    && b == B.WithBox(committed, t, id, committed[t][id][|out|..])
  }

  ghost predicate CountFits(b: B.Mailboxes, topics: set<B.Topic>, counts: B.Counts) {
    && topics <= b.Keys
    && (forall t :: t in counts <==> t in b && t !in topics)
    && (forall t :: t in counts ==> counts[t] == B.TopicCounts(b[t]))
  }

  ghost predicate BrInv(s: State) {
    && B.Legal(s.brLog)
    && BR.FailureIsLast(s.brLog)
    && BrFits(s.brLog, s.boxes, Holder(s, s.brokersLock))
    && (s.brLog != [] && BR.Fails(Last(s.brLog)) <==> Holder(s, s.brokersLock).Abandoned?)
  }

  /** The only crash there is: Consume for a subscription that does not exist. */
  ghost predicate LooksUpNothing(s: State) {
    var pc := Holder(s, s.brokersLock);
    pc.BrHeld? && pc.brOp.OpConsume? && !B.Has(s.boxes, pc.brOp.topic, pc.brOp.id)
  }

  ghost predicate Inv(from: K.Instant, s: State) {
    LocksFit(s) && KvInv(from, s) && BrInv(s) && (s.crashed ==> LooksUpNothing(s))
  }

  // ------------------------------------------------------- what a step leaves alone

  /** Only handler `i` moved. */
  ghost predicate Moved(s: State, s': State, i: ThreadId) {
    forall j: ThreadId :: j != i ==> s'.At(j) == s.At(j)
  }

  ghost predicate SameBrokers(s: State, s': State) {
    s'.brokersLock == s.brokersLock && s'.boxes == s.boxes && s'.brLog == s.brLog
  }

  ghost predicate SameKv(s: State, s': State) {
    s'.kvLock == s.kvLock && s'.kvMap == s.kvMap && s'.kvLog == s.kvLog && s'.clock >= s.clock
  }

  /** A handler that does not hold brokersLock does not disturb what it protects. */
  lemma BrokersUntouched(s: State, s': State, i: ThreadId)
    requires LocksFit(s) && BrInv(s)
    requires Moved(s, s', i) && SameBrokers(s, s') && !s.At(i).HoldsBr() && !s'.At(i).HoldsBr()
    ensures BrInv(s') && Holder(s', s'.brokersLock) == Holder(s, s.brokersLock)
    ensures forall j: ThreadId :: s'.At(j).HoldsBr() <==> s'.brokersLock == Some(j)
  {
    forall j: ThreadId ensures s'.At(j).HoldsBr() <==> s'.brokersLock == Some(j) {
      assert j != i ==> s'.At(j) == s.At(j);
    }
  }

  lemma KvUntouched(from: K.Instant, s: State, s': State, i: ThreadId)
    requires LocksFit(s) && KvInv(from, s)
    requires Moved(s, s', i) && SameKv(s, s') && !s.At(i).HoldsKv() && !s'.At(i).HoldsKv()
    requires LookupFits(from, s'.kvLog, s'.clock, s'.At(i))
    ensures KvInv(from, s')
    ensures forall j: ThreadId :: s'.At(j).HoldsKv() <==> s'.kvLock == Some(j)
  {
    forall j: ThreadId
      ensures s'.At(j).HoldsKv() <==> s'.kvLock == Some(j)
      ensures LookupFits(from, s'.kvLog, s'.clock, s'.At(j))
    {
      assert j != i ==> s'.At(j) == s.At(j);
      assert LookupFits(from, s.kvLog, s.clock, s.At(j));
    }
  }

  // ------------------------------------------------------------ steps under kvLock

  /** The holder of kvLock moves on, keeping the lock or, once the map agrees with the log, giving it up. */
  ghost predicate KvHolderMoves(from: K.Instant, s: State, s': State, i: ThreadId) {
    && s.kvLock == Some(i)
    && Moved(s, s', i) && SameBrokers(s, s') && s'.clock == s.clock && s'.crashed == s.crashed
    && s.kvLog <= s'.kvLog && K.Legal(from, s'.kvLog) && K.Latest(from, s'.kvLog) <= s.clock
    && (if s'.At(i).HoldsKv() then s'.kvLock == Some(i) else s'.kvLock == None)
    && !s'.At(i).KvHeld? && !(s'.At(i).KvWait?) && !s'.At(i).HoldsBr()
    && KvFits(from, s'.kvLog, s'.clock, s'.kvMap, s'.At(i))
  }

  lemma KvHolderKeepsInv(from: K.Instant, s: State, s': State, i: ThreadId)
    requires Inv(from, s) && KvHolderMoves(from, s, s', i)
    ensures Inv(from, s')
  {
    assert s.At(i).HoldsKv();
    BrokersUntouched(s, s', i);
    forall j: ThreadId
      ensures s'.At(j).HoldsKv() <==> s'.kvLock == Some(j)
      ensures LookupFits(from, s'.kvLog, s'.clock, s'.At(j))
    {
      if j != i {
        assert s'.At(j) == s.At(j) && LookupFits(from, s.kvLog, s.clock, s.At(j));
        var pc := s.At(j);
        if (pc.KvWait? || pc.KvHeld?) && pc.kvOp.OpGet? {
          assert s'.kvLog[..pc.kvOp.since] == s.kvLog[..pc.kvOp.since];
        }
      }
    }
  }

  /** A critical section that takes effect at once. */
  lemma KvEffect(from: K.Instant, s: State, s': State, i: ThreadId, e: K.Event, pc: Pc)
    requires KvInv(from, s) && s.kvLock == Some(i) && !s.At(i).Collecting?
    requires K.Follows(from, s.kvLog, e) && pc.KvDone?
    requires s' == s.(kvMap := K.Apply(s.kvMap, e), kvLog := s.kvLog + [e]).Goto(i, pc)
    requires (e.SetKV? ==> e.init <= s.clock) && (e.GetKV? ==> e.at <= s.clock) && !e.Collect?
    ensures KvHolderMoves(from, s, s', i)
  {
    K.LogExtends(from, s.kvLog, e);
  }

  lemma ActKvMoves(from: K.Instant, s: State, i: ThreadId)
    requires KvInv(from, s) && s.kvLock == Some(i) && (s.At(i).KvHeld? || s.At(i).Stamped?)
    ensures KvHolderMoves(from, s, ActedKv(s, i), i)
  {
    assert LookupFits(from, s.kvLog, s.clock, s.At(i));
    var s' := ActedKv(s, i);
    match s.At(i)
    case Stamped(k, v, seconds, init) => KvEffect(from, s, s', i, K.SetKV(k, v, seconds, init), KvDone(None));
    case KvHeld(OpGet(k, since, now)) =>
      KvEffect(from, s, s', i, K.GetKV(k, since, now, s.clock, K.Lookup(s.kvMap, k, now)), KvDone(None));
    case KvHeld(OpDelete(k)) => KvEffect(from, s, s', i, K.DeleteKV(k), KvDone(None));
    case KvHeld(OpLength) => KvEffect(from, s, s', i, K.Length(|s.kvMap|), KvDone(Some(Size(|s.kvMap|, |s.kvLog|))));
    case KvHeld(OpSet(_, _, _)) =>
    case KvHeld(OpCollect) => assert K.SweptExcept(s.kvMap, s.clock, s.kvMap.Keys) == s.kvMap;
  }

  lemma VisitMoves(from: K.Instant, s: State, i: ThreadId, k: K.Key)
    requires KvInv(from, s) && s.kvLock == Some(i) && s.At(i).Collecting? && k in s.At(i).keys
    ensures KvHolderMoves(from, s, Visited(s, i, k), i)
  {
    K.CollectStep(K.Replay(s.kvLog), s.At(i).now, s.At(i).keys, k);
  }

  lemma CollectionEnds(from: K.Instant, s: State, i: ThreadId)
    requires KvInv(from, s) && s.kvLock == Some(i) && s.At(i).Collecting? && s.At(i).keys == {}
    ensures KvHolderMoves(from, s, UnlockedKv(s, i), i)
  {
    var m, now := K.Replay(s.kvLog), s.At(i).now;
    assert s.kvMap == K.SweptExcept(m, now, {}) == K.Swept(m, now);
    K.LogExtends(from, s.kvLog, K.Collect(now));
  }

  lemma UnlockKvMoves(from: K.Instant, s: State, i: ThreadId)
    requires KvInv(from, s) && s.kvLock == Some(i)
    requires s.At(i).KvDone? || (s.At(i).Collecting? && s.At(i).keys == {})
    ensures KvHolderMoves(from, s, UnlockedKv(s, i), i)
  {
    if s.At(i).Collecting? { CollectionEnds(from, s, i); }
  }

  // ------------------------------------------------------- steps under brokersLock

  /** The holder of brokersLock moves on, keeping the lock or, once the mailboxes agree with the log, giving it up. */
  ghost predicate BrHolderMoves(s: State, s': State, i: ThreadId) {
    && s.brokersLock == Some(i)
    && Moved(s, s', i) && SameKv(s, s') && s'.clock == s.clock && !s'.crashed
    && B.Legal(s'.brLog) && BR.FailureIsLast(s'.brLog)
    && (if s'.At(i).HoldsBr() then s'.brokersLock == Some(i) else s'.brokersLock == None)
    && !s'.At(i).HoldsKv() && !s'.At(i).KvWait?
    && BrFits(s'.brLog, s'.boxes, s'.At(i))
    && (s'.brLog != [] && BR.Fails(Last(s'.brLog)) <==> s'.At(i).Abandoned?)
  }

  lemma BrHolderKeepsInv(from: K.Instant, s: State, s': State, i: ThreadId)
    requires Inv(from, s) && BrHolderMoves(s, s', i)
    ensures Inv(from, s')
  {
    assert s.At(i).HoldsBr();
    KvUntouched(from, s, s', i);
    forall j: ThreadId ensures s'.At(j).HoldsBr() <==> s'.brokersLock == Some(j) {
      assert j != i ==> s'.At(j) == s.At(j);
    }
  }

  /** A critical section that takes effect, or is complete, here. */
  lemma BrEffect(s: State, s': State, i: ThreadId, e: B.Event)
    requires BrInv(s) && !s.crashed && s.brokersLock == Some(i) && !s.At(i).Abandoned?
    requires B.Allowed(B.Replay(s.brLog), e) && s'.boxes == B.Apply(B.Replay(s.brLog), e)
    requires s'.brLog == s.brLog + [e]
    requires Moved(s, s', i) && SameKv(s, s') && s'.clock == s.clock && !s'.crashed
    requires s'.At(i).Idle? || s'.At(i).Acking? || s'.At(i).Reporting? || s'.At(i).BrDone? || s'.At(i).Abandoned?
    requires s'.brokersLock == if s'.At(i).HoldsBr() then Some(i) else None
    requires s'.At(i).Abandoned? <==> BR.Fails(e)
    ensures BrHolderMoves(s, s', i)
  {
    BR.LogExtends(s.brLog, e);
  }

  lemma ActBrokersMoves(s: State, i: ThreadId)
    requires BrInv(s) && !s.crashed && s.brokersLock == Some(i) && s.At(i).BrHeld?
    ensures var s' := ActedBrokers(s, i);
      BrHolderMoves(s, s', i) || (s' == s.(crashed := true) && LooksUpNothing(s))
  {
    var s', b := ActedBrokers(s, i), s.boxes;
    match s.At(i).brOp
    case OpPublish(t, v) =>
      if t in b { B.PublishEnds(b, t, v); }
    case OpConsume(t, id) =>
      if B.Has(b, t, id) { B.DrainStarts(b, t, id); }
    case OpSnapshot(_) =>
    case op => BrEffect(s, s', i, Simple(b, op));
  }

  lemma PushMoves(s: State, i: ThreadId, id: B.SubscriptionId)
    requires BrInv(s) && !s.crashed && s.brokersLock == Some(i) && s.At(i).Pushing? && id in s.At(i).ids
    ensures BrHolderMoves(s, Pushed(s, i, id), i)
  {
    B.PublishStep(B.Replay(s.brLog), s.At(i).topic, s.At(i).value, s.At(i).ids, id);
  }

  lemma PopMoves(s: State, i: ThreadId)
    requires BrInv(s) && !s.crashed && s.brokersLock == Some(i)
    requires s.At(i).Draining? && |s.At(i).sent| < s.At(i).count
    ensures BrHolderMoves(s, PoppedOne(s, i), i)
  {
    var Draining(t, id, count, sent) := s.At(i);
    B.DrainStep(B.Replay(s.brLog), t, id, |sent|);
  }

  lemma SendMoves(s: State, i: ThreadId, ok: bool)
    requires BrInv(s) && !s.crashed && s.brokersLock == Some(i) && s.At(i).Sending?
    ensures BrHolderMoves(s, SentOne(s, i, ok), i)
  {
    var Sending(t, id, count, sent, val) := s.At(i);
    if !ok {
      BrEffect(s, SentOne(s, i, ok), i, B.Consume(t, id, sent, [val]));
    }
  }

  lemma OpenTopicMoves(s: State, i: ThreadId, t: B.Topic)
    requires BrInv(s) && !s.crashed && s.brokersLock == Some(i) && s.At(i).CountingTopics? && t in s.At(i).topics
    ensures BrHolderMoves(s, OpenedTopic(s, i, t), i)
  {
    assert s.At(i).topics - {t} + {t} == s.At(i).topics;
  }

  lemma CountSubMoves(s: State, i: ThreadId, id: B.SubscriptionId)
    requires BrInv(s) && !s.crashed && s.brokersLock == Some(i) && s.At(i).CountingSubs? && id in s.At(i).ids
    ensures BrHolderMoves(s, CountedSub(s, i, id), i)
  {
  }

  lemma CloseTopicMoves(s: State, i: ThreadId)
    requires BrInv(s) && !s.crashed && s.brokersLock == Some(i) && s.At(i).CountingSubs? && s.At(i).ids == {}
    ensures BrHolderMoves(s, ClosedTopic(s, i), i)
  {
    assert s.At(i).part == B.TopicCounts(s.boxes[s.At(i).topic]);
  }

  lemma PublishEnds(s: State, i: ThreadId)
    requires BrInv(s) && !s.crashed && s.brokersLock == Some(i) && s.At(i).Pushing? && s.At(i).ids == {}
    ensures BrHolderMoves(s, UnlockedBrokers(s, i), i)
  {
    var b, t, v := B.Replay(s.brLog), s.At(i).topic, s.At(i).value;
    if t in b { B.PublishEnds(b, t, v); }
    BrEffect(s, UnlockedBrokers(s, i), i, B.Publish(t, v, i));
  }

  lemma ConsumeEnds(s: State, i: ThreadId)
    requires BrInv(s) && !s.crashed && s.brokersLock == Some(i)
    requires s.At(i).Draining? && |s.At(i).sent| >= s.At(i).count
    ensures BrHolderMoves(s, UnlockedBrokers(s, i), i)
  {
    var t, id, sent := s.At(i).topic, s.At(i).id, s.At(i).sent;
    assert sent == B.Replay(s.brLog)[t][id] && sent + [] == sent;
    BrEffect(s, UnlockedBrokers(s, i), i, B.Consume(t, id, sent, []));
  }

  lemma UnlockBrokersMoves(s: State, i: ThreadId)
    requires BrInv(s) && s.brokersLock == Some(i) && Enabled(s, UnlockBrokers(i))
    ensures BrHolderMoves(s, UnlockedBrokers(s, i), i)
  {
    match s.At(i)
    case BrDone =>
    case Pushing(_, _, _) => PublishEnds(s, i);
    case Draining(_, _, _, _) => ConsumeEnds(s, i);
    case CountingTopics(_, _, counts) => BrEffect(s, UnlockedBrokers(s, i), i, B.Snapshot(counts));
  }

  // ------------------------------------------------------------ steps outside a lock

  /** Handler `i` holds no lock before or after. */
  lemma FreeMoveKeepsInv(from: K.Instant, s: State, s': State, i: ThreadId)
    requires Inv(from, s) && !s.crashed && !s'.crashed
    requires Moved(s, s', i) && SameKv(s, s') && SameBrokers(s, s')
    requires !s.At(i).HoldsKv() && !s.At(i).HoldsBr() && !s'.At(i).HoldsKv() && !s'.At(i).HoldsBr()
    requires LookupFits(from, s'.kvLog, s'.clock, s'.At(i))
    ensures Inv(from, s')
  {
    KvUntouched(from, s, s', i);
    BrokersUntouched(s, s', i);
  }

  lemma TickKeepsInv(from: K.Instant, s: State, d: nat)
    requires Inv(from, s)
    ensures Inv(from, s.(clock := s.clock + d))
  {
    forall j: ThreadId ensures LookupFits(from, s.kvLog, s.clock + d, s.At(j)) {
      assert LookupFits(from, s.kvLog, s.clock, s.At(j));
    }
  }

  lemma LockKvKeepsInv(from: K.Instant, s: State, i: ThreadId)
    requires Inv(from, s) && Enabled(s, LockKv(i))
    ensures Inv(from, Next(s, LockKv(i)))
  {
    var s' := Next(s, LockKv(i));
    BrokersUntouched(s, s', i);
    assert LookupFits(from, s.kvLog, s.clock, s.At(i));
    forall j: ThreadId
      ensures s'.At(j).HoldsKv() <==> s'.kvLock == Some(j)
      ensures LookupFits(from, s'.kvLog, s'.clock, s'.At(j))
    {
      if j != i {
        assert s'.At(j) == s.At(j) && LookupFits(from, s.kvLog, s.clock, s.At(j));
        assert s.At(j).HoldsKv() <==> s.kvLock == Some(j);
      }
    }
  }

  lemma LockBrokersKeepsInv(from: K.Instant, s: State, i: ThreadId)
    requires Inv(from, s) && Enabled(s, LockBrokers(i))
    ensures Inv(from, Next(s, LockBrokers(i)))
  {
    var s' := Next(s, LockBrokers(i));
    KvUntouched(from, s, s', i);
    forall j: ThreadId ensures s'.At(j).HoldsBr() <==> s'.brokersLock == Some(j) {
      if j != i {
        assert s'.At(j) == s.At(j);
        assert s.At(j).HoldsBr() <==> s.brokersLock == Some(j);
      }
    }
  }

  // ------------------------------------------------------------------ whole runs

  lemma KvStepKeepsInv(from: K.Instant, s: State, step: Step)
    requires Inv(from, s) && Enabled(s, step) && (step.ActKv? || step.Visit? || step.UnlockKv?)
    ensures Inv(from, Next(s, step))
  {
    assert s.At(step.i).HoldsKv();
    match step {
      case ActKv(i) => ActKvMoves(from, s, i);
      case Visit(i, k) => VisitMoves(from, s, i, k);
      case UnlockKv(i) => UnlockKvMoves(from, s, i);
    }
    KvHolderKeepsInv(from, s, Next(s, step), step.i);
  }

  ghost predicate InBrokers(step: Step) {
    || step.ActBrokers? || step.Push? || step.Pop? || step.Send? || step.OpenTopic? || step.CountSub?
    || step.CloseTopic? || step.UnlockBrokers?
  }

  lemma BrStepMoves(s: State, step: Step)
    requires BrInv(s) && Enabled(s, step) && InBrokers(step) && s.brokersLock == Some(step.i)
    ensures var s' := Next(s, step);
      || BrHolderMoves(s, s', step.i)
      || (step.ActBrokers? && s' == s.(crashed := true) && LooksUpNothing(s))
  {
    match step
    case ActBrokers(i) => ActBrokersMoves(s, i);
    case Push(i, id) => PushMoves(s, i, id);
    case Pop(i) => PopMoves(s, i);
    case Send(i, ok) => SendMoves(s, i, ok);
    case OpenTopic(i, t) => OpenTopicMoves(s, i, t);
    case CountSub(i, id) => CountSubMoves(s, i, id);
    case CloseTopic(i) => CloseTopicMoves(s, i);
    case UnlockBrokers(i) => UnlockBrokersMoves(s, i);
  }

  lemma BrStepKeepsInv(from: K.Instant, s: State, step: Step)
    requires Inv(from, s) && Enabled(s, step) && InBrokers(step)
    ensures Inv(from, Next(s, step))
  {
    assert s.At(step.i).HoldsBr();
    BrStepMoves(s, step);
    var s' := Next(s, step);
    if BrHolderMoves(s, s', step.i) {
      BrHolderKeepsInv(from, s, s', step.i);
    }
  }

  lemma FreeStepKeepsInv(from: K.Instant, s: State, step: Step)
    requires Inv(from, s) && Enabled(s, step) && (step.Begin? || step.ReadClock? || step.Ack?)
    ensures Inv(from, Next(s, step))
  {
    assert s.kvLog[..|s.kvLog|] == s.kvLog;
    FreeMoveKeepsInv(from, s, Next(s, step), step.i);
  }

  lemma StepKeepsInv(from: K.Instant, s: State, step: Step)
    requires Inv(from, s) && Enabled(s, step)
    ensures Inv(from, Next(s, step))
  {
    match step
    case Tick(d) => TickKeepsInv(from, s, d);
    case Begin(_, _) => FreeStepKeepsInv(from, s, step);
    case ReadClock(_) => FreeStepKeepsInv(from, s, step);
    case Ack(_) => FreeStepKeepsInv(from, s, step);
    case LockKv(i) => LockKvKeepsInv(from, s, i);
    case LockBrokers(i) => LockBrokersKeepsInv(from, s, i);
    case ActKv(_) => KvStepKeepsInv(from, s, step);
    case Visit(_, _) => KvStepKeepsInv(from, s, step);
    case UnlockKv(_) => KvStepKeepsInv(from, s, step);
    case _ => BrStepKeepsInv(from, s, step);
  }

  lemma {:induction false} RunKeepsInv(from: K.Instant, s: State, steps: seq<Step>)
    requires Inv(from, s) && CanRun(s, steps)
    ensures Inv(from, Run(s, steps))
    decreases |steps|
  {
    if steps != [] {
      StepKeepsInv(from, s, steps[0]);
      RunKeepsInv(from, Next(s, steps[0]), steps[1..]);
    }
  }
}
