/** The server as concurrent handlers over two mutexes. Each step is one lock operation, clock reading, loop
    iteration or Send of one handler, and steps of different handlers interleave freely. The logs record each
    critical section when it takes effect; they influence nothing. */
module ServerMachine {
  import opened Common
  import B = BrokerSpec
  import K = KvSpec

  type ThreadId = nat

  /** What a handler does under kvLock. GetKV carries the clock reading it made before. */
  datatype KvOp =
    | OpSet(key: K.Key, value: Value, seconds: int)
    | OpGet(key: K.Key, since: nat, now: K.Instant)
    | OpDelete(key: K.Key)
    | OpCollect
    | OpLength

  /** The length of kvMap that Snapshot read under kvLock, and the place of that reading in the log. */
  datatype Size = Size(length: int, at: nat)

  /** What a handler does under brokersLock. `OpAdd` carries the id it is going to draw. */
  datatype BrOp =
    | OpCreate(topic: B.Topic)
    | OpRemove(topic: B.Topic)
    | OpAdd(topic: B.Topic, id: B.SubscriptionId)
    | OpDrop(topic: B.Topic, id: B.SubscriptionId)
    | OpPublish(topic: B.Topic, value: Value)
    | OpConsume(topic: B.Topic, id: B.SubscriptionId)
    | OpSnapshot(size: Size)

  /** Where a handler is. */
  datatype Pc =
    | Idle
    | GetEntered(key: K.Key)
    | KvWait(kvOp: KvOp)
    | KvHeld(kvOp: KvOp)
    | Stamped(key: K.Key, value: Value, seconds: int, init: K.Instant)
    | Collecting(now: K.Instant, keys: set<K.Key>)
    | KvDone(measured: Option<Size>)
    | BrWait(brOp: BrOp)
    | BrHeld(brOp: BrOp)
    | Pushing(topic: B.Topic, value: Value, ids: set<B.SubscriptionId>)
    | Draining(topic: B.Topic, id: B.SubscriptionId, count: nat, sent: seq<Value>)
    | Sending(topic: B.Topic, id: B.SubscriptionId, count: nat, sent: seq<Value>, val: Value)
    | CountingTopics(size: Size, topics: set<B.Topic>, counts: B.Counts)
    | CountingSubs(size: Size, topics: set<B.Topic>, counts: B.Counts, topic: B.Topic, ids: set<B.SubscriptionId>,
                   part: map<B.SubscriptionId, int>)
    | BrDone
    | Acking
    | Reporting(size: Size, counts: B.Counts, cut: nat) // Snapshot returns the two readings
    | Abandoned // returned from Consume without unlocking
  {
    predicate HoldsKv() {
      KvHeld? || Stamped? || Collecting? || KvDone?
    }

    predicate HoldsBr() {
      || BrHeld? || Pushing? || Draining? || Sending? || CountingTopics? || CountingSubs?
      || BrDone? || Abandoned?
    }

    /** where a handler is when it has given up kvLock */
    predicate LeavesKv() {
      Idle? || (BrWait? && brOp.OpSnapshot?)
    }

    /** where a handler is when it has given up brokersLock */
    predicate LeavesBr() {
      Idle? || Acking? || Reporting?
    }

    /** the first position of a handler */
    predicate Starts() {
      || GetEntered?
      || (KvWait? && !kvOp.OpGet?)
      || (BrWait? && !brOp.OpSnapshot?)
    }
  }

  datatype State = State(
    kvLock: Option<ThreadId>,
    brokersLock: Option<ThreadId>,
    kvMap: K.Store,
    boxes: B.Mailboxes,
    clock: K.Instant,
    pcs: map<ThreadId, Pc>,
    crashed: bool,
    kvLog: seq<K.Event>,
    brLog: seq<B.Event>)
  {
    function At(i: ThreadId): Pc {
      if i in pcs then pcs[i] else Idle
    }

    function Goto(i: ThreadId, pc: Pc): State {
      this.(pcs := pcs[i := pc])
    }
  }

  function Init(from: K.Instant): State {
    State(None, None, map[], map[], from, map[], false, [], [])
  }

  datatype Step =
    | Tick(nanoseconds: nat)
    | Begin(i: ThreadId, pc: Pc)
    | ReadClock(i: ThreadId)
    | LockKv(i: ThreadId)
    | ActKv(i: ThreadId)
    | Visit(i: ThreadId, key: K.Key)
    | UnlockKv(i: ThreadId)
    | LockBrokers(i: ThreadId)
    | ActBrokers(i: ThreadId)
    | Push(i: ThreadId, id: B.SubscriptionId)
    | Pop(i: ThreadId)
    | Send(i: ThreadId, ok: bool)
    | OpenTopic(i: ThreadId, topic: B.Topic)
    | CountSub(i: ThreadId, id: B.SubscriptionId)
    | CloseTopic(i: ThreadId)
    | UnlockBrokers(i: ThreadId)
    | Ack(i: ThreadId)

  predicate Enabled(s: State, step: Step) {
    && !s.crashed
    && match step
       case Tick(_) => true
       case Begin(i, pc) => s.At(i).Idle? && pc.Starts()
       case ReadClock(i) => s.At(i).GetEntered?
       case LockKv(i) => s.At(i).KvWait? && s.kvLock == None
       case ActKv(i) => s.At(i).KvHeld? || s.At(i).Stamped?
       case Visit(i, k) => s.At(i).Collecting? && k in s.At(i).keys
       case UnlockKv(i) => s.At(i).KvDone? || (s.At(i).Collecting? && s.At(i).keys == {})
       case LockBrokers(i) => s.At(i).BrWait? && s.brokersLock == None
       case ActBrokers(i) => s.At(i).BrHeld?
       case Push(i, id) => s.At(i).Pushing? && id in s.At(i).ids
       case Pop(i) => s.At(i).Draining? && |s.At(i).sent| < s.At(i).count
       case Send(i, _) => s.At(i).Sending?
       case OpenTopic(i, t) => s.At(i).CountingTopics? && t in s.At(i).topics
       case CountSub(i, id) => s.At(i).CountingSubs? && id in s.At(i).ids
       case CloseTopic(i) => s.At(i).CountingSubs? && s.At(i).ids == {}
       case UnlockBrokers(i) =>
         || s.At(i).BrDone?
         || (s.At(i).Pushing? && s.At(i).ids == {})
         || (s.At(i).Draining? && |s.At(i).sent| >= s.At(i).count)
         || (s.At(i).CountingTopics? && s.At(i).topics == {})
       case Ack(i) => s.At(i).Acking? || s.At(i).Reporting?
  }

  // ------------------------------------------------------------------ under kvLock

  function ActedKv(s: State, i: ThreadId): State
    requires s.At(i).KvHeld? || s.At(i).Stamped?
  {
    match s.At(i)
    case Stamped(k, v, seconds, init) =>
      var e := K.SetKV(k, v, seconds, init);
      s.(kvMap := s.kvMap[k := K.Entry(v, init, K.TimeOut(seconds))], kvLog := s.kvLog + [e]).Goto(i, KvDone(None))
    case KvHeld(OpSet(k, v, seconds)) => s.Goto(i, Stamped(k, v, seconds, s.clock))
    case KvHeld(OpGet(k, since, now)) =>
      var e := K.GetKV(k, since, now, s.clock, K.Lookup(s.kvMap, k, now));
      s.(kvMap := K.AfterGet(s.kvMap, k, now), kvLog := s.kvLog + [e]).Goto(i, KvDone(None))
    case KvHeld(OpDelete(k)) =>
      s.(kvMap := Without(s.kvMap, k), kvLog := s.kvLog + [K.DeleteKV(k)]).Goto(i, KvDone(None))
    case KvHeld(OpCollect) => s.Goto(i, Collecting(s.clock, s.kvMap.Keys))
    case KvHeld(OpLength) =>
      s.(kvLog := s.kvLog + [K.Length(|s.kvMap|)]).Goto(i, KvDone(Some(Size(|s.kvMap|, |s.kvLog|))))
  }

  function Visited(s: State, i: ThreadId, k: K.Key): State
    requires s.At(i).Collecting?
  {
    var Collecting(now, keys) := s.At(i);
    var m := if k in s.kvMap && s.kvMap[k].Expired(now) then Without(s.kvMap, k) else s.kvMap;
    s.(kvMap := m).Goto(i, Collecting(now, keys - {k}))
  }

  /** Snapshot goes on to the brokers; every other handler returns. */
  function UnlockedKv(s: State, i: ThreadId): State
    requires s.At(i).KvDone? || s.At(i).Collecting?
  {
    match s.At(i)
    case Collecting(now, _) => s.(kvLock := None, kvLog := s.kvLog + [K.Collect(now)]).Goto(i, Idle)
    case KvDone(None) => s.(kvLock := None).Goto(i, Idle)
    case KvDone(Some(n)) => s.(kvLock := None).Goto(i, BrWait(OpSnapshot(n)))
  }

  // ------------------------------------------------------------- under brokersLock

  /** The event of a handler whose critical section is one map operation. */
  function Simple(b: B.Mailboxes, op: BrOp): B.Event
    requires op.OpCreate? || op.OpRemove? || op.OpAdd? || op.OpDrop?
  {
    match op
    case OpCreate(t) => B.CreateTopic(t, t !in b)
    case OpRemove(t) => B.RemoveTopic(t)
    case OpAdd(t, id) => B.AddSubscriber(t, id, t in b)
    case OpDrop(t, id) => B.RemoveSubscriber(t, id)
  }

  function ActedBrokers(s: State, i: ThreadId): State
    requires s.At(i).BrHeld?
  {
    match s.At(i).brOp
    case OpPublish(t, v) => s.Goto(i, Pushing(t, v, if t in s.boxes then s.boxes[t].Keys else {}))
    case OpConsume(t, id) =>
      if B.Has(s.boxes, t, id) then s.Goto(i, Draining(t, id, |s.boxes[t][id]|, []))
      else s.(crashed := true)
    case OpSnapshot(size) => s.Goto(i, CountingTopics(size, s.boxes.Keys, map[]))
    case op =>
      var e := Simple(s.boxes, op);
      s.(boxes := B.Apply(s.boxes, e), brLog := s.brLog + [e]).Goto(i, BrDone)
  }

  /** Pushing to a mailbox that is not there would dereference nil. */
  function Pushed(s: State, i: ThreadId, id: B.SubscriptionId): State
    requires s.At(i).Pushing?
  {
    var Pushing(t, v, ids) := s.At(i);
    if B.Has(s.boxes, t, id)
    then s.(boxes := B.WithBox(s.boxes, t, id, s.boxes[t][id] + [v])).Goto(i, Pushing(t, v, ids - {id}))
    else s.(crashed := true)
  }

  /** So would popping from an empty one. */
  function PoppedOne(s: State, i: ThreadId): State
    requires s.At(i).Draining?
  {
    var Draining(t, id, count, sent) := s.At(i);
    if B.Has(s.boxes, t, id) && s.boxes[t][id] != []
    then s.(boxes := B.WithBox(s.boxes, t, id, s.boxes[t][id][1..]))
          .Goto(i, Sending(t, id, count, sent, s.boxes[t][id][0]))
    else s.(crashed := true)
  }

  function SentOne(s: State, i: ThreadId, ok: bool): State
    requires s.At(i).Sending?
  {
    var Sending(t, id, count, sent, val) := s.At(i);
    if ok then s.Goto(i, Draining(t, id, count, sent + [val]))
    else s.(brLog := s.brLog + [B.Consume(t, id, sent, [val])]).Goto(i, Abandoned)
  }

  function OpenedTopic(s: State, i: ThreadId, t: B.Topic): State
    requires s.At(i).CountingTopics?
  {
    var CountingTopics(size, topics, counts) := s.At(i);
    if t in s.boxes then s.Goto(i, CountingSubs(size, topics - {t}, counts, t, s.boxes[t].Keys, map[]))
    else s.(crashed := true)
  }

  function CountedSub(s: State, i: ThreadId, id: B.SubscriptionId): State
    requires s.At(i).CountingSubs?
  {
    var CountingSubs(size, topics, counts, t, ids, part) := s.At(i);
    if B.Has(s.boxes, t, id)
    then s.Goto(i, CountingSubs(size, topics, counts, t, ids - {id}, part[id := |s.boxes[t][id]|]))
    else s.(crashed := true)
  }

  function ClosedTopic(s: State, i: ThreadId): State
    requires s.At(i).CountingSubs?
  {
    var CountingSubs(size, topics, counts, t, ids, part) := s.At(i);
    s.Goto(i, CountingTopics(size, topics, counts[t := part]))
  }

  function UnlockedBrokers(s: State, i: ThreadId): State
    requires s.At(i).BrDone? || s.At(i).Pushing? || s.At(i).Draining? || s.At(i).CountingTopics?
  {
    var s' := s.(brokersLock := None);
    match s.At(i)
    case BrDone => s'.Goto(i, Idle)
    case Pushing(t, v, _) => s'.(brLog := s.brLog + [B.Publish(t, v, i)]).Goto(i, Acking)
    case Draining(t, id, _, sent) => s'.(brLog := s.brLog + [B.Consume(t, id, sent, [])]).Goto(i, Idle)
    case CountingTopics(size, _, counts) =>
      s'.(brLog := s.brLog + [B.Snapshot(counts)]).Goto(i, Reporting(size, counts, |s.brLog|))
  }

  function Next(s: State, step: Step): State
    requires Enabled(s, step)
  {
    match step
    case Tick(d) => s.(clock := s.clock + d)
    case Begin(i, pc) => s.Goto(i, pc)
    case ReadClock(i) => s.Goto(i, KvWait(OpGet(s.At(i).key, |s.kvLog|, s.clock)))
    case LockKv(i) => s.(kvLock := Some(i)).Goto(i, KvHeld(s.At(i).kvOp))
    case ActKv(i) => ActedKv(s, i)
    case Visit(i, k) => Visited(s, i, k)
    case UnlockKv(i) => UnlockedKv(s, i)
    case LockBrokers(i) => s.(brokersLock := Some(i)).Goto(i, BrHeld(s.At(i).brOp))
    case ActBrokers(i) => ActedBrokers(s, i)
    case Push(i, id) => Pushed(s, i, id)
    case Pop(i) => PoppedOne(s, i)
    case Send(i, ok) => SentOne(s, i, ok)
    case OpenTopic(i, t) => OpenedTopic(s, i, t)
    case CountSub(i, id) => CountedSub(s, i, id)
    case CloseTopic(i) => ClosedTopic(s, i)
    case UnlockBrokers(i) => UnlockedBrokers(s, i)
    case Ack(i) => s.Goto(i, Idle)
  }

  predicate CanRun(s: State, steps: seq<Step>)
    decreases |steps|
  {
    steps == [] || (Enabled(s, steps[0]) && CanRun(Next(s, steps[0]), steps[1..]))
  }

  function Run(s: State, steps: seq<Step>): State
    requires CanRun(s, steps)
    decreases |steps|
  {
    if steps == [] then s else Run(Next(s, steps[0]), steps[1..])
  }
}
