/** What a request is turned into. The guarantees speak about the logs; here each call, from the moment it comes in
    to its return, is shown to leave exactly the events it asks for, with clock readings made during the call. */
module Requests {
  import opened Common
  import opened ServerMachine
  import opened ServerRuns
  import P = ServerProgress
  import B = BrokerSpec
  import K = KvSpec

  /** A request that has come in: who serves it, what it asks for, and the clock and the logs at that moment. */
  datatype Call = Call(i: ThreadId, request: Pc, clock: K.Instant, kv: nat, br: nat)

  /** What a handler has done: the places of the events it appended to either log, and the Sends that
      succeeded and failed. */
  datatype Trace = Trace(kv: seq<nat>, br: seq<nat>, sends: nat, failures: nat)

  const NOTHING := Trace([], [], 0, 0)

  predicate By(step: Step, i: ThreadId) {
    !step.Tick? && step.i == i
  }

  /** The marks of a log that has grown from length `a` to `b`. */
  function Marked(marks: seq<nat>, a: nat, b: nat): seq<nat>
    decreases b - a
  {
    if a < b then Marked(marks + [a], a + 1, b) else marks
  }

  lemma MarkedOnce(marks: seq<nat>, a: nat)
    ensures Marked(marks, a, a) == marks && Marked(marks, a, a + 1) == marks + [a]
  {
    assert Marked(marks + [a], a + 1, a + 1) == marks + [a];
  }

  /** `tr`, and then the events by which the logs have grown. */
  function After(tr: Trace, s: State, s': State): Trace {
    tr.(kv := Marked(tr.kv, |s.kvLog|, |s'.kvLog|), br := Marked(tr.br, |s.brLog|, |s'.brLog|))
  }

  function Extended(tr: Trace, s: State, step: Step, i: ThreadId): Trace
    requires Enabled(s, step)
  {
    if !By(step, i) then tr
    else if !step.Send? then After(tr, s, Next(s, step))
    else if step.ok then After(tr, s, Next(s, step)).(sends := tr.sends + 1)
    else After(tr, s, Next(s, step)).(failures := tr.failures + 1)
  }

  /** `tr`, and then what handler `i` does in the run `steps`. */
  function Traced(tr: Trace, s: State, steps: seq<Step>, i: ThreadId): Trace
    requires CanRun(s, steps)
    decreases |steps|
  {
    if steps == [] then tr else Traced(Extended(tr, s, steps[0], i), Next(s, steps[0]), steps[1..], i)
  }

  // ------------------------------------------------------------- what a request asks for

  predicate OneKv(c: Call, s: State, tr: Trace) {
    |tr.kv| == 1 && c.kv <= tr.kv[0] < |s.kvLog|
  }

  predicate OneBr(c: Call, s: State, tr: Trace) {
    |tr.br| == 1 && c.br <= tr.br[0] < |s.brLog|
  }

  /** Is `e` the event that `op` asks for, when so many Sends succeeded and failed? */
  predicate Serves(c: Call, op: BrOp, e: B.Event, sends: nat, failures: nat) {
    match op
    case OpCreate(t) => e.CreateTopic? && e.topic == t
    case OpRemove(t) => e == B.RemoveTopic(t)
    case OpAdd(t, id) => e.AddSubscriber? && e.topic == t && e.id == id
    case OpDrop(t, id) => e == B.RemoveSubscriber(t, id)
    case OpPublish(t, v) => e == B.Publish(t, v, c.i)
    case OpConsume(t, id) => e.Consume? && e.topic == t && e.id == id && |e.sent| == sends && |e.lost| == failures
    case OpSnapshot(_) => false
  }

  predicate ServesKv(c: Call, s: State, op: KvOp, e: K.Event) {
    match op
    case OpSet(k, v, seconds) => e.SetKV? && e == K.SetKV(k, v, seconds, e.init) && c.clock <= e.init <= s.clock
    case OpDelete(k) => e == K.DeleteKV(k)
    case OpCollect => e.Collect? && c.clock <= e.now <= s.clock
    case OpLength => e.Length?
    case OpGet(_, _, _) => false
  }

  /** A lookup reads the clock after it came in and before it answers, and answers before it returns. */
  predicate LooksUp(c: Call, s: State, k: K.Key, e: K.Event, n: nat) {
    e.GetKV? && e.key == k && c.kv <= e.since <= n && c.clock <= e.now <= e.at <= s.clock
  }

  /** The call has added the one event it asks for - Snapshot one to either log - and no other. */
  predicate Served(c: Call, s: State, tr: Trace) {
    match c.request
    case GetEntered(k) =>
      OneKv(c, s, tr) && tr.br == [] && LooksUp(c, s, k, s.kvLog[tr.kv[0]], tr.kv[0])
    case KvWait(op) =>
      && OneKv(c, s, tr) && ServesKv(c, s, op, s.kvLog[tr.kv[0]])
      && (if op.OpLength? then OneBr(c, s, tr) && s.brLog[tr.br[0]].Snapshot? else tr.br == [])
    case BrWait(op) =>
      tr.kv == [] && OneBr(c, s, tr) && Serves(c, op, s.brLog[tr.br[0]], tr.sends, tr.failures)
    case _ => false
  }

  // ------------------------------------------------------------------- a call under way

  predicate Untouched(tr: Trace) {
    tr.kv == [] && tr.br == []
  }

  /** A Snapshot that has read the length of kvMap. */
  predicate HasLength(c: Call, s: State, size: Size, tr: Trace) {
    && c.request == KvWait(OpLength)
    && OneKv(c, s, tr) && tr.kv[0] == size.at && s.kvLog[size.at] == K.Length(size.length)
  }

  predicate Draws(c: Call, t: B.Topic, id: B.SubscriptionId, sent: seq<Value>, tr: Trace) {
    c.request == BrWait(OpConsume(t, id)) && Untouched(tr) && tr.sends == |sent|
  }

  predicate WaitsForKv(c: Call, s: State, op: KvOp, tr: Trace) {
    && Untouched(tr)
    && match op
       case OpGet(k, since, now) =>
         c.request == GetEntered(k) && c.kv <= since <= |s.kvLog| && c.clock <= now <= s.clock
       case _ => c.request == KvWait(op)
  }

  predicate WaitsForBr(c: Call, s: State, op: BrOp, tr: Trace) {
    match op
    case OpSnapshot(size) => HasLength(c, s, size, tr) && tr.br == []
    case _ => c.request == BrWait(op) && Untouched(tr) && tr.sends == 0
  }

  predicate Fits(c: Call, s: State, pc: Pc, tr: Trace) {
    && c.kv <= |s.kvLog| && c.br <= |s.brLog| && c.clock <= s.clock
    && tr.failures == (if pc.Abandoned? then 1 else 0)
    && match pc
       case GetEntered(_) => c.request == pc && Untouched(tr)
       case KvWait(op) => WaitsForKv(c, s, op, tr)
       case KvHeld(op) => WaitsForKv(c, s, op, tr)
       case Stamped(k, v, seconds, init) =>
         c.request == KvWait(OpSet(k, v, seconds)) && Untouched(tr) && c.clock <= init <= s.clock
       case Collecting(now, _) => c.request == KvWait(OpCollect) && Untouched(tr) && c.clock <= now <= s.clock
       case KvDone(Some(size)) => HasLength(c, s, size, tr) && tr.br == []
       case KvDone(None) => Served(c, s, tr)
       case BrWait(op) => WaitsForBr(c, s, op, tr)
       case BrHeld(op) => WaitsForBr(c, s, op, tr)
       case Pushing(t, v, _) => c.request == BrWait(OpPublish(t, v)) && Untouched(tr)
       case Draining(t, id, _, sent) => Draws(c, t, id, sent, tr)
       case Sending(t, id, _, sent, _) => Draws(c, t, id, sent, tr)
       case CountingTopics(size, _, _) => HasLength(c, s, size, tr) && tr.br == []
       case CountingSubs(size, _, _, _, _, _) => HasLength(c, s, size, tr) && tr.br == []
       case Reporting(size, counts, cut) =>
         && HasLength(c, s, size, tr) && Served(c, s, tr)
         && tr.br[0] == cut && s.brLog[cut] == B.Snapshot(counts)
       case _ => Served(c, s, tr)
  }

  // -------------------------------------------------------------------- step by step

  /** Both logs only grow, and the clock only goes on. */
  predicate Later(s: State, s': State) {
    s.kvLog <= s'.kvLog && s.brLog <= s'.brLog && s.clock <= s'.clock
  }

  lemma KvStepIsLater(s: State, step: Step)
    requires Enabled(s, step) && (step.ActKv? || step.Visit? || step.UnlockKv?)
    ensures Later(s, Next(s, step))
  {
  }

  lemma StepIsLater(s: State, step: Step)
    requires Enabled(s, step)
    ensures Later(s, Next(s, step))
  {
    if step.ActKv? || step.Visit? || step.UnlockKv? { KvStepIsLater(s, step); }
  }

  lemma FitsLater(c: Call, s: State, s': State, pc: Pc, tr: Trace)
    requires Fits(c, s, pc, tr) && Later(s, s')
    ensures Fits(c, s', pc, tr)
  {
  }

  // `s` goes over into `s'` by a step of handler c.i, which stands at `pc` before.

  lemma EnterFits(c: Call, s: State, step: Step, tr: Trace)
    requires Enabled(s, step) && By(step, c.i) && Fits(c, s, s.At(c.i), tr)
    requires step.ReadClock? || step.LockKv? || step.LockBrokers? || step.Ack?
    ensures var s' := Next(s, step);
      Fits(c, s', s'.At(c.i), After(tr, s, s'))
  {
    MarkedOnce(tr.kv, |s.kvLog|);
    MarkedOnce(tr.br, |s.brLog|);
  }

  predicate KvGrows(s: State, s': State, e: K.Event) {
    s'.kvLog == s.kvLog + [e] && s'.brLog == s.brLog && s'.clock == s.clock
  }

  predicate BrGrows(s: State, s': State, e: B.Event) {
    s'.brLog == s.brLog + [e] && s'.kvLog == s.kvLog && s'.clock == s.clock
  }

  predicate SameLogs(s: State, s': State) {
    s'.brLog == s.brLog && s'.kvLog == s.kvLog && s'.clock == s.clock
  }

  lemma SameAfter(tr: Trace, s: State, s': State)
    requires SameLogs(s, s')
    ensures After(tr, s, s') == tr
  {
    MarkedOnce(tr.kv, |s.kvLog|);
    MarkedOnce(tr.br, |s.brLog|);
  }

  lemma KvIsServed(c: Call, s: State, s': State, e: K.Event, tr: Trace)
    requires KvGrows(s, s', e) && Untouched(tr) && c.kv <= |s.kvLog|
    requires || (c.request.GetEntered? && LooksUp(c, s', c.request.key, e, |s.kvLog|))
             || (c.request.KvWait? && !c.request.kvOp.OpLength? && ServesKv(c, s', c.request.kvOp, e))
    ensures Served(c, s', After(tr, s, s'))
  {
    MarkedOnce(tr.kv, |s.kvLog|);
    MarkedOnce(tr.br, |s.brLog|);
  }

  lemma BrIsServed(c: Call, s: State, s': State, e: B.Event, tr: Trace)
    requires BrGrows(s, s', e) && Untouched(tr) && c.br <= |s.brLog|
    requires c.request.BrWait? && Serves(c, c.request.brOp, e, tr.sends, tr.failures)
    ensures Served(c, s', After(tr, s, s'))
  {
    MarkedOnce(tr.kv, |s.kvLog|);
    MarkedOnce(tr.br, |s.brLog|);
  }

  lemma LengthFits(c: Call, s: State, s': State, tr: Trace)
    requires s.At(c.i) == KvHeld(OpLength) && Fits(c, s, s.At(c.i), tr) && s' == ActedKv(s, c.i)
    ensures Fits(c, s', s'.At(c.i), After(tr, s, s'))
  {
    MarkedOnce(tr.kv, |s.kvLog|);
    MarkedOnce(tr.br, |s.brLog|);
  }

  lemma ReadingFits(c: Call, s: State, s': State, tr: Trace)
    requires s.At(c.i).KvHeld? && (s.At(c.i).kvOp.OpSet? || s.At(c.i).kvOp.OpCollect?)
    requires Fits(c, s, s.At(c.i), tr) && s' == ActedKv(s, c.i)
    ensures Fits(c, s', s'.At(c.i), After(tr, s, s'))
  {
    SameAfter(tr, s, s');
  }

  lemma ActKvFits(c: Call, s: State, s': State, tr: Trace)
    requires s.At(c.i).KvHeld? || s.At(c.i).Stamped?
    requires Fits(c, s, s.At(c.i), tr) && s' == ActedKv(s, c.i)
    ensures Fits(c, s', s'.At(c.i), After(tr, s, s'))
  {
    match s.At(c.i)
    case Stamped(k, v, seconds, init) => KvIsServed(c, s, s', K.SetKV(k, v, seconds, init), tr);
    case KvHeld(OpGet(k, since, now)) =>
      KvIsServed(c, s, s', K.GetKV(k, since, now, s.clock, K.Lookup(s.kvMap, k, now)), tr);
    case KvHeld(OpDelete(k)) => KvIsServed(c, s, s', K.DeleteKV(k), tr);
    case KvHeld(OpLength) => LengthFits(c, s, s', tr);
    case KvHeld(OpSet(_, _, _)) => ReadingFits(c, s, s', tr);
    case KvHeld(OpCollect) => ReadingFits(c, s, s', tr);
  }

  lemma VisitFits(c: Call, s: State, s': State, k: K.Key, tr: Trace)
    requires s.At(c.i).Collecting? && Fits(c, s, s.At(c.i), tr) && s' == Visited(s, c.i, k)
    ensures Fits(c, s', s'.At(c.i), After(tr, s, s'))
  {
    SameAfter(tr, s, s');
  }

  lemma UnlockKvFits(c: Call, s: State, s': State, tr: Trace)
    requires s.At(c.i).KvDone? || s.At(c.i).Collecting?
    requires Fits(c, s, s.At(c.i), tr) && s' == UnlockedKv(s, c.i)
    ensures Fits(c, s', s'.At(c.i), After(tr, s, s'))
  {
    if s.At(c.i).Collecting? {
      KvIsServed(c, s, s', K.Collect(s.At(c.i).now), tr);
    } else {
      LeavingKvFits(c, s, s', tr);
    }
  }

  lemma LeavingKvFits(c: Call, s: State, s': State, tr: Trace)
    requires s.At(c.i).KvDone?
    requires Fits(c, s, s.At(c.i), tr) && s' == UnlockedKv(s, c.i)
    ensures Fits(c, s', s'.At(c.i), After(tr, s, s'))
  {
    SameAfter(tr, s, s');
  }

  lemma EffectFits(c: Call, s: State, s': State, op: BrOp, e: B.Event, tr: Trace)
    requires s.At(c.i) == BrHeld(op) && (op.OpCreate? || op.OpRemove? || op.OpAdd? || op.OpDrop?)
    requires Fits(c, s, s.At(c.i), tr) && s' == ActedBrokers(s, c.i) && e == Simple(s.boxes, op)
    ensures Fits(c, s', s'.At(c.i), After(tr, s, s'))
  {
    BrIsServed(c, s, s', e, tr);
  }

  lemma ConsumeStarts(c: Call, s: State, s': State, t: B.Topic, id: B.SubscriptionId, tr: Trace)
    requires s.At(c.i) == BrHeld(OpConsume(t, id))
    requires Fits(c, s, s.At(c.i), tr) && s' == ActedBrokers(s, c.i)
    ensures Fits(c, s', s'.At(c.i), After(tr, s, s'))
  {
    SameAfter(tr, s, s');
  }

  lemma LoopStarts(c: Call, s: State, s': State, op: BrOp, tr: Trace)
    requires s.At(c.i) == BrHeld(op) && (op.OpPublish? || op.OpSnapshot?)
    requires Fits(c, s, s.At(c.i), tr) && s' == ActedBrokers(s, c.i)
    ensures Fits(c, s', s'.At(c.i), After(tr, s, s'))
  {
    SameAfter(tr, s, s');
  }

  lemma ActBrokersFits(c: Call, s: State, s': State, tr: Trace)
    requires s.At(c.i).BrHeld?
    requires Fits(c, s, s.At(c.i), tr) && s' == ActedBrokers(s, c.i)
    ensures Fits(c, s', s'.At(c.i), After(tr, s, s'))
  {
    var op := s.At(c.i).brOp;
    if op.OpConsume? {
      ConsumeStarts(c, s, s', op.topic, op.id, tr);
    } else if op.OpPublish? || op.OpSnapshot? {
      LoopStarts(c, s, s', op, tr);
    } else {
      EffectFits(c, s, s', op, Simple(s.boxes, op), tr);
    }
  }

  lemma MovingFits(c: Call, s: State, s': State, step: Step, tr: Trace)
    requires Enabled(s, step) && By(step, c.i) && (step.Push? || step.Pop?)
    requires Fits(c, s, s.At(c.i), tr) && s' == Next(s, step)
    ensures Fits(c, s', s'.At(c.i), After(tr, s, s'))
  {
    SameAfter(tr, s, s');
  }

  lemma OpenTopicFits(c: Call, s: State, s': State, t: B.Topic, tr: Trace)
    requires s.At(c.i).CountingTopics?
    requires Fits(c, s, s.At(c.i), tr) && s' == OpenedTopic(s, c.i, t)
    ensures Fits(c, s', s'.At(c.i), After(tr, s, s'))
  {
    SameAfter(tr, s, s');
  }

  lemma CountSubFits(c: Call, s: State, s': State, step: Step, tr: Trace)
    requires Enabled(s, step) && By(step, c.i) && (step.CountSub? || step.CloseTopic?)
    requires Fits(c, s, s.At(c.i), tr) && s' == Next(s, step)
    ensures Fits(c, s', s'.At(c.i), After(tr, s, s'))
  {
    SameAfter(tr, s, s');
  }

  lemma SendFits(c: Call, s: State, ok: bool, tr: Trace)
    requires s.At(c.i).Sending? && Fits(c, s, s.At(c.i), tr)
    ensures var s' := SentOne(s, c.i, ok); var sent := After(tr, s, s');
      Fits(c, s', s'.At(c.i), if ok then sent.(sends := tr.sends + 1) else sent.(failures := tr.failures + 1))
  {
    var s' := SentOne(s, c.i, ok);
    var Sending(t, id, _, sent, val) := s.At(c.i);
    if ok {
      SameAfter(tr, s, s');
    } else {
      BrIsServed(c, s, s', B.Consume(t, id, sent, [val]), tr.(failures := 1));
    }
  }

  lemma CountsEnd(c: Call, s: State, s': State, tr: Trace)
    requires s.At(c.i).CountingTopics?
    requires Fits(c, s, s.At(c.i), tr) && s' == UnlockedBrokers(s, c.i)
    ensures Fits(c, s', s'.At(c.i), After(tr, s, s'))
  {
    MarkedOnce(tr.kv, |s.kvLog|);
    MarkedOnce(tr.br, |s.brLog|);
  }

  lemma UnlockBrokersFits(c: Call, s: State, s': State, tr: Trace)
    requires s.At(c.i).BrDone? || s.At(c.i).Pushing? || s.At(c.i).Draining? || s.At(c.i).CountingTopics?
    requires Fits(c, s, s.At(c.i), tr) && s' == UnlockedBrokers(s, c.i)
    ensures Fits(c, s', s'.At(c.i), After(tr, s, s'))
  {
    match s.At(c.i)
    case BrDone => SameAfter(tr, s, s');
    case Pushing(t, v, _) => BrIsServed(c, s, s', B.Publish(t, v, c.i), tr);
    case Draining(t, id, _, sent) => BrIsServed(c, s, s', B.Consume(t, id, sent, []), tr);
    case CountingTopics(_, _, _) => CountsEnd(c, s, s', tr);
  }

  lemma KvStepFits(c: Call, s: State, step: Step, tr: Trace)
    requires Enabled(s, step) && By(step, c.i) && Fits(c, s, s.At(c.i), tr)
    requires step.ActKv? || step.Visit? || step.UnlockKv?
    ensures var s' := Next(s, step);
      Fits(c, s', s'.At(c.i), After(tr, s, s'))
  {
    match step {
      case ActKv(_) => ActKvFits(c, s, Next(s, step), tr);
      case Visit(_, k) => VisitFits(c, s, Next(s, step), k, tr);
      case UnlockKv(_) => UnlockKvFits(c, s, Next(s, step), tr);
    }
  }

  lemma LoopStepFits(c: Call, s: State, step: Step, tr: Trace)
    requires Enabled(s, step) && By(step, c.i) && Fits(c, s, s.At(c.i), tr)
    requires step.Push? || step.Pop? || step.OpenTopic? || step.CountSub? || step.CloseTopic?
    ensures var s' := Next(s, step);
      Fits(c, s', s'.At(c.i), After(tr, s, s'))
  {
    if step.OpenTopic? {
      OpenTopicFits(c, s, Next(s, step), step.topic, tr);
    } else if step.Push? || step.Pop? {
      MovingFits(c, s, Next(s, step), step, tr);
    } else {
      CountSubFits(c, s, Next(s, step), step, tr);
    }
  }

  lemma BrStepFits(c: Call, s: State, step: Step, tr: Trace)
    requires Enabled(s, step) && By(step, c.i) && Fits(c, s, s.At(c.i), tr)
    requires InBrokers(step) && !step.Send?
    ensures var s' := Next(s, step);
      Fits(c, s', s'.At(c.i), After(tr, s, s'))
  {
    if step.ActBrokers? {
      ActBrokersFits(c, s, Next(s, step), tr);
    } else if step.UnlockBrokers? {
      UnlockBrokersFits(c, s, Next(s, step), tr);
    } else {
      LoopStepFits(c, s, step, tr);
    }
  }

  lemma OwnStepFits(c: Call, s: State, step: Step, tr: Trace)
    requires Enabled(s, step) && By(step, c.i) && !step.Begin? && Fits(c, s, s.At(c.i), tr)
    ensures Fits(c, Next(s, step), Next(s, step).At(c.i), Extended(tr, s, step, c.i))
  {
    if step.Send? {
      SendFits(c, s, step.ok, tr);
    } else if InBrokers(step) {
      BrStepFits(c, s, step, tr);
    } else if step.ActKv? || step.Visit? || step.UnlockKv? {
      KvStepFits(c, s, step, tr);
    } else {
      EnterFits(c, s, step, tr);
    }
  }

  lemma StepFits(c: Call, s: State, step: Step, tr: Trace)
    requires Enabled(s, step) && !(step.Begin? && By(step, c.i)) && Fits(c, s, s.At(c.i), tr)
    ensures Fits(c, Next(s, step), Next(s, step).At(c.i), Extended(tr, s, step, c.i))
  {
    if By(step, c.i) {
      OwnStepFits(c, s, step, tr);
    } else {
      StepIsLater(s, step);
      if !step.Tick? { P.StepsOfOthers(s, step, c.i); }
      FitsLater(c, s, Next(s, step), s.At(c.i), tr);
    }
  }

  /** No other request is given to handler `i` in `steps`. */
  predicate OneCall(steps: seq<Step>, i: ThreadId) {
    forall n :: 0 <= n < |steps| ==> !(steps[n].Begin? && By(steps[n], i))
  }

  lemma {:induction false} RunFits(c: Call, s: State, steps: seq<Step>, tr: Trace)
    requires CanRun(s, steps) && OneCall(steps, c.i) && Fits(c, s, s.At(c.i), tr)
    ensures Fits(c, Run(s, steps), Run(s, steps).At(c.i), Traced(tr, s, steps, c.i))
    decreases |steps|
  {
    if steps != [] {
      StepFits(c, s, steps[0], tr);
      RunFits(c, Next(s, steps[0]), steps[1..], Extended(tr, s, steps[0], c.i));
    }
  }

  // ------------------------------------------------------------------------ whole calls

  function CallAt(s: State, i: ThreadId, request: Pc): Call {
    Call(i, request, s.clock, |s.kvLog|, |s.brLog|)
  }

  predicate Returning(pc: Pc) {
    pc.Idle? || pc.Acking? || pc.Reporting? || pc.Abandoned?
  }

  /** The run `steps` is, among anything that others do, what handler `i` does about `request` from state `s` on. */
  predicate IsCall(s: State, i: ThreadId, request: Pc, steps: seq<Step>) {
    && steps != [] && steps[0] == Begin(i, request) && OneCall(steps[1..], i)
    && CanRun(s, steps)
  }

  /** When a call returns, it has added exactly the events its request asks for, with the request's own arguments and
      clock readings made during the call. It has returned without unlocking exactly when a Send failed. */
  lemma EachRequestIsServed(s: State, i: ThreadId, request: Pc, steps: seq<Step>)
    requires IsCall(s, i, request, steps) && Returning(Run(s, steps).At(i))
    ensures var s' := Run(s, steps); var tr := Traced(NOTHING, s, steps, i);
      && Served(CallAt(s, i, request), s', tr)
      && tr.failures == (if s'.At(i).Abandoned? then 1 else 0)
  {
    RequestFits(s, i, request, steps);
  }

  lemma RequestFits(s: State, i: ThreadId, request: Pc, steps: seq<Step>)
    requires IsCall(s, i, request, steps)
    ensures Fits(CallAt(s, i, request), Run(s, steps), Run(s, steps).At(i), Traced(NOTHING, s, steps, i))
  {
    var s1 := Next(s, Begin(i, request));
    assert Extended(NOTHING, s, Begin(i, request), i) == NOTHING;
    assert s1.At(i) == request;
    RunFits(CallAt(s, i, request), s1, steps[1..], NOTHING);
  }

  /** Before that it has added nothing, but for the length that Snapshot reads first. */
  lemma NoRequestIsServedTwice(s: State, i: ThreadId, request: Pc, steps: seq<Step>)
    requires IsCall(s, i, request, steps)
    ensures var tr := Traced(NOTHING, s, steps, i);
      |tr.kv| <= 1 && |tr.br| <= 1 && (tr.kv != [] && tr.br != [] ==> request == KvWait(OpLength))
  {
    RequestFits(s, i, request, steps);
  }

  // ------------------------------------------------------- every request can be served

  /** A run from `s` to `s'` in which handler `i` is given no request. */
  ghost predicate Leads(s: State, steps: seq<Step>, s': State, i: ThreadId) {
    CanRun(s, steps) && Run(s, steps) == s' && OneCall(steps, i)
  }

  lemma LeadsOn(s: State, a: seq<Step>, s1: State, b: seq<Step>, s2: State, i: ThreadId)
    requires Leads(s, a, s1, i) && Leads(s1, b, s2, i)
    ensures Leads(s, a + b, s2, i)
  {
    P.RunAppend(s, a, b);
  }

  lemma OneStepLeads(from: K.Instant, s: State, step: Step, i: ThreadId)
    requires Inv(from, s) && Enabled(s, step) && !step.Begin?
    ensures Leads(s, [step], Next(s, step), i) && Inv(from, Next(s, step))
  {
    P.RunCons(s, step, []);
    assert [step] + [] == [step];
    StepKeepsInv(from, s, step);
  }

  lemma FreeBrokers(from: K.Instant, s: State, i: ThreadId) returns (steps: seq<Step>, s': State)
    requires Inv(from, s) && !s.crashed && !P.Stuck(s) && !s.At(i).HoldsBr()
    ensures Leads(s, steps, s', i) && Inv(from, s') && !s'.crashed && s'.brokersLock == None && s'.At(i) == s.At(i)
  {
    steps, s' := [], s;
    if s.brokersLock.Some? {
      var j := s.brokersLock.value;
      assert s.At(j).HoldsBr();
      steps := P.BrokersLockIsReleased(from, s, j);
      P.RunsOfOthers(s, steps, j, i);
      s' := Run(s, steps);
    }
  }

  lemma FreeKv(from: K.Instant, s: State, i: ThreadId) returns (steps: seq<Step>, s': State)
    requires Inv(from, s) && !s.crashed && s.brokersLock == None && !s.At(i).HoldsKv()
    ensures Leads(s, steps, s', i) && Inv(from, s') && !s'.crashed && s'.At(i) == s.At(i)
    ensures s'.kvLock == None && s'.brokersLock == None
  {
    steps, s' := [], s;
    if s.kvLock.Some? {
      var j := s.kvLock.value;
      assert s.At(j).HoldsKv();
      steps := P.KvLockIsReleased(from, s, j);
      P.RunsOfOthers(s, steps, j, i);
      s' := Run(s, steps);
    }
  }

  lemma ServeKv(from: K.Instant, s: State, i: ThreadId) returns (steps: seq<Step>, s': State)
    requires Inv(from, s) && !s.crashed && s.At(i).KvWait? && s.kvLock == None && s.brokersLock == None
    ensures Leads(s, steps, s', i) && Inv(from, s') && !s'.crashed && s'.At(i).LeavesKv() && s'.brokersLock == None
  {
    OneStepLeads(from, s, LockKv(i), i);
    var s1 := Next(s, LockKv(i));
    steps := P.KvLockIsReleased(from, s1, i);
    s' := Run(s1, steps);
    LeadsOn(s, [LockKv(i)], s1, steps, s', i);
    steps := [LockKv(i)] + steps;
  }

  /** Served, unless a Consume has looked up nothing and brought the server down. */
  predicate ServedOrDown(s: State, i: ThreadId, op: BrOp) {
    if s.crashed then op.OpConsume? else s.At(i).LeavesBr()
  }

  lemma ServeBr(from: K.Instant, s: State, i: ThreadId, op: BrOp) returns (steps: seq<Step>, s': State)
    requires Inv(from, s) && !s.crashed && s.At(i) == BrWait(op) && s.brokersLock == None
    ensures Leads(s, steps, s', i) && ServedOrDown(s', i, op)
  {
    OneStepLeads(from, s, LockBrokers(i), i);
    var s1 := Next(s, LockBrokers(i));
    if LooksUpNothing(s1) {
      OneStepLeads(from, s1, ActBrokers(i), i);
      steps, s' := [ActBrokers(i)], Next(s1, ActBrokers(i));
    } else {
      steps := P.BrokersLockIsReleased(from, s1, i);
      s' := Run(s1, steps);
    }
    LeadsOn(s, [LockBrokers(i)], s1, steps, s', i);
    steps := [LockBrokers(i)] + steps;
  }

  lemma ServeWaiting(from: K.Instant, s: State, i: ThreadId) returns (steps: seq<Step>, s': State)
    requires Inv(from, s) && !s.crashed && s.At(i).KvWait? && !P.Stuck(s)
    ensures Leads(s, steps, s', i) && !s'.crashed && Returning(s'.At(i))
  {
    var s1, s2, s3, more;
    steps, s1 := FreeBrokers(from, s, i);
    more, s2 := FreeKv(from, s1, i);
    LeadsOn(s, steps, s1, more, s2, i);
    steps := steps + more;
    more, s3 := ServeKv(from, s2, i);
    LeadsOn(s, steps, s2, more, s3, i);
    steps, s' := steps + more, s3;
    if s3.At(i).BrWait? {
      more, s' := ServeBr(from, s3, i, s3.At(i).brOp);
      LeadsOn(s, steps, s3, more, s', i);
      steps := steps + more;
    }
  }

  /** Whatever an idle handler is asked for, and whatever the others are doing, its call can return - served, as shown
      above - unless brokersLock is stuck, or the request is a Consume that brings the server down. */
  lemma EachRequestCanBeServed(from: K.Instant, s: State, i: ThreadId, request: Pc) returns (steps: seq<Step>)
    requires Inv(from, s) && !s.crashed && s.At(i).Idle? && !P.Stuck(s)
    requires || request.GetEntered?
             || (request.KvWait? && !request.kvOp.OpGet?)
             || (request.BrWait? && !request.brOp.OpSnapshot?)
    ensures IsCall(s, i, request, steps)
    ensures var s' := Run(s, steps);
      if s'.crashed then request.BrWait? && request.brOp.OpConsume? else Returning(s'.At(i))
  {
    var s1, s2, s3, more := Next(s, Begin(i, request)), s, s, [];
    StepKeepsInv(from, s, Begin(i, request));
    BeginKeepsLocks(s, i, request);
    if request.BrWait? {
      steps, s2 := FreeBrokers(from, s1, i);
      more, s3 := ServeBr(from, s2, i, request.brOp);
      LeadsOn(s1, steps, s2, more, s3, i);
      steps := steps + more;
    } else if request.KvWait? {
      steps, s3 := ServeWaiting(from, s1, i);
    } else {
      OneStepLeads(from, s1, ReadClock(i), i);
      s2 := Next(s1, ReadClock(i));
      BeginKeepsLocks(s, i, request);
      more, s3 := ServeWaiting(from, s2, i);
      LeadsOn(s1, [ReadClock(i)], s2, more, s3, i);
      steps := [ReadClock(i)] + more;
    }
    P.RunCons(s, Begin(i, request), steps);
    steps := [Begin(i, request)] + steps;
  }

  lemma BeginKeepsLocks(s: State, i: ThreadId, request: Pc)
    requires LocksFit(s) && !P.Stuck(s) && Enabled(s, Begin(i, request))
    ensures !P.Stuck(Next(s, Begin(i, request)))
    ensures request.GetEntered? ==> !P.Stuck(Next(Next(s, Begin(i, request)), ReadClock(i)))
  {
    if s.brokersLock.Some? {
      assert s.At(s.brokersLock.value).HoldsBr();
    }
  }
}
