/** What the clients of the server may rely on, in every interleaving of any number of handlers. */
module Guarantees {
  import opened Common
  import opened ServerMachine
  import opened ServerRuns
  import B = BrokerSpec
  import BR = BrokerRuns
  import C = Conservation
  import K = KvSpec
  import KR = KvRuns
  import P = ServerProgress
  import R = Requests

  lemma Reached(from: K.Instant, steps: seq<Step>)
    requires CanRun(Init(from), steps)
    ensures Inv(from, Run(Init(from), steps))
  {
    RunKeepsInv(from, Init(from), steps);
  }

  /** No two handlers hold the same mutex, and none holds both. */
  lemma MutualExclusion(from: K.Instant, steps: seq<Step>, i: ThreadId, j: ThreadId)
    requires CanRun(Init(from), steps)
    ensures var s := Run(Init(from), steps);
      && (s.At(i).HoldsKv() && s.At(j).HoldsKv() ==> i == j)
      && (s.At(i).HoldsBr() && s.At(j).HoldsBr() ==> i == j)
      && !(s.At(i).HoldsKv() && s.At(i).HoldsBr())
  {
    Reached(from, steps);
  }

  /** Every interleaving is one order of whole critical sections with true outcomes, and whenever a
      mutex is free, what it protects is exactly what those sections make of it. */
  lemma SectionsAreAtomic(from: K.Instant, steps: seq<Step>)
    requires CanRun(Init(from), steps)
    ensures var s := Run(Init(from), steps);
      && B.Legal(s.brLog) && (s.brokersLock == None ==> s.boxes == B.Replay(s.brLog))
      && K.Legal(from, s.kvLog) && (s.kvLock == None ==> s.kvMap == K.Replay(s.kvLog))
  {
    Reached(from, steps);
  }

  /** The server goes down in the one step, and only there, where Consume looks at the mailbox of a subscription
      that does not exist. */
  lemma CrashMeansUnknownSubscription(from: K.Instant, steps: seq<Step>, step: Step)
    requires CanRun(Init(from), steps) && Enabled(Run(Init(from), steps), step)
    ensures var s := Run(Init(from), steps);
      Next(s, step).crashed <==>
        && step.ActBrokers?
        && var op := s.At(step.i).brOp; op.OpConsume? && !B.Has(s.boxes, op.topic, op.id)
  {
    Reached(from, steps);
    var s := Run(Init(from), steps);
    if InBrokers(step) {
      assert s.At(step.i).HoldsBr();
      BrStepMoves(s, step);
      assert LooksUpNothing(s) ==> s.At(step.i).BrHeld?;
    } else {
      OthersDoNotCrash(s, step);
    }
  }

  lemma OthersDoNotCrash(s: State, step: Step)
    requires Enabled(s, step) && !InBrokers(step)
    ensures !Next(s, step).crashed
  {
  }

  /** Such a run exists: the first request of all asks for a subscription. */
  lemma UnknownSubscriptionCrashes(from: K.Instant, i: ThreadId, t: B.Topic, id: B.SubscriptionId)
    ensures var steps := [Begin(i, BrWait(OpConsume(t, id))), LockBrokers(i), ActBrokers(i)];
      CanRun(Init(from), steps) && Run(Init(from), steps).crashed
  {
    var s0 := Init(from);
    var s1 := Next(s0, Begin(i, BrWait(OpConsume(t, id))));
    var s2 := Next(s1, LockBrokers(i));
    P.RunCons(s2, ActBrokers(i), []);
    P.RunCons(s1, LockBrokers(i), [ActBrokers(i)]);
    P.RunCons(s0, Begin(i, BrWait(OpConsume(t, id))), [LockBrokers(i), ActBrokers(i)]);
    assert [LockBrokers(i)] + [ActBrokers(i)] == [LockBrokers(i), ActBrokers(i)];
    assert [Begin(i, BrWait(OpConsume(t, id)))] + [LockBrokers(i), ActBrokers(i)]
        == [Begin(i, BrWait(OpConsume(t, id))), LockBrokers(i), ActBrokers(i)];
  }

  /** Whenever brokersLock is free, each subscriber has been sent, or has waiting, exactly what was published to
      its topic since it was registered, each value once and in order. */
  lemma ExactlyOnceInOrder(from: K.Instant, steps: seq<Step>, t: B.Topic, id: B.SubscriptionId)
    requires CanRun(Init(from), steps)
    requires var s := Run(Init(from), steps); s.brokersLock == None && B.Has(s.boxes, t, id)
    ensures var s := Run(Init(from), steps); var log := s.brLog;
      && B.Live(log, t, id)
      && var k := BR.Start(log, t, id);
         BR.Delivered(log, k, t, id) + s.boxes[t][id] == BR.PublishedTo(log, k, t)
  {
    Reached(from, steps);
    var log := Run(Init(from), steps).brLog;
    BR.ExactlyOnce(log, t, id);
    var k := BR.Start(log, t, id);
    assert BR.Delivered(log, k, t, id) + [] == BR.Delivered(log, k, t, id);
  }

  /** After a failed Send the value in flight is lost, and nothing else is. */
  lemma FailedSendLosesOne(from: K.Instant, steps: seq<Step>, i: ThreadId)
    requires CanRun(Init(from), steps) && Run(Init(from), steps).At(i).Abandoned?
    ensures var s := Run(Init(from), steps); var log := s.brLog;
      && log != [] && Last(log).Consume? && |Last(log).lost| == 1
      && var t, id := Last(log).topic, Last(log).id;
         && B.Live(log, t, id) && B.Has(s.boxes, t, id)
         && var k := BR.Start(log, t, id);
            BR.Delivered(log, k, t, id) + Last(log).lost + s.boxes[t][id] == BR.PublishedTo(log, k, t)
  {
    Reached(from, steps);
    var s := Run(Init(from), steps);
    assert s.At(i).HoldsBr();
    var e := Last(s.brLog);
    BR.ExactlyOnce(s.brLog, e.topic, e.id);
    LostIsTheLast(s.brLog);
  }

  /** Handler `i` has nothing to do, and brokersLock is free. */
  ghost predicate Ready(s: State, i: ThreadId) {
    !s.crashed && s.brokersLock == None && s.At(i).Idle?
  }

  lemma SimpleCall(s: State, i: ThreadId, op: BrOp) returns (steps: seq<Step>)
    requires Ready(s, i) && (op.OpCreate? || op.OpAdd?)
    ensures CanRun(s, steps) && Ready(Run(s, steps), i)
    ensures Run(s, steps).boxes == B.Apply(s.boxes, Simple(s.boxes, op))
  {
    var s1 := Next(s, Begin(i, BrWait(op)));
    var s2 := Next(s1, LockBrokers(i));
    var s3 := Next(s2, ActBrokers(i));
    P.RunCons(s3, UnlockBrokers(i), []);
    P.RunCons(s2, ActBrokers(i), [UnlockBrokers(i)] + []);
    P.RunCons(s1, LockBrokers(i), [ActBrokers(i)] + ([UnlockBrokers(i)] + []));
    steps := [LockBrokers(i)] + ([ActBrokers(i)] + ([UnlockBrokers(i)] + []));
    P.RunCons(s, Begin(i, BrWait(op)), steps);
    steps := [Begin(i, BrWait(op))] + steps;
  }

  lemma PublishCall(s: State, i: ThreadId, t: B.Topic, id: B.SubscriptionId, v: Value) returns (steps: seq<Step>)
    requires Ready(s, i) && t in s.boxes && s.boxes[t].Keys == {id}
    ensures CanRun(s, steps) && Ready(Run(s, steps), i)
    ensures B.Has(Run(s, steps).boxes, t, id) && Run(s, steps).boxes[t][id] != []
  {
    var s1 := Next(s, Begin(i, BrWait(OpPublish(t, v))));
    var s2 := Next(s1, LockBrokers(i));
    var s3 := Next(s2, ActBrokers(i));
    var s4 := Next(s3, Push(i, id));
    var s5 := Next(s4, UnlockBrokers(i));
    P.RunCons(s5, Ack(i), []);
    steps := [Ack(i)] + [];
    P.RunCons(s4, UnlockBrokers(i), steps);
    steps := [UnlockBrokers(i)] + steps;
    P.RunCons(s3, Push(i, id), steps);
    steps := [Push(i, id)] + steps;
    P.RunCons(s2, ActBrokers(i), steps);
    steps := [ActBrokers(i)] + steps;
    P.RunCons(s1, LockBrokers(i), steps);
    steps := [LockBrokers(i)] + steps;
    P.RunCons(s, Begin(i, BrWait(OpPublish(t, v))), steps);
    steps := [Begin(i, BrWait(OpPublish(t, v)))] + steps;
  }

  lemma FailingConsume(s: State, i: ThreadId, t: B.Topic, id: B.SubscriptionId) returns (steps: seq<Step>)
    requires Ready(s, i) && B.Has(s.boxes, t, id) && s.boxes[t][id] != []
    ensures CanRun(s, steps) && Run(s, steps).At(i).Abandoned?
  {
    var s1 := Next(s, Begin(i, BrWait(OpConsume(t, id))));
    var s2 := Next(s1, LockBrokers(i));
    var s3 := Next(s2, ActBrokers(i));
    var s4 := Next(s3, Pop(i));
    P.RunCons(s4, Send(i, false), []);
    steps := [Send(i, false)] + [];
    P.RunCons(s3, Pop(i), steps);
    steps := [Pop(i)] + steps;
    P.RunCons(s2, ActBrokers(i), steps);
    steps := [ActBrokers(i)] + steps;
    P.RunCons(s1, LockBrokers(i), steps);
    steps := [LockBrokers(i)] + steps;
    P.RunCons(s, Begin(i, BrWait(OpConsume(t, id))), steps);
    steps := [Begin(i, BrWait(OpConsume(t, id)))] + steps;
  }

  /** The lock can be leaked: create, subscribe, publish, and fail to send what is consumed. */
  lemma SendMayFail(from: K.Instant, i: ThreadId, t: B.Topic, id: B.SubscriptionId, v: Value)
    returns (steps: seq<Step>)
    ensures CanRun(Init(from), steps) && Run(Init(from), steps).At(i).Abandoned?
  {
    steps := SimpleCall(Init(from), i, OpCreate(t));
    var next := SimpleCall(Run(Init(from), steps), i, OpAdd(t, id));
    P.RunAppend(Init(from), steps, next);
    steps := steps + next;
    next := PublishCall(Run(Init(from), steps), i, t, id, v);
    P.RunAppend(Init(from), steps, next);
    steps := steps + next;
    next := FailingConsume(Run(Init(from), steps), i, t, id);
    P.RunAppend(Init(from), steps, next);
    steps := steps + next;
  }

  lemma LostIsTheLast(log: seq<B.Event>)
    requires B.Legal(log) && BR.FailureIsLast(log) && log != [] && BR.Fails(Last(log))
    ensures var e := Last(log);
      B.Live(log, e.topic, e.id) && BR.Lost(log, BR.Start(log, e.topic, e.id), e.topic, e.id) == e.lost
  {
    var e, was := Last(log), Front(log);
    var k := BR.Start(was, e.topic, e.id);
    forall j | 0 <= j < |was| - 1 ensures !BR.Fails(was[j]) { assert was[j] == log[j]; }
    if was != [] { assert Last(was) == log[|log| - 2]; }
    BR.OnlyTheLastIsLost(was, k, e.topic, e.id);
    assert [] + e.lost == e.lost;
  }

  /** Values are neither created nor destroyed, but for the copies of Publish and the ways out of a mailbox. */
  lemma NothingLeaks(from: K.Instant, steps: seq<Step>)
    requires CanRun(Init(from), steps)
    ensures var s := Run(Init(from), steps);
      s.brokersLock == None ==> C.Queued(s.boxes) + C.TakenOut(s.brLog) + C.Dropped(s.brLog) == C.Copied(s.brLog)
  {
    Reached(from, steps);
    C.Conserved(Run(Init(from), steps).brLog);
  }

  /** GetKV, for all that it reads the clock before it takes the lock, answers every request as a store that never
      deletes would have at one moment between the request and its return, where a SetKV counts from its stamp. The
      one exception is a hit on an entry with a negative time-out that was set in between. */
  lemma LookupsAreLinearizable(from: K.Instant, before: seq<Step>, call: seq<Step>, i: ThreadId, k: K.Key)
    requires CanRun(Init(from), before) && R.IsCall(Run(Init(from), before), i, GetEntered(k), call)
    requires Run(Run(Init(from), before), call).At(i).Idle?
    ensures var s0 := Run(Init(from), before); var s := Run(s0, call);
      var marks := R.Traced(R.NOTHING, s0, call, i).kv;
      && |marks| == 1 && |s0.kvLog| <= marks[0] < |s.kvLog|
      && var n := marks[0]; var e, log := s.kvLog[n], s.kvLog[..n];
         && e.GetKV? && e.key == k && |s0.kvLog| <= e.since <= n
         && s0.clock <= e.now <= e.at <= s.clock
         && Answers(log, e)
  {
    var s0 := Run(Init(from), before);
    var s := Run(s0, call);
    R.EachRequestIsServed(s0, i, GetEntered(k), call);
    P.RunAppend(Init(from), before, call);
    LookupEventsAnswer(from, before + call, R.Traced(R.NOTHING, s0, call, i).kv[0]);
  }

  /** The answer in `e` is right for the reference store that `log` makes. */
  ghost predicate Answers(log: seq<K.Event>, e: K.Event)
    requires e.GetKV? && e.since <= |log|
  {
    if e.answer == None then K.Lookup(K.Reference(log), e.key, e.at) == None
    else
      && e.key in K.Reference(log)
      && var entry := K.Reference(log)[e.key];
         && e.answer == Some(entry.value)
         && (KR.Explained(log, e, entry) <==> entry.timeOut >= 0 || KR.LastSet(log, e.key) < e.since)
  }

  lemma LookupEventsAnswer(from: K.Instant, steps: seq<Step>, n: nat)
    requires CanRun(Init(from), steps)
    requires n < |Run(Init(from), steps).kvLog| && Run(Init(from), steps).kvLog[n].GetKV?
    ensures var log := Run(Init(from), steps).kvLog;
      log[n].since <= n && Answers(log[..n], log[n])
  {
    Reached(from, steps);
    var log := Run(Init(from), steps).kvLog;
    KR.EachFollows(from, log, n);
    if log[n].answer == None {
      KR.MissIsTrueUnderTheLock(from, log[..n], log[n]);
    } else {
      KR.HitIsExplained(from, log[..n], log[n]);
    }
  }

  /** Publish does what it is asked to: once it is to be acknowledged, the value has its place, in publish order, in the
      history of every subscription that was registered before its section and has not ended. */
  lemma PublishedIsDelivered(from: K.Instant, before: seq<Step>, call: seq<Step>, i: ThreadId, t: B.Topic, v: Value,
                             id: B.SubscriptionId)
    requires CanRun(Init(from), before) && R.IsCall(Run(Init(from), before), i, BrWait(OpPublish(t, v)), call)
    requires Run(Run(Init(from), before), call).At(i).Acking?
    ensures var s0 := Run(Init(from), before); var s := Run(s0, call);
      var marks := R.Traced(R.NOTHING, s0, call, i).br;
      && |marks| == 1 && |s0.brLog| <= marks[0] < |s.brLog|
      && var n, log := marks[0], s.brLog;
         && log[n] == B.Publish(t, v, i)
         && (B.Live(log, t, id) && BR.Start(log, t, id) <= n ==>
               var place := |BR.PublishedTo(log[..n], BR.Start(log, t, id), t)|;
               place < |BR.History(log, t, id)| && BR.History(log, t, id)[place] == v)
  {
    var s0 := Run(Init(from), before);
    var s := Run(s0, call);
    R.EachRequestIsServed(s0, i, BrWait(OpPublish(t, v)), call);
    P.RunAppend(Init(from), before, call);
    Reached(from, before + call);
    var n := R.Traced(R.NOTHING, s0, call, i).br[0];
    if B.Live(s.brLog, t, id) && BR.Start(s.brLog, t, id) <= n {
      BR.PublishedHasItsPlace(s.brLog, n, t, id);
    }
  }

  // ------------------------------------------------------------------------ Snapshot

  /** The lengths of the two logs when the call came in. */
  datatype Entry = Entry(kv: nat, br: nat)

  ghost predicate Measured(s: State, size: Size, entry: Entry) {
    entry.kv <= size.at < |s.kvLog| && s.kvLog[size.at] == K.Length(size.length)
  }

  /** A Snapshot under way remembers a length that it read during this very call, and so does one that returns,
      together with the counts it took during this call. */
  ghost predicate ReportFits(s: State, pc: Pc, entry: Entry) {
    && entry.kv <= |s.kvLog| && entry.br <= |s.brLog|
    && (pc.KvDone? && pc.measured.Some? ==> Measured(s, pc.measured.value, entry))
    && ((pc.BrWait? || pc.BrHeld?) && pc.brOp.OpSnapshot? ==> Measured(s, pc.brOp.size, entry))
    && (pc.CountingTopics? || pc.CountingSubs? || pc.Reporting? ==> Measured(s, pc.size, entry))
    && (pc.Reporting? ==> entry.br <= pc.cut < |s.brLog| && s.brLog[pc.cut] == B.Snapshot(pc.counts))
  }

  ghost predicate InKv(step: Step) {
    step.LockKv? || step.ActKv? || step.Visit? || step.UnlockKv?
  }

  lemma ReportFitsInKv(s: State, step: Step, entry: Entry)
    requires Enabled(s, step) && InKv(step)
    requires ReportFits(s, s.At(step.i), entry)
    ensures ReportFits(Next(s, step), Next(s, step).At(step.i), entry)
  {
  }

  lemma ReportFitsAtUnlock(s: State, i: ThreadId, entry: Entry)
    requires Enabled(s, UnlockBrokers(i)) && ReportFits(s, s.At(i), entry)
    ensures ReportFits(UnlockedBrokers(s, i), UnlockedBrokers(s, i).At(i), entry)
  {
  }

  lemma ReportFitsInBrokers(s: State, step: Step, entry: Entry)
    requires Enabled(s, step) && InBrokers(step) && ReportFits(s, s.At(step.i), entry)
    ensures ReportFits(Next(s, step), Next(s, step).At(step.i), entry)
  {
    match step
    case ActBrokers(_) =>
    case UnlockBrokers(i) => ReportFitsAtUnlock(s, i, entry);
    case _ => BrokersUnreported(s, step, entry);
  }

  lemma BrokersUnreported(s: State, step: Step, entry: Entry)
    requires Enabled(s, step) && InBrokers(step) && !step.ActBrokers? && !step.UnlockBrokers?
    requires ReportFits(s, s.At(step.i), entry)
    ensures ReportFits(Next(s, step), Next(s, step).At(step.i), entry)
  {
  }

  lemma OwnReportFits(s: State, step: Step, entry: Entry)
    requires Enabled(s, step) && !step.Tick? && ReportFits(s, s.At(step.i), entry)
    ensures ReportFits(Next(s, step), Next(s, step).At(step.i), entry)
  {
    if InKv(step) {
      ReportFitsInKv(s, step, entry);
    } else if InBrokers(step) {
      ReportFitsInBrokers(s, step, entry);
    }
  }

  lemma {:induction false} ReportsFit(s: State, steps: seq<Step>, i: ThreadId, entry: Entry)
    requires CanRun(s, steps) && ReportFits(s, s.At(i), entry)
    ensures ReportFits(Run(s, steps), Run(s, steps).At(i), entry)
    decreases |steps|
  {
    if steps != [] {
      var s' := Next(s, steps[0]);
      if !steps[0].Tick? && steps[0].i == i {
        OwnReportFits(s, steps[0], entry);
      } else {
        R.StepIsLater(s, steps[0]);
        if !steps[0].Tick? { P.StepsOfOthers(s, steps[0], i); }
      }
      ReportsFit(s', steps[1..], i, entry);
    }
  }

  /** Snapshot returns the true size of kvMap at one moment, and at one moment all topics, all their subscriptions and
      how many values each had waiting: those published since its registration less those it took. Both moments lie
      between the call, which finds handler `i` idle, and the return. */
  lemma SnapshotTellsTheTruth(from: K.Instant, before: seq<Step>, call: seq<Step>, i: ThreadId)
    requires CanRun(Init(from), before) && Run(Init(from), before).At(i).Idle?
    requires CanRun(Run(Init(from), before), call) && Run(Run(Init(from), before), call).At(i).Reporting?
    ensures var s0 := Run(Init(from), before); var s := Run(s0, call); var Reporting(size, counts, cut) := s.At(i);
      && |s0.kvLog| <= size.at < |s.kvLog| && size.length == |K.Replay(s.kvLog[..size.at])|
      && |s0.brLog| <= cut < |s.brLog|
      && var log := s.brLog[..cut];
         && (forall t :: t in counts <==> t in B.Replay(log))
         && (forall t, id :: (t in counts && id in counts[t]) <==> B.Live(log, t, id))
         && forall t, id :: B.Live(log, t, id) ==>
              var k := BR.Start(log, t, id);
              counts[t][id] == |BR.PublishedTo(log, k, t)| - |BR.Taken(log, k, t, id)|
  {
    var s0 := Run(Init(from), before);
    var s := Run(s0, call);
    P.RunAppend(Init(from), before, call);
    Reached(from, before + call);
    ReportsFit(s0, call, i, Entry(|s0.kvLog|, |s0.brLog|));
    var Reporting(size, counts, cut) := s.At(i);
    KR.EachFollows(from, s.kvLog, size.at);
    BR.EachIsAllowed(s.brLog, cut);
    var log := s.brLog[..cut];
    forall t, id | B.Live(log, t, id)
      ensures var k := BR.Start(log, t, id);
        counts[t][id] == |BR.PublishedTo(log, k, t)| - |BR.Taken(log, k, t, id)|
    {
      BR.Delivery(log, t, id);
    }
  }

  /** The size it returns is off by expired entries only: it counts every live key, and no key that was not set. */
  lemma SizeIsBetween(from: K.Instant, log: seq<K.Event>, live: set<K.Key>)
    requires K.Legal(from, log)
    requires live == set k | k in K.Reference(log) && !K.Reference(log)[k].Expired(K.Latest(from, log))
    ensures |live| <= |K.Replay(log)| <= |K.Reference(log)|
  {
    forall k ensures k in live ==> k in K.Replay(log)
      ensures k in K.Replay(log) ==> k in K.Reference(log) {
      KR.Sandwich(from, log, k);
    }
    Subset(live, K.Replay(log).Keys);
    Subset(K.Replay(log).Keys, K.Reference(log).Keys);
  }

  lemma {:induction false} Subset<T>(a: set<T>, b: set<T>)
    requires a <= b
    ensures |a| <= |b|
  {
    if x :| x in a { Subset(a - {x}, b - {x}); }
  }
}
