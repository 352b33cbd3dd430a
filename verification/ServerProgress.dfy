/** Lock discipline and progress of the server machine. */
module ServerProgress {
  import opened Common
  import opened ServerMachine
  import opened ServerRuns
  import B = BrokerSpec
  import K = KvSpec

  /** brokersLock will never be free again: its holder has returned, or is about to dereference nil. */
  ghost predicate Stuck(s: State) {
    Holder(s, s.brokersLock).Abandoned? || LooksUpNothing(s)
  }

  // ---------------------------------------------------------------- what is left to do

  function Major(pc: Pc): nat {
    if pc.BrHeld? || pc.KvHeld? then 2 else if pc.BrDone? || pc.KvDone? then 0 else 1
  }

  function Mid(pc: Pc): nat {
    match pc
    case CountingTopics(_, topics, _) => 2 * |topics| + 1
    case CountingSubs(_, topics, _, _, _, _) => 2 * |topics| + 2
    case _ => 0
  }

  function Minor(pc: Pc): nat {
    match pc
    case Collecting(_, keys) => |keys| + 1
    case Pushing(_, _, ids) => |ids|
    case Draining(_, _, count, sent) => if |sent| < count then 2 * (count - |sent|) else 0
    case Sending(_, _, count, sent, _) => if |sent| < count then 2 * (count - |sent|) - 1 else 0
    case CountingSubs(_, _, _, _, ids, _) => |ids|
    case _ => 0
  }

  ghost predicate LessLeft(pc': Pc, pc: Pc) {
    || Major(pc') < Major(pc)
    || (Major(pc') == Major(pc) && (Mid(pc') < Mid(pc) || (Mid(pc') == Mid(pc) && Minor(pc') < Minor(pc))))
  }

  /** The step the holder of a lock takes next, when every Send succeeds. */
  ghost function HolderStep(i: ThreadId, pc: Pc): Step
    requires (pc.HoldsKv() || pc.HoldsBr()) && !pc.Abandoned?
  {
    match pc
    case KvHeld(_) => ActKv(i)
    case Stamped(_, _, _, _) => ActKv(i)
    case Collecting(_, keys) => if keys == {} then UnlockKv(i) else var k :| k in keys; Visit(i, k)
    case KvDone(_) => UnlockKv(i)
    case BrHeld(_) => ActBrokers(i)
    case Pushing(_, _, ids) => if ids == {} then UnlockBrokers(i) else var id :| id in ids; Push(i, id)
    case Draining(_, _, count, sent) => if |sent| < count then Pop(i) else UnlockBrokers(i)
    case Sending(_, _, _, _, _) => Send(i, true)
    case CountingTopics(_, topics, _) =>
      if topics == {} then UnlockBrokers(i) else var t :| t in topics; OpenTopic(i, t)
    case CountingSubs(_, _, _, _, ids, _) => if ids == {} then CloseTopic(i) else var id :| id in ids; CountSub(i, id)
    case BrDone => UnlockBrokers(i)
  }

  lemma HolderCanStep(s: State, i: ThreadId)
    requires !s.crashed && (s.At(i).HoldsKv() || s.At(i).HoldsBr()) && !s.At(i).Abandoned?
    ensures Enabled(s, HolderStep(i, s.At(i)))
  {
  }

  /** Handler `i` keeps the lock it holds and has less left to do, or gives it up. */
  ghost predicate KvProgress(s: State, s': State, i: ThreadId) {
    && !s'.crashed && s'.brokersLock == s.brokersLock
    && if s'.At(i).HoldsKv() then LessLeft(s'.At(i), s.At(i)) && s'.kvLock == s.kvLock
       else s'.kvLock == None && s'.At(i).LeavesKv()
  }

  ghost predicate BrProgress(s: State, s': State, i: ThreadId) {
    && !s'.crashed && s'.kvLock == s.kvLock
    && if s'.At(i).HoldsBr() then LessLeft(s'.At(i), s.At(i)) && s'.brokersLock == s.brokersLock
       else s'.brokersLock == None && s'.At(i).LeavesBr()
  }

  lemma ActKvProgresses(s: State, i: ThreadId)
    requires Enabled(s, ActKv(i))
    ensures KvProgress(s, ActedKv(s, i), i)
  {
  }

  lemma UnlockKvProgresses(s: State, i: ThreadId)
    requires Enabled(s, UnlockKv(i))
    ensures KvProgress(s, UnlockedKv(s, i), i)
  {
  }

  /** Whatever step the holder of kvLock takes, it gives up the lock or has less left to do. */
  lemma KvHolderProgresses(s: State, step: Step)
    requires Enabled(s, step) && !step.Tick? && s.At(step.i).HoldsKv()
    ensures KvProgress(s, Next(s, step), step.i)
  {
    match step
    case ActKv(i) => ActKvProgresses(s, i);
    case Visit(i, k) =>
    case UnlockKv(i) => UnlockKvProgresses(s, i);
    case _ =>
  }

  lemma ActBrokersProgresses(s: State, i: ThreadId)
    requires Enabled(s, ActBrokers(i)) && !ActedBrokers(s, i).crashed && s.brokersLock == Some(i)
    ensures BrProgress(s, ActedBrokers(s, i), i)
  {
  }

  lemma UnlockBrokersProgresses(s: State, i: ThreadId)
    requires Enabled(s, UnlockBrokers(i))
    ensures BrProgress(s, UnlockedBrokers(s, i), i)
  {
  }

  lemma OpenTopicProgresses(s: State, i: ThreadId, t: B.Topic)
    requires Enabled(s, OpenTopic(i, t)) && !OpenedTopic(s, i, t).crashed
    ensures BrProgress(s, OpenedTopic(s, i, t), i)
  {
  }

  lemma CountingProgresses(s: State, step: Step)
    requires Enabled(s, step) && !Next(s, step).crashed
    requires step.OpenTopic? || step.CountSub? || step.CloseTopic?
    ensures BrProgress(s, Next(s, step), step.i)
  {
    match step
    case OpenTopic(i, t) => OpenTopicProgresses(s, i, t);
    case CountSub(i, id) =>
    case CloseTopic(i) =>
  }

  lemma MovingProgresses(s: State, step: Step)
    requires Enabled(s, step) && !Next(s, step).crashed
    requires step.Push? || step.Pop? || (step.Send? && step.ok && |s.At(step.i).sent| < s.At(step.i).count)
    ensures BrProgress(s, Next(s, step), step.i)
  {
    match step
    case Push(i, id) =>
    case Pop(i) =>
    case Send(i, _) =>
  }

  /** The same for brokersLock, unless a Send fails or the subscription is missing. */
  lemma BrHolderProgresses(s: State, step: Step)
    requires BrInv(s) && Enabled(s, step) && InBrokers(step) && s.brokersLock == Some(step.i) && !Stuck(s)
    requires step.Send? ==> step.ok
    ensures BrProgress(s, Next(s, step), step.i)
  {
    BrStepMoves(s, step);
    match step
    case ActBrokers(i) => ActBrokersProgresses(s, i);
    case UnlockBrokers(i) => UnlockBrokersProgresses(s, i);
    case Push(_, _) => MovingProgresses(s, step);
    case Pop(_) => MovingProgresses(s, step);
    case Send(_, _) => MovingProgresses(s, step);
    case _ => CountingProgresses(s, step);
  }

  // ---------------------------------------------------------- every lock is released

  /** `steps` are taken by handler `i`, about the request it has. */
  ghost predicate AllBy(steps: seq<Step>, i: ThreadId) {
    forall n :: 0 <= n < |steps| ==> !steps[n].Tick? && !steps[n].Begin? && steps[n].i == i
  }

  lemma BrStepsOfOthers(s: State, step: Step, j: ThreadId)
    requires Enabled(s, step) && InBrokers(step) && step.i != j
    ensures Next(s, step).At(j) == s.At(j)
  {
  }

  lemma StepsOfOthers(s: State, step: Step, j: ThreadId)
    requires Enabled(s, step) && !step.Tick? && step.i != j
    ensures Next(s, step).At(j) == s.At(j)
  {
    if InBrokers(step) { BrStepsOfOthers(s, step, j); }
  }

  lemma {:induction false} RunsOfOthers(s: State, steps: seq<Step>, i: ThreadId, j: ThreadId)
    requires CanRun(s, steps) && AllBy(steps, i) && i != j
    ensures Run(s, steps).At(j) == s.At(j)
    decreases |steps|
  {
    if steps != [] {
      assert steps[0].i == i;
      StepsOfOthers(s, steps[0], j);
      RunsOfOthers(Next(s, steps[0]), steps[1..], i, j);
    }
  }

  lemma RunCons(s: State, step: Step, rest: seq<Step>)
    requires Enabled(s, step) && CanRun(Next(s, step), rest)
    ensures CanRun(s, [step] + rest) && Run(s, [step] + rest) == Run(Next(s, step), rest)
  {
    assert ([step] + rest)[1..] == rest;
  }

  lemma {:induction false} RunAppend(s: State, before: seq<Step>, after: seq<Step>)
    requires CanRun(s, before) && CanRun(Run(s, before), after)
    ensures CanRun(s, before + after) && Run(s, before + after) == Run(Run(s, before), after)
    decreases |before|
  {
    if before == [] {
      assert before + after == after;
    } else {
      RunAppend(Next(s, before[0]), before[1..], after);
      RunCons(s, before[0], before[1..] + after);
      assert before + after == [before[0]] + (before[1..] + after);
    }
  }

  lemma KvHolderSteps(from: K.Instant, s: State, i: ThreadId)
    requires Inv(from, s) && !s.crashed && s.kvLock == Some(i)
    ensures s.At(i).HoldsKv()
    ensures var step := HolderStep(i, s.At(i));
      && !step.Tick? && !step.Begin? && step.i == i
      && Enabled(s, step) && Inv(from, Next(s, step)) && KvProgress(s, Next(s, step), i)
  {
    assert s.At(i).HoldsKv();
    HolderCanStep(s, i);
    KvHolderProgresses(s, HolderStep(i, s.At(i)));
    StepKeepsInv(from, s, HolderStep(i, s.At(i)));
  }

  lemma BrHolderSteps(from: K.Instant, s: State, i: ThreadId)
    requires Inv(from, s) && !s.crashed && s.brokersLock == Some(i) && !Stuck(s)
    ensures s.At(i).HoldsBr() && !s.At(i).Abandoned?
    ensures var step := HolderStep(i, s.At(i));
      && !step.Tick? && !step.Begin? && step.i == i
      && Enabled(s, step) && Inv(from, Next(s, step)) && BrProgress(s, Next(s, step), i)
  {
    assert s.At(i).HoldsBr();
    HolderCanStep(s, i);
    BrHolderProgresses(s, HolderStep(i, s.At(i)));
    StepKeepsInv(from, s, HolderStep(i, s.At(i)));
  }

  /** A handler that goes on holding the lock after its own good step is not stuck. */
  lemma StaysUnstuck(from: K.Instant, s: State, i: ThreadId)
    requires Inv(from, s) && !s.crashed && s.brokersLock == Some(i) && !s.At(i).BrHeld? && !s.At(i).Abandoned?
    ensures !Stuck(s)
  {
  }

  lemma HolderStepIsGood(s: State, i: ThreadId)
    requires !s.crashed && s.At(i).HoldsBr() && !s.At(i).Abandoned?
    ensures var s' := Next(s, HolderStep(i, s.At(i)));
      s'.crashed || (!s'.At(i).BrHeld? && !s'.At(i).Abandoned?)
  {
  }

  /** kvLock: its holder alone can always run on until it unlocks. */
  lemma {:induction false} KvLockIsReleased(from: K.Instant, s: State, i: ThreadId) returns (steps: seq<Step>)
    requires Inv(from, s) && !s.crashed && s.kvLock == Some(i)
    ensures AllBy(steps, i) && CanRun(s, steps)
    ensures var s' := Run(s, steps);
      && s'.kvLock == None && !s'.crashed && Inv(from, s')
      && s'.At(i).LeavesKv() && s'.brokersLock == s.brokersLock
    decreases Major(s.At(i)), Mid(s.At(i)), Minor(s.At(i))
  {
    KvHolderSteps(from, s, i);
    var step := HolderStep(i, s.At(i));
    var s', rest := Next(s, step), [];
    if s'.kvLock != None {
      rest := KvLockIsReleased(from, s', i);
    }
    steps := [step] + rest;
    RunCons(s, step, rest);
  }

  lemma {:induction false} BrokersLockIsReleased(from: K.Instant, s: State, i: ThreadId) returns (steps: seq<Step>)
    requires Inv(from, s) && !s.crashed && s.brokersLock == Some(i) && !Stuck(s)
    ensures AllBy(steps, i) && CanRun(s, steps)
    ensures var s' := Run(s, steps);
      && s'.brokersLock == None && !s'.crashed && Inv(from, s')
      && s'.At(i).LeavesBr() && s'.kvLock == s.kvLock
    decreases Major(s.At(i)), Mid(s.At(i)), Minor(s.At(i))
  {
    BrHolderSteps(from, s, i);
    HolderStepIsGood(s, i);
    var step := HolderStep(i, s.At(i));
    var s', rest := Next(s, step), [];
    if s'.brokersLock != None {
      StaysUnstuck(from, s', i);
      rest := BrokersLockIsReleased(from, s', i);
    }
    steps := [step] + rest;
    RunCons(s, step, rest);
  }

  lemma OthersLeaveBrokers(s: State, step: Step)
    requires Enabled(s, step) && (step.Tick? || !s.At(step.i).HoldsBr()) && s.brokersLock != None
    ensures SameBrokers(s, Next(s, step))
  {
  }

  lemma StuckStays(from: K.Instant, s: State, step: Step)
    requires Inv(from, s) && Stuck(s) && Enabled(s, step)
    ensures SameBrokers(s, Next(s, step)) && Stuck(Next(s, step))
  {
    var i := s.brokersLock.value;
    assert s.At(i).HoldsBr();
    if step.Tick? {
      OthersLeaveBrokers(s, step);
    } else if step.i != i {
      OthersLeaveBrokers(s, step);
      StepsOfOthers(s, step, i);
    } else {
      assert step == ActBrokers(i) && Next(s, step) == s.(crashed := true);
    }
  }

  /** Once brokersLock is leaked, no handler gets at the mailboxes again, in any continuation. */
  lemma {:induction false} StuckForever(from: K.Instant, s: State, steps: seq<Step>)
    requires Inv(from, s) && Stuck(s) && CanRun(s, steps)
    ensures SameBrokers(s, Run(s, steps)) && Stuck(Run(s, steps))
    decreases |steps|
  {
    if steps != [] {
      StuckStays(from, s, steps[0]);
      StepKeepsInv(from, s, steps[0]);
      StuckForever(from, Next(s, steps[0]), steps[1..]);
    }
  }

  /** brokersLock can be released if and only if it is not stuck. */
  lemma ReleasableUnlessStuck(from: K.Instant, s: State)
    requires Inv(from, s) && !s.crashed && s.brokersLock.Some?
    ensures (exists steps :: CanRun(s, steps) && Run(s, steps).brokersLock == None) <==> !Stuck(s)
  {
    if Stuck(s) {
      forall steps | CanRun(s, steps) ensures Run(s, steps).brokersLock != None {
        StuckForever(from, s, steps);
      }
    } else {
      var steps := BrokersLockIsReleased(from, s, s.brokersLock.value);
    }
  }

  /** No deadlock: every handler that is under way can take a step now, or can be let in by the handler that holds
      the lock it waits for. Only a stuck brokersLock keeps the handlers waiting for it out. */
  lemma EveryoneGetsIn(from: K.Instant, s: State, j: ThreadId) returns (steps: seq<Step>, step: Step)
    requires Inv(from, s) && !s.crashed && !s.At(j).Idle? && !s.At(j).Abandoned?
    requires s.At(j).BrWait? ==> !Stuck(s)
    ensures CanRun(s, steps) && Run(s, steps).At(j) == s.At(j)
    ensures !step.Tick? && step.i == j && Enabled(Run(s, steps), step)
  {
    var pc := s.At(j);
    steps := [];
    if pc.KvWait? {
      step := LockKv(j);
      if s.kvLock.Some? {
        assert s.At(s.kvLock.value).HoldsKv();
        steps := KvLockIsReleased(from, s, s.kvLock.value);
        RunsOfOthers(s, steps, s.kvLock.value, j);
      }
    } else if pc.BrWait? {
      step := LockBrokers(j);
      if s.brokersLock.Some? {
        assert s.At(s.brokersLock.value).HoldsBr();
        steps := BrokersLockIsReleased(from, s, s.brokersLock.value);
        RunsOfOthers(s, steps, s.brokersLock.value, j);
      }
    } else if pc.GetEntered? {
      step := ReadClock(j);
    } else if pc.Acking? || pc.Reporting? {
      step := Ack(j);
    } else {
      step := HolderStep(j, pc);
      HolderCanStep(s, j);
    }
  }
}
