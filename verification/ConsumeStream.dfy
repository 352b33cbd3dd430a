/** client.Consume against the server's Consume handler, joined by a FIFO channel without stream errors, and the
    broker they work on. Other clients' critical sections fall in between at will. The client hands every message
    to the channel `resp`, which accepts as many as fit into it or are received from it. */
module ConsumeStream {
  import opened Common
  import B = BrokerSpec
  import BR = BrokerRuns

  /** `wants` is false when the caller passes a nil channel. `takes` limits what `resp` accepts, and `window` the
      messages the transport holds before a Send waits. `before` is what the broker has done when the call begins. */
  datatype Config = Config(topic: B.Topic, id: B.SubscriptionId, wants: bool, takes: Option<nat>, window: Option<nat>,
                           before: seq<B.Event>)

  datatype Client =
    | Requesting
    | Reading
    | Offering(value: Value)
    | Finished
    | Failed // the server went down under the call

  /** `box` is what the mailbox held when the lock was taken, `at` the place of the handler's event in the log. */
  datatype Server =
    | Receiving
    | Locking
    | Draining(box: seq<Value>, next: nat)
    | Returned(box: seq<Value>, at: nat)
    | Crashed

  datatype State = State(
    client: Client,
    server: Server,
    requested: bool,
    down: seq<Value>,
    handed: seq<Value>, // accepted by resp
    dropped: nat,       // received for a nil resp
    log: seq<B.Event>)

  function Init(c: Config): State {
    State(Requesting, Receiving, false, [], [], 0, c.before)
  }

  datatype Step =
    | ClientRequest
    | ClientReceive
    | HandOver
    | ClientEnd
    | ClientFail
    | ServerReceive
    | ServerLock
    | ServerSend
    | ServerEnd
    | Other(e: B.Event)

  /** Some other handler's failed Send has left brokersLock taken. */
  predicate Leaked(s: State) {
    s.log != [] && BR.Fails(Last(s.log))
  }

  predicate Enabled(c: Config, s: State, step: Step) {
    match step
    case ClientRequest => s.client.Requesting?
    case ClientReceive => s.client.Reading? && s.down != []
    case HandOver => s.client.Offering? && Accepts(c.takes, |s.handed| + 1)
    case ClientEnd => s.client.Reading? && s.down == [] && s.server.Returned?
    case ClientFail => s.client.Reading? && s.down == [] && s.server.Crashed?
    case ServerReceive => s.server.Receiving? && s.requested
    case ServerLock => s.server.Locking? && !Leaked(s)
    case ServerSend =>
      s.server.Draining? && s.server.next < |s.server.box| && Accepts(c.window, |s.down| + 1)
    case ServerEnd => s.server.Draining? && s.server.next >= |s.server.box|
    case Other(e) => !s.server.Draining? && !s.server.Crashed? && !Leaked(s) && B.Allowed(B.Replay(s.log), e)
  }

  function Next(c: Config, s: State, step: Step): State
    requires Enabled(c, s, step)
  {
    match step
    case ClientRequest => s.(client := Reading, requested := true)
    case ClientReceive =>
      if c.wants then s.(client := Offering(s.down[0]), down := s.down[1..])
      else s.(down := s.down[1..], dropped := s.dropped + 1)
    case HandOver => s.(client := Reading, handed := s.handed + [s.client.value])
    case ClientEnd => s.(client := Finished)
    case ClientFail => s.(client := Failed)
    case ServerReceive => s.(server := Locking)
    case ServerLock =>
      if B.Live(s.log, c.topic, c.id) then s.(server := Draining(B.Box(s.log, c.topic, c.id), 0))
      else s.(server := Crashed)
    case ServerSend =>
      s.(server := s.server.(next := s.server.next + 1), down := s.down + [s.server.box[s.server.next]])
    case ServerEnd =>
      var box := s.server.box;
      s.(server := Returned(box, |s.log|), log := s.log + [B.Consume(c.topic, c.id, box, [])])
    case Other(e) => s.(log := s.log + [e])
  }

  predicate CanRun(c: Config, s: State, steps: seq<Step>)
    decreases |steps|
  {
    steps == [] || (Enabled(c, s, steps[0]) && CanRun(c, Next(c, s, steps[0]), steps[1..]))
  }

  function Run(c: Config, s: State, steps: seq<Step>): State
    requires CanRun(c, s, steps)
    decreases |steps|
  {
    if steps == [] then s else Run(c, Next(c, s, steps[0]), steps[1..])
  }

  // ----------------------------------------------------------------- the invariant

  function Box(s: State): seq<Value> {
    match s.server
    case Draining(box, _) => box
    case Returned(box, _) => box
    case _ => []
  }

  /** how much of the box the server has sent */
  function Sent(s: State): nat {
    match s.server
    case Draining(_, n) => n
    case Returned(box, _) => |box|
    case _ => 0
  }

  function Held(s: State): seq<Value> {
    if s.client.Offering? then [s.client.value] else []
  }

  /** What the server has sent is handed over, with the client or on its way. */
  predicate Carried(wants: bool, handed: seq<Value>, held: seq<Value>, down: seq<Value>, dropped: nat, sent: seq<Value>)
  {
    if wants then handed + held + down == sent
    else handed == [] && held == [] && dropped <= |sent| && down == sent[dropped..]
  }

  predicate Flows(c: Config, s: State) {
    Sent(s) <= |Box(s)| && Carried(c.wants, s.handed, Held(s), s.down, s.dropped, Box(s)[..Sent(s)])
  }

  predicate ControlFits(c: Config, s: State) {
    && (s.client.Requesting? ==> s.server.Receiving?)
    && (s.requested <==> !s.client.Requesting?)
    && (s.client.Finished? ==> s.server.Returned? && s.down == [])
    && (s.client.Failed? ==> s.server.Crashed?)
    && Accepts(c.takes, |s.handed|)
    && Accepts(c.window, 1) && Accepts(c.window, |s.down|)
    && (c.wants ==> s.dropped == 0)
  }

  /** What the handler has taken from the broker, and what it has left in the log. */
  predicate LogFits(c: Config, s: State) {
    && B.Legal(s.log) && BR.FailureIsLast(s.log)
    && match s.server
       case Draining(box, _) =>
         !Leaked(s) && B.Live(s.log, c.topic, c.id) && box == B.Box(s.log, c.topic, c.id)
       case Returned(box, at) => at < |s.log| && s.log[at] == B.Consume(c.topic, c.id, box, [])
       case Crashed => !B.Live(s.log, c.topic, c.id)
       case _ => true
  }

  predicate Inv(c: Config, s: State) {
    Flows(c, s) && ControlFits(c, s) && LogFits(c, s)
  }

  /** The call begins on a broker as the server machine leaves it, over a transport that can hold a message. */
  predicate Begins(c: Config) {
    B.Legal(c.before) && BR.FailureIsLast(c.before) && Accepts(c.window, 1)
  }

  lemma ClientFlows(c: Config, s: State, step: Step)
    requires Flows(c, s) && Enabled(c, s, step) && (step.ClientReceive? || step.HandOver?)
    ensures Flows(c, Next(c, s, step))
  {
    var s' := Next(c, s, step);
    assert c.wants ==> s'.handed + Held(s') + s'.down == s.handed + Held(s) + s.down;
  }

  lemma OneMoreIsCarried(wants: bool, handed: seq<Value>, held: seq<Value>, down: seq<Value>, dropped: nat,
                         sent: seq<Value>, v: Value)
    requires Carried(wants, handed, held, down, dropped, sent)
    ensures Carried(wants, handed, held, down + [v], dropped, sent + [v])
  {
    assert handed + held + (down + [v]) == (handed + held + down) + [v];
  }

  lemma ServerFlows(c: Config, s: State)
    requires Flows(c, s) && Enabled(c, s, ServerSend)
    ensures Flows(c, Next(c, s, ServerSend))
  {
    var box, n := Box(s), s.server.next;
    OneMoreIsCarried(c.wants, s.handed, Held(s), s.down, s.dropped, box[..n], box[n]);
    assert box[..n + 1] == box[..n] + [box[n]];
  }

  lemma QuietStep(c: Config, s: State, step: Step)
    requires Enabled(c, s, step) && !step.ClientReceive? && !step.HandOver? && !step.ServerSend? && !step.ServerLock?
    requires Sent(s) <= |Box(s)|
    ensures var s' := Next(c, s, step);
      && Box(s') == Box(s) && Sent(s') == Sent(s) && Held(s') == Held(s)
      && s'.handed == s.handed && s'.down == s.down && s'.dropped == s.dropped
  {
  }

  lemma StepFlows(c: Config, s: State, step: Step)
    requires Flows(c, s) && Enabled(c, s, step)
    ensures Flows(c, Next(c, s, step))
  {
    match step
    case ClientReceive => ClientFlows(c, s, step);
    case HandOver => ClientFlows(c, s, step);
    case ServerSend => ServerFlows(c, s);
    case ServerLock => assert Box(s)[..0] == Box(Next(c, s, step))[..0];
    case _ => QuietStep(c, s, step);
  }

  lemma StepFitsLog(c: Config, s: State, step: Step)
    requires Inv(c, s) && Enabled(c, s, step)
    ensures LogFits(c, Next(c, s, step))
  {
    match step
    case ServerEnd =>
      var e := B.Consume(c.topic, c.id, Box(s), []);
      assert Box(s) + [] == Box(s);
      BR.LogExtends(s.log, e);
    case Other(e) => BR.LogExtends(s.log, e);
    case _ =>
  }

  lemma StepFitsControl(c: Config, s: State, step: Step)
    requires ControlFits(c, s) && Enabled(c, s, step)
    ensures ControlFits(c, Next(c, s, step))
  {
  }

  lemma StepKeepsInv(c: Config, s: State, step: Step)
    requires Inv(c, s) && Enabled(c, s, step)
    ensures Inv(c, Next(c, s, step))
  {
    StepFitsControl(c, s, step);
    StepFlows(c, s, step);
    StepFitsLog(c, s, step);
  }

  lemma {:induction false} RunKeepsInv(c: Config, s: State, steps: seq<Step>)
    requires Inv(c, s) && CanRun(c, s, steps)
    ensures Inv(c, Run(c, s, steps))
    decreases |steps|
  {
    if steps != [] {
      StepKeepsInv(c, s, steps[0]);
      RunKeepsInv(c, Next(c, s, steps[0]), steps[1..]);
    }
  }

  lemma Reached(c: Config, steps: seq<Step>)
    requires Begins(c) && CanRun(c, Init(c), steps)
    ensures Inv(c, Run(c, Init(c), steps))
  {
    RunKeepsInv(c, Init(c), steps);
  }

  // -------------------------------------------------------------- what the caller gets

  /** What the caller is handed is, in order, what waited in the mailbox when the handler took the lock. When the
      client has returned it is all of that - or all of that was received for a nil channel - and completes what this
      and all earlier Consume calls delivered: everything published to the topic since the registration. */
  lemma HandsOverTheMailbox(c: Config, steps: seq<Step>)
    requires Begins(c) && CanRun(c, Init(c), steps)
    ensures var s := Run(c, Init(c), steps);
      && s.handed <= Box(s)
      && (s.server.Draining? ==> B.Live(s.log, c.topic, c.id) && Box(s) == B.Box(s.log, c.topic, c.id))
      && (s.client.Finished? ==>
            && s.server.Returned? && s.server.at < |s.log|
            && s.log[s.server.at] == B.Consume(c.topic, c.id, Box(s), [])
            && (if c.wants then s.handed == Box(s) else s.handed == [] && s.dropped == |Box(s)|)
            && var log := s.log[..s.server.at];
               && B.Live(log, c.topic, c.id) && Box(s) == B.Box(log, c.topic, c.id)
               && var k := BR.Start(log, c.topic, c.id);
                  BR.Delivered(log, k, c.topic, c.id) + Box(s) == BR.PublishedTo(log, k, c.topic))
  {
    Reached(c, steps);
    var s := Run(c, Init(c), steps);
    if s.client.Finished? {
      assert Box(s)[..|Box(s)|] == Box(s);
      assert c.wants ==> s.handed == s.handed + Held(s) + s.down;
      TakenAtOnce(c, s.log, s.server.at, Box(s));
    }
  }

  /** The call fails, and with it the server, only where there is no such subscription. */
  lemma FailsWithoutSubscription(c: Config, steps: seq<Step>)
    requires Begins(c) && CanRun(c, Init(c), steps)
    ensures var s := Run(c, Init(c), steps);
      s.client.Failed? || s.server.Crashed? ==> s.server.Crashed? && !B.Live(s.log, c.topic, c.id)
  {
    Reached(c, steps);
  }

  lemma TakenAtOnce(c: Config, log: seq<B.Event>, at: nat, box: seq<Value>)
    requires B.Legal(log) && BR.FailureIsLast(log)
    requires at < |log| && log[at] == B.Consume(c.topic, c.id, box, [])
    ensures var log := log[..at];
      && B.Live(log, c.topic, c.id) && box == B.Box(log, c.topic, c.id)
      && var k := BR.Start(log, c.topic, c.id);
         BR.Delivered(log, k, c.topic, c.id) + box == BR.PublishedTo(log, k, c.topic)
  {
    BR.EachIsAllowed(log, at);
    var was := log[..at];
    var k := BR.Start(was, c.topic, c.id);
    forall j | 0 <= j < |was| ensures !BR.Fails(was[j]) { assert was[j] == log[j]; }
    BR.Delivery(was, c.topic, c.id);
    BR.NoFailureNoLoss(was, k, c.topic, c.id);
  }

  // -------------------------------------------------------------------- termination

  function ServerDone(s: State): nat {
    match s.server
    case Receiving => 0
    case Locking => 1
    case Draining(_, n) => 2 + n
    case Returned(box, _) => 3 + |box|
    case Crashed => 2
  }

  function ClientDone(s: State): nat {
    (match s.client case Requesting => 0 case Reading => 1 case Offering(_) => 2 case Finished => 2 case Failed => 2)
    + 2 * |s.handed| + s.dropped
  }

  /** The own steps of client and server that lead to `s`. */
  function Done(s: State): nat {
    ServerDone(s) + ClientDone(s)
  }

  function OwnSteps(steps: seq<Step>): nat {
    if steps == [] then 0 else (if steps[0].Other? then 0 else 1) + OwnSteps(steps[1..])
  }

  lemma DoneCounts(c: Config, s: State, step: Step)
    requires Sent(s) <= |Box(s)| && Enabled(c, s, step)
    ensures Done(Next(c, s, step)) == Done(s) + if step.Other? then 0 else 1
  {
  }

  lemma {:induction false} DoneCountsAll(c: Config, s: State, steps: seq<Step>)
    requires Inv(c, s) && CanRun(c, s, steps)
    ensures Done(Run(c, s, steps)) == Done(s) + OwnSteps(steps)
    decreases |steps|
  {
    if steps != [] {
      DoneCounts(c, s, steps[0]);
      StepKeepsInv(c, s, steps[0]);
      DoneCountsAll(c, Next(c, s, steps[0]), steps[1..]);
    }
  }

  lemma ReceivesWhatIsSent(c: Config, s: State)
    requires Flows(c, s)
    ensures |s.handed| + (if s.client.Offering? then 1 else 0) <= Sent(s)
    ensures c.wants || s.dropped <= Sent(s)
  {
    assert c.wants ==> |s.handed| + |Held(s)| + |s.down| == |Box(s)[..Sent(s)]|;
  }

  lemma DoneIsBounded(c: Config, s: State)
    requires Inv(c, s)
    ensures Done(s) <= 5 + 3 * |Box(s)|
  {
    ReceivesWhatIsSent(c, s);
    assert 2 * |s.handed| + s.dropped + (if s.client.Offering? then 1 else 0) <= 2 * |Box(s)|;
  }

  /** The call takes at most five own steps and three for each value it takes out, among any steps of others. */
  lemma Terminates(c: Config, steps: seq<Step>)
    requires Begins(c) && CanRun(c, Init(c), steps)
    ensures OwnSteps(steps) <= 5 + 3 * |Box(Run(c, Init(c), steps))|
  {
    Reached(c, steps);
    DoneCountsAll(c, Init(c), steps);
    DoneIsBounded(c, Run(c, Init(c), steps));
  }

  /** The call adds one event of its own to the broker's log, when its handler returns, and nothing else. */
  lemma {:induction false} OneEventOfItsOwn(c: Config, s: State, steps: seq<Step>)
    requires CanRun(c, s, steps)
    ensures var s' := Run(c, s, steps);
      && s.log <= s'.log
      && |s'.log| - (if s'.server.Returned? then 1 else 0)
         == |s.log| + |steps| - OwnSteps(steps) - (if s.server.Returned? then 1 else 0)
    decreases |steps|
  {
    if steps != [] {
      OneEventOfItsOwn(c, Next(c, s, steps[0]), steps[1..]);
    }
  }

  predicate Ended(s: State) {
    s.client.Finished? || s.client.Failed?
  }

  predicate BeforeLock(s: State) {
    s.server.Receiving? || s.server.Locking?
  }

  /** The server waits in Send, with brokersLock taken, for a client that waits for a channel that accepts no more. */
  predicate Stalled(c: Config, s: State) {
    && s.client.Offering? && !Accepts(c.takes, |s.handed| + 1)
    && s.server.Draining? && s.server.next < |s.server.box| && !Accepts(c.window, |s.down| + 1)
  }

  /** The client has returned, the server waits for a leaked lock, or the client for a channel that accepts no more,
      in the last case with the server stalled or done. */
  predicate Stopped(c: Config, s: State) {
    || Ended(s)
    || (s.server.Locking? && Leaked(s))
    || (s.client.Offering? && !Accepts(c.takes, |s.handed| + 1) && s.server.Returned?)
    || Stalled(c, s)
  }

  lemma NothingSentYet(c: Config, s: State)
    requires Inv(c, s) && (BeforeLock(s) || s.server.Crashed?)
    ensures s.down == [] && !s.client.Offering?
  {
    assert |Box(s)[..Sent(s)]| == 0;
    assert c.wants ==> |s.handed| + |Held(s)| + |s.down| == 0;
  }

  lemma GoesOn(c: Config, s: State) returns (step: Step)
    requires Inv(c, s) && !Stopped(c, s)
    ensures Enabled(c, s, step) && !step.Other?
  {
    match s.server
    case Receiving =>
      NothingSentYet(c, s);
      step := if s.client.Requesting? then ClientRequest else ServerReceive;
    case Locking => step := ServerLock;
    case Draining(box, next) =>
      step := if next >= |box| then ServerEnd else if Accepts(c.window, |s.down| + 1) then ServerSend
              else if s.client.Offering? then HandOver else ClientReceive;
    case Returned(_, _) =>
      step := if s.client.Offering? then HandOver else if s.down != [] then ClientReceive else ClientEnd;
    case Crashed =>
      NothingSentYet(c, s);
      step := ClientFail;
  }

  lemma NothingGoesOn(c: Config, s: State, step: Step)
    requires Inv(c, s) && Stopped(c, s) && !step.Other?
    ensures !Enabled(c, s, step)
  {
    if s.server.Locking? { NothingSentYet(c, s); }
  }

  /** No own step is left when the call has stopped in one of these four ways, and in no other state. */
  lemma StopsWhere(c: Config, s: State)
    requires Inv(c, s)
    ensures (forall step :: Enabled(c, s, step) ==> step.Other?) <==> Stopped(c, s)
  {
    if Stopped(c, s) {
      forall step | Enabled(c, s, step) ensures step.Other? {
        if !step.Other? { NothingGoesOn(c, s, step); }
      }
    } else {
      var step := GoesOn(c, s);
    }
  }

  // --------------------------------------------------------------- when the call returns

  ghost predicate Own(steps: seq<Step>) {
    forall n :: 0 <= n < |steps| ==> !steps[n].Other?
  }

  /** What the handler is going to find, or has found, in the mailbox if nobody else comes first. */
  function Waiting(c: Config, s: State): seq<Value> {
    if !BeforeLock(s) then Box(s) else if B.Live(s.log, c.topic, c.id) then B.Box(s.log, c.topic, c.id) else []
  }

  lemma OwnStepWaits(c: Config, s: State, step: Step)
    requires Enabled(c, s, step) && !step.Other?
    ensures Waiting(c, Next(c, s, step)) == Waiting(c, s)
    ensures BeforeLock(s) && Leaked(s) ==> BeforeLock(Next(c, s, step)) && Leaked(Next(c, s, step))
  {
  }

  lemma {:induction false} OwnRunWaits(c: Config, s: State, steps: seq<Step>)
    requires CanRun(c, s, steps) && Own(steps)
    ensures Waiting(c, Run(c, s, steps)) == Waiting(c, s)
    ensures BeforeLock(s) && Leaked(s) ==> BeforeLock(Run(c, s, steps)) && Leaked(Run(c, s, steps))
    decreases |steps|
  {
    if steps != [] {
      OwnStepWaits(c, s, steps[0]);
      OwnRunWaits(c, Next(c, s, steps[0]), steps[1..]);
    }
  }

  /** The call's own steps come to a stop. */
  lemma {:induction false} RunsToAStop(c: Config, s: State) returns (steps: seq<Step>)
    requires Inv(c, s)
    ensures Own(steps) && CanRun(c, s, steps) && Inv(c, Run(c, s, steps))
    ensures forall step :: Enabled(c, Run(c, s, steps), step) ==> step.Other?
    decreases 6 + 3 * |Waiting(c, s)| - Done(s)
  {
    if step :| Enabled(c, s, step) && !step.Other? {
      DoneCounts(c, s, step);
      OwnStepWaits(c, s, step);
      StepKeepsInv(c, s, step);
      DoneIsBounded(c, Next(c, s, step));
      var rest := RunsToAStop(c, Next(c, s, step));
      steps := [step] + rest;
      assert steps[1..] == rest;
    } else {
      steps := [];
    }
  }

  ghost predicate ReturnsBy(c: Config, s: State, steps: seq<Step>) {
    CanRun(c, s, steps) && Ended(Run(c, s, steps))
  }

  /** Left to itself, the call returns if and only if the server has the lock or can have it, and the caller passed
      nil or a channel that accepts all there is to hand over. */
  lemma ReturnsWhen(c: Config, s: State)
    requires Inv(c, s)
    ensures (exists steps :: Own(steps) && ReturnsBy(c, s, steps))
      <==> !(BeforeLock(s) && Leaked(s)) && (!c.wants || Accepts(c.takes, |Waiting(c, s)|))
  {
    if !(BeforeLock(s) && Leaked(s)) && (!c.wants || Accepts(c.takes, |Waiting(c, s)|)) {
      var steps := ReturnsAlone(c, s);
    } else {
      forall steps | Own(steps) ensures !ReturnsBy(c, s, steps) {
        if CanRun(c, s, steps) {
          RunKeepsInv(c, s, steps);
          OwnRunWaits(c, s, steps);
        }
      }
    }
  }

  lemma ReturnsAlone(c: Config, s: State) returns (steps: seq<Step>)
    requires Inv(c, s)
    requires !(BeforeLock(s) && Leaked(s)) && (!c.wants || Accepts(c.takes, |Waiting(c, s)|))
    ensures Own(steps) && ReturnsBy(c, s, steps)
  {
    steps := RunsToAStop(c, s);
    var s' := Run(c, s, steps);
    OwnRunWaits(c, s, steps);
    StopsWhere(c, s');
    LeakComesBefore(c, s, steps);
  }

  /** No own step leaks the lock. */
  lemma {:induction false} LeakComesBefore(c: Config, s: State, steps: seq<Step>)
    requires CanRun(c, s, steps) && Own(steps)
    ensures BeforeLock(Run(c, s, steps)) && Leaked(Run(c, s, steps)) ==> BeforeLock(s) && Leaked(s)
    decreases |steps|
  {
    if steps != [] {
      assert !steps[0].Other?;
      LeakComesBefore(c, Next(c, s, steps[0]), steps[1..]);
    }
  }

  /** Beyond help: the lock is leaked, or the channel accepts fewer messages than there are. */
  predicate Doomed(c: Config, s: State) {
    if BeforeLock(s) then Leaked(s) else c.wants && !Accepts(c.takes, |Box(s)|)
  }

  lemma {:induction false} DoomIsForEver(c: Config, s: State, steps: seq<Step>)
    requires CanRun(c, s, steps) && Doomed(c, s)
    ensures Doomed(c, Run(c, s, steps))
    decreases |steps|
  {
    if steps != [] {
      DoomIsForEver(c, Next(c, s, steps[0]), steps[1..]);
    }
  }

  /** Whatever others do meanwhile, the call can return if and only if it is not doomed. Before the handler has
      the lock, only a leaked lock dooms it, since others may empty the mailbox first. */
  lemma CanReturnUnlessDoomed(c: Config, s: State)
    requires Inv(c, s)
    ensures (exists steps :: ReturnsBy(c, s, steps)) <==> !Doomed(c, s)
  {
    if Doomed(c, s) {
      forall steps ensures !ReturnsBy(c, s, steps) {
        if CanRun(c, s, steps) {
          RunKeepsInv(c, s, steps);
          DoomIsForEver(c, s, steps);
        }
      }
    } else if BeforeLock(s) && B.Live(s.log, c.topic, c.id) {
      var steps := ReturnsWithHelp(c, s);
    } else {
      var steps := ReturnsAlone(c, s);
    }
  }

  /** Another Consume for the same subscription comes first. */
  lemma ReturnsWithHelp(c: Config, s: State) returns (steps: seq<Step>)
    requires Inv(c, s) && BeforeLock(s) && !Leaked(s) && B.Live(s.log, c.topic, c.id)
    ensures ReturnsBy(c, s, steps)
  {
    var e := B.Consume(c.topic, c.id, B.Box(s.log, c.topic, c.id), []);
    assert e.sent + e.lost == e.sent;
    StepKeepsInv(c, s, Other(e));
    BR.LogExtends(s.log, e);
    var rest := ReturnsAlone(c, Next(c, s, Other(e)));
    steps := [Other(e)] + rest;
    assert steps[1..] == rest;
  }

  // ----------------------------------------------------------- when the call stops the broker

  /** While the call is stalled nothing can happen any more, to anybody: the broker is frozen. */
  lemma StalledIsForEver(c: Config, s: State, step: Step)
    requires Inv(c, s) && Stalled(c, s)
    ensures !Enabled(c, s, step)
  {
  }

  ghost predicate StallsBy(c: Config, s: State, steps: seq<Step>) {
    CanRun(c, s, steps) && Stalled(c, Run(c, s, steps))
  }

  /** One message is with the client; the others that do not fit into the channel or the transport stay behind. */
  predicate TooMany(c: Config, n: nat) {
    c.wants && c.takes.Some? && c.window.Some? && n > c.takes.value + 1 + c.window.value
  }

  lemma StalledHasTooMany(c: Config, s: State)
    requires Inv(c, s) && Stalled(c, s)
    ensures TooMany(c, |Box(s)|)
  {
    assert |s.handed| + |Held(s)| + |s.down| == |Box(s)[..Sent(s)]|;
  }

  lemma TooManyStall(c: Config, s: State)
    requires Inv(c, s) && Stopped(c, s) && TooMany(c, |Waiting(c, s)|) && !(BeforeLock(s) && Leaked(s))
    ensures Stalled(c, s)
  {
    assert |s.handed| + |Held(s)| + |s.down| == |Box(s)[..Sent(s)]|;
  }

  /** A call that is left to itself stalls, and with it the broker, if and only if it gets the lock and more messages
      wait than channel, client and transport can hold. */
  lemma StallsWhen(c: Config, s: State)
    requires Inv(c, s) && BeforeLock(s)
    ensures (exists steps :: Own(steps) && StallsBy(c, s, steps)) <==> !Leaked(s) && TooMany(c, |Waiting(c, s)|)
  {
    if !Leaked(s) && TooMany(c, |Waiting(c, s)|) {
      var steps := RunsToAStop(c, s);
      OwnRunWaits(c, s, steps);
      LeakComesBefore(c, s, steps);
      StopsWhere(c, Run(c, s, steps));
      TooManyStall(c, Run(c, s, steps));
      assert StallsBy(c, s, steps);
    } else {
      forall steps | Own(steps) ensures !StallsBy(c, s, steps) {
        if StallsBy(c, s, steps) {
          RunKeepsInv(c, s, steps);
          OwnRunWaits(c, s, steps);
          StalledHasTooMany(c, Run(c, s, steps));
        }
      }
    }
  }
}
