/** client.Publish against the server's Publish loop, joined by two FIFO channels without stream errors. The
    caller supplies all of `values`, then closes the channel; `resp` accepts as many acknowledgements as fit into
    it or are received from it. Other clients' critical sections fall in between at will. */
module PublishStream {
  import opened Common
  import B = BrokerSpec
  import BR = BrokerRuns

  /** the response text, which is made of these two */
  datatype Ack = Ack(value: Value, topic: B.Topic)

  /** `takes` limits what `resp` accepts; `before` is what the broker has done when the stream begins. */
  datatype Config = Config(values: seq<Value>, topic: B.Topic, publisher: B.PublisherId, takes: Option<nat>,
                           before: seq<B.Event>)

  datatype Client =
    | Sending(next: nat)
    | Awaiting(next: nat)
    | Offering(next: nat, ack: Ack)
    | Closing // CloseSend done, reading up to EOF
    | Finished

  datatype Server =
    | Receiving
    | Got(value: Value)
    | Published(value: Value)
    | Returned

  /** `resp` is None when the caller passes a nil channel. */
  datatype State = State(
    client: Client,
    server: Server,
    up: seq<Value>,
    upClosed: bool,
    down: seq<Ack>,
    downClosed: bool,
    resp: Option<seq<Ack>>,
    log: seq<B.Event>)

  function Init(c: Config, wantsAcks: bool): State {
    State(Sending(0), Receiving, [], false, [], false, if wantsAcks then Some([]) else None, c.before)
  }

  datatype Step =
    | ClientSend
    | ClientClose
    | ClientReceive
    | HandOver
    | ClientDiscard
    | ClientEnd
    | ServerReceive
    | ServerPublish
    | ServerAck
    | ServerEnd
    | Other(e: B.Event)

  /** Some other handler's failed Send has left brokersLock taken. */
  predicate Leaked(s: State) {
    s.log != [] && BR.Fails(Last(s.log))
  }

  predicate Enabled(c: Config, s: State, step: Step) {
    match step
    case ClientSend => s.client.Sending? && s.client.next < |c.values|
    case ClientClose => s.client.Sending? && s.client.next >= |c.values|
    case ClientReceive => s.client.Awaiting? && s.down != []
    case HandOver => s.client.Offering? && s.resp.Some? && Accepts(c.takes, |s.resp.value| + 1)
    case ClientDiscard => s.client.Closing? && s.down != []
    case ClientEnd => s.client.Closing? && s.down == [] && s.downClosed
    case ServerReceive => s.server.Receiving? && s.up != []
    case ServerPublish => s.server.Got? && !Leaked(s)
    case ServerAck => s.server.Published?
    case ServerEnd => s.server.Receiving? && s.up == [] && s.upClosed
    case Other(e) =>
      && !Leaked(s) && B.Allowed(B.Replay(s.log), e)
      && !(e.Publish? && e.publisher == c.publisher)
  }

  function Next(c: Config, s: State, step: Step): State
    requires Enabled(c, s, step)
  {
    match step
    case ClientSend => s.(client := Awaiting(s.client.next), up := s.up + [c.values[s.client.next]])
    case ClientClose => s.(client := Closing, upClosed := true)
    case ClientReceive =>
      var client := if s.resp.Some? then Offering(s.client.next, s.down[0]) else Sending(s.client.next + 1);
      s.(client := client, down := s.down[1..])
    case HandOver => s.(client := Sending(s.client.next + 1), resp := Some(s.resp.value + [s.client.ack]))
    case ClientDiscard => s.(down := s.down[1..])
    case ClientEnd => s.(client := Finished)
    case ServerReceive => s.(server := Got(s.up[0]), up := s.up[1..])
    case ServerPublish =>
      s.(server := Published(s.server.value), log := s.log + [B.Publish(c.topic, s.server.value, c.publisher)])
    case ServerAck => s.(server := Receiving, down := s.down + [Ack(s.server.value, c.topic)])
    case ServerEnd => s.(server := Returned, downClosed := true)
    case Other(e) => s.(log := s.log + [e])
  }

  predicate CanRun(c: Config, s: State, steps: seq<Step>)
    decreases |steps|
  {
    steps == [] || (Enabled(c, s, steps[0]) && CanRun(c, Next(c, s, steps[0]), steps[1..]))
  }

  function Run(c: Config, s: State, steps: seq<Step>): State
    requires CanRun(c, s, steps)
    decreases |steps|
  {
    if steps == [] then s else Run(c, Next(c, s, steps[0]), steps[1..])
  }

  // ----------------------------------------------------------------- the invariant

  function Acks(c: Config, n: nat): seq<Ack>
    requires n <= |c.values|
  {
    seq(n, i requires 0 <= i < n => Ack(c.values[i], c.topic))
  }

  /** the number of acknowledgements the client has received */
  function Acked(c: Config, s: State): nat {
    match s.client
    case Sending(n) => n
    case Awaiting(n) => n
    case Offering(n, _) => n + 1
    case _ => |c.values|
  }

  function Held(s: State): seq<Ack> {
    if s.client.Offering? then [s.client.ack] else []
  }

  /** the values of this stream that are in the broker's log */
  function Entered(c: Config, s: State): seq<Value> {
    BR.PublishedBy(s.log, |c.before|, c.topic, c.publisher)
  }

  predicate Quiet(s: State) {
    s.up == [] && s.down == []
  }

  predicate InFlight(c: Config, s: State, n: nat)
    requires n < |c.values|
  {
    var v := c.values[n];
    || (s.up == [v] && s.down == [] && s.server.Receiving? && Entered(c, s) == c.values[..n])
    || (Quiet(s) && s.server == Got(v) && Entered(c, s) == c.values[..n])
    || (Quiet(s) && s.server == Published(v) && Entered(c, s) == c.values[..n + 1])
    || (s.up == [] && s.down == [Ack(v, c.topic)] && s.server.Receiving? && Entered(c, s) == c.values[..n + 1])
  }

  predicate Inv(c: Config, s: State) {
    && c.before <= s.log
    && (B.Legal(c.before) ==> B.Legal(s.log))
    && (BR.FailureIsLast(c.before) ==> BR.FailureIsLast(s.log))
    && Acked(c, s) <= |c.values|
    && (s.resp.Some? ==> s.resp.value + Held(s) == Acks(c, Acked(c, s)) && Accepts(c.takes, |s.resp.value|))
    && (s.upClosed <==> s.client.Closing? || s.client.Finished?)
    && (s.downClosed <==> s.server.Returned?)
    && match s.client
       case Sending(n) => Quiet(s) && s.server.Receiving? && Entered(c, s) == c.values[..n]
       case Awaiting(n) => n < |c.values| && InFlight(c, s, n)
       case Offering(n, _) =>
         s.resp.Some? && Quiet(s) && s.server.Receiving? && n < |c.values| && Entered(c, s) == c.values[..n + 1]
       case Closing => Quiet(s) && (s.server.Receiving? || s.server.Returned?) && Entered(c, s) == c.values
       case Finished => Quiet(s) && s.server.Returned? && Entered(c, s) == c.values
  }

  lemma LogStep(c: Config, s: State, e: B.Event)
    requires Inv(c, s) && B.Allowed(B.Replay(s.log), e) && !Leaked(s)
    ensures var log := s.log + [e];
      && c.before <= log && (B.Legal(c.before) ==> B.Legal(log))
      && (BR.FailureIsLast(c.before) ==> BR.FailureIsLast(log))
      && BR.PublishedBy(log, |c.before|, c.topic, c.publisher)
         == Entered(c, s) + if e.Publish? && e.publisher == c.publisher then BR.PublishedIn(e, c.topic) else []
  {
    assert Front(s.log + [e]) == s.log;
    if BR.FailureIsLast(s.log) {
      forall j | 0 <= j < |s.log| ensures !BR.Fails((s.log + [e])[j]) {
        assert (s.log + [e])[j] == s.log[j];
      }
    }
  }

  lemma LogStepKeepsInv(c: Config, s: State, step: Step)
    requires Inv(c, s) && Enabled(c, s, step) && (step.ServerPublish? || step.Other?)
    ensures Inv(c, Next(c, s, step))
  {
    match step
    case ServerPublish => LogStep(c, s, B.Publish(c.topic, s.server.value, c.publisher));
    case Other(e) =>
      LogStep(c, s, e);
      assert Entered(c, s) + [] == Entered(c, s);
  }

  lemma AckStepKeepsInv(c: Config, s: State, step: Step)
    requires Inv(c, s) && Enabled(c, s, step) && (step.ClientReceive? || step.HandOver?)
    ensures Inv(c, Next(c, s, step))
  {
    var s' := Next(c, s, step);
    if step.ClientReceive? {
      assert Acks(c, s.client.next + 1) == Acks(c, s.client.next) + [s.down[0]];
      assert s.resp.Some? ==> s.resp.value == s.resp.value + Held(s);
    } else {
      assert s'.resp.value + Held(s') == s.resp.value + Held(s);
    }
  }

  lemma StepKeepsInv(c: Config, s: State, step: Step)
    requires Inv(c, s) && Enabled(c, s, step)
    ensures Inv(c, Next(c, s, step))
  {
    match step
    case ServerPublish => LogStepKeepsInv(c, s, step);
    case Other(_) => LogStepKeepsInv(c, s, step);
    case ClientReceive => AckStepKeepsInv(c, s, step);
    case HandOver => AckStepKeepsInv(c, s, step);
    case ClientClose => assert c.values[..|c.values|] == c.values;
    case _ =>
  }

  lemma {:induction false} RunKeepsInv(c: Config, s: State, steps: seq<Step>)
    requires Inv(c, s) && CanRun(c, s, steps)
    ensures Inv(c, Run(c, s, steps))
    decreases |steps|
  {
    if steps != [] {
      StepKeepsInv(c, s, steps[0]);
      RunKeepsInv(c, Next(c, s, steps[0]), steps[1..]);
    }
  }

  lemma Reached(c: Config, wantsAcks: bool, steps: seq<Step>)
    requires CanRun(c, Init(c, wantsAcks), steps)
    ensures Inv(c, Run(c, Init(c, wantsAcks), steps))
  {
    RunKeepsInv(c, Init(c, wantsAcks), steps);
  }

  // ---------------------------------------------------------------------- lockstep

  /** requests and acknowledgements on their way, counting the one the server works on */
  function Outstanding(s: State): nat {
    |s.up| + |s.down| + if s.server.Got? || s.server.Published? then 1 else 0
  }

  /** At most one request is outstanding, acknowledgement number k is for value number k, the client has passed on
      exactly the acknowledgements received, but for the one it may be offering, and no value is acknowledged before
      it is in the log. */
  lemma Lockstep(c: Config, wantsAcks: bool, steps: seq<Step>)
    requires CanRun(c, Init(c, wantsAcks), steps)
    ensures var s := Run(c, Init(c, wantsAcks), steps); var n := Acked(c, s);
      && Outstanding(s) <= 1
      && n <= |c.values| && (s.resp.Some? ==> s.resp.value + Held(s) == Acks(c, n))
      && (s.down != [] ==> n < |c.values| && s.down == [Ack(c.values[n], c.topic)])
      && n + |s.down| <= |Entered(c, s)| <= n + Outstanding(s)
      && Entered(c, s) <= c.values
  {
    Reached(c, wantsAcks, steps);
  }

  /** When the client returns, every value is in the log once and in order, and every one was acknowledged. */
  lemma AllAcknowledged(c: Config, wantsAcks: bool, steps: seq<Step>)
    requires CanRun(c, Init(c, wantsAcks), steps) && Run(c, Init(c, wantsAcks), steps).client.Finished?
    ensures var s := Run(c, Init(c, wantsAcks), steps);
      && Entered(c, s) == c.values && s.server.Returned?
      && (s.resp.Some? ==> s.resp.value == Acks(c, |c.values|))
  {
    Reached(c, wantsAcks, steps);
  }

  // -------------------------------------------------------------------- termination

  /** The steps of client and server that are still to come, at most. */
  function Rank(c: Config, s: State): nat {
    (match s.client
     case Sending(n) => if n <= |c.values| then 6 * (|c.values| - n) + 3 else 0
     case Awaiting(n) => if n < |c.values| then 6 * (|c.values| - n - 1) + 5 else 0
     case Offering(n, _) => if n < |c.values| then 6 * (|c.values| - n - 1) + 4 else 0
     case Closing => 1
     case Finished => 0)
    + (if s.client.Awaiting? then
         if s.down != [] then 0 else if s.server.Published? then 1 else if s.server.Got? then 2 else 3
       else if s.server.Returned? then 0
       else if s.client.Closing? then 1 else 0)
  }

  lemma RankFalls(c: Config, s: State, step: Step)
    requires Inv(c, s) && Enabled(c, s, step)
    ensures if step.Other? then Rank(c, Next(c, s, step)) == Rank(c, s) else Rank(c, Next(c, s, step)) < Rank(c, s)
  {
  }

  function OwnSteps(steps: seq<Step>): nat {
    if steps == [] then 0 else (if steps[0].Other? then 0 else 1) + OwnSteps(steps[1..])
  }

  lemma {:induction false} RankBoundsSteps(c: Config, s: State, steps: seq<Step>)
    requires Inv(c, s) && CanRun(c, s, steps)
    ensures OwnSteps(steps) + Rank(c, Run(c, s, steps)) <= Rank(c, s)
    decreases |steps|
  {
    if steps != [] {
      RankFalls(c, s, steps[0]);
      StepKeepsInv(c, s, steps[0]);
      RankBoundsSteps(c, Next(c, s, steps[0]), steps[1..]);
    }
  }

  /** The exchange takes at most six steps a value and three more. */
  lemma Terminates(c: Config, wantsAcks: bool, steps: seq<Step>)
    requires CanRun(c, Init(c, wantsAcks), steps)
    ensures OwnSteps(steps) <= 6 * |c.values| + 3
  {
    RankBoundsSteps(c, Init(c, wantsAcks), steps);
  }

  /** Both sides are done, or brokersLock was leaked while the server had a value in hand, or `resp` has accepted all
      the acknowledgements it ever will and the client has another. */
  predicate Stopped(c: Config, s: State) {
    || s.client.Finished?
    || (s.server.Got? && Leaked(s))
    || (s.client.Offering? && c.takes == Some(s.client.next))
  }

  lemma GoesOn(c: Config, s: State) returns (step: Step)
    requires Inv(c, s) && !Stopped(c, s)
    ensures Enabled(c, s, step) && !step.Other?
  {
    match s.client
    case Sending(n) => step := if n < |c.values| then ClientSend else ClientClose;
    case Awaiting(n) =>
      step := if s.up != [] then ServerReceive else if s.down != [] then ClientReceive
              else if s.server.Got? then ServerPublish else ServerAck;
    case Offering(n, _) =>
      assert |s.resp.value + Held(s)| == n + 1;
      step := HandOver;
    case Closing => step := if s.server.Receiving? then ServerEnd else ClientEnd;
  }

  lemma NothingGoesOn(c: Config, s: State, step: Step)
    requires Inv(c, s) && Stopped(c, s) && !step.Other?
    ensures !Enabled(c, s, step)
  {
    if s.client.Offering? {
      assert |s.resp.value + Held(s)| == s.client.next + 1;
    }
  }

  /** The exchange comes to a stop in these three ways, and in no other state. */
  lemma StopsOnlyAtTheEnd(c: Config, wantsAcks: bool, steps: seq<Step>)
    requires CanRun(c, Init(c, wantsAcks), steps)
    ensures var s := Run(c, Init(c, wantsAcks), steps);
      (forall step :: Enabled(c, s, step) ==> step.Other?) <==> Stopped(c, s)
  {
    Reached(c, wantsAcks, steps);
    var s := Run(c, Init(c, wantsAcks), steps);
    if Stopped(c, s) {
      forall step | Enabled(c, s, step) ensures step.Other? {
        if !step.Other? { NothingGoesOn(c, s, step); }
      }
    } else {
      var step := GoesOn(c, s);
    }
  }

  /** Apart from what others do, the broker's log grows by the values of this stream, each published once to its
      topic, and by nothing else. */
  lemma {:induction false} LogIsAccountedFor(c: Config, s: State, steps: seq<Step>)
    requires CanRun(c, s, steps) && |c.before| <= |s.log|
    ensures var s' := Run(c, s, steps);
      && s.log <= s'.log
      && |s'.log| - |Entered(c, s')| == |s.log| - |Entered(c, s)| + |steps| - OwnSteps(steps)
    decreases |steps|
  {
    if steps != [] {
      var s1 := Next(c, s, steps[0]);
      if s1.log != s.log {
        assert Front(s1.log) == s.log;
      }
      LogIsAccountedFor(c, s1, steps[1..]);
    }
  }

  // ----------------------------------------------------------- what an acknowledgement means

  lemma OccursInWhole(at: seq<nat>, a: seq<Value>, prefix: seq<Value>, b: seq<Value>)
    requires BR.Embeds(at, a, b)
    ensures BR.OccursIn(a, prefix + b)
  {
    var at' := seq(|at|, i requires 0 <= i < |at| => |prefix| + at[i]);
    assert BR.Embeds(at', a, prefix + b);
  }

  /** What this stream had got into the log before the subscription was registered. */
  function Missed(c: Config, s: State, id: B.SubscriptionId): seq<Value>
    requires B.Live(s.log, c.topic, id)
  {
    BR.PublishedBy(s.log[..BR.Start(s.log, c.topic, id)], |c.before|, c.topic, c.publisher)
  }

  /** Every subscription of the topic, whenever it was registered, has had put into its mailbox every value of the
      stream that is in the log - hence every value acknowledged so far - in the order of the stream, but for those
      that were in the log before it was registered. A subscription older than the stream missed none. */
  lemma AckMeansEverySubscriberHasIt(c: Config, wantsAcks: bool, steps: seq<Step>, id: B.SubscriptionId)
    requires CanRun(c, Init(c, wantsAcks), steps) && B.Legal(c.before)
    requires B.Live(Run(c, Init(c, wantsAcks), steps).log, c.topic, id)
    ensures var s := Run(c, Init(c, wantsAcks), steps); var missed := Missed(c, s, id);
      && missed <= Entered(c, s)
      && BR.OccursIn(Entered(c, s)[|missed|..], BR.History(s.log, c.topic, id))
      && (BR.Start(s.log, c.topic, id) <= |c.before| ==> missed == [])
      && Acked(c, s) + |s.down| <= |Entered(c, s)| && Entered(c, s) <= c.values
  {
    Reached(c, wantsAcks, steps);
    var s := Run(c, Init(c, wantsAcks), steps);
    if BR.Start(s.log, c.topic, id) <= |c.before| {
      OlderSubscriberHasIt(c, s, id);
    } else {
      YoungerSubscriberHasTheRest(c, s, id);
    }
  }

  lemma YoungerSubscriberHasTheRest(c: Config, s: State, id: B.SubscriptionId)
    requires Inv(c, s) && B.Legal(c.before)
    requires B.Live(s.log, c.topic, id) && BR.Start(s.log, c.topic, id) >= |c.before|
    ensures var missed := Missed(c, s, id);
      missed <= Entered(c, s) && BR.OccursIn(Entered(c, s)[|missed|..], BR.History(s.log, c.topic, id))
  {
    BR.PublishedBySplits(s.log, |c.before|, BR.Start(s.log, c.topic, id), c.topic, c.publisher);
    BR.PublisherOrderIsKept(s.log, c.topic, id, c.publisher);
  }

  lemma OlderSubscriberHasIt(c: Config, s: State, id: B.SubscriptionId)
    requires Inv(c, s) && B.Legal(c.before)
    requires B.Live(s.log, c.topic, id) && BR.Start(s.log, c.topic, id) <= |c.before|
    ensures BR.OccursIn(Entered(c, s), BR.History(s.log, c.topic, id))
  {
    var k, n := BR.Start(s.log, c.topic, id), |c.before|;
    BR.Delivery(s.log, c.topic, id);
    BR.PublishedSplits(s.log, k, n, c.topic);
    BR.PublisherEmbeds(s.log, n, c.topic, c.publisher);
    OccursInWhole(BR.Places(s.log, n, c.topic, c.publisher), Entered(c, s),
                  BR.PublishedTo(s.log[..n], k, c.topic), BR.PublishedTo(s.log, n, c.topic));
  }

  /** All of that has been sent to the subscriber or waits for it, but for the one value that a failed Send loses,
      which leaks brokersLock. */
  lemma AckedIsSentOrWaiting(c: Config, wantsAcks: bool, steps: seq<Step>, id: B.SubscriptionId)
    requires CanRun(c, Init(c, wantsAcks), steps) && B.Legal(c.before) && BR.FailureIsLast(c.before)
    requires B.Live(Run(c, Init(c, wantsAcks), steps).log, c.topic, id)
    ensures var s := Run(c, Init(c, wantsAcks), steps); var missed := Missed(c, s, id);
      var k := BR.Start(s.log, c.topic, id); var lost := BR.Lost(s.log, k, c.topic, id);
      var has := BR.Delivered(s.log, k, c.topic, id) + lost + B.Box(s.log, c.topic, id);
      && missed <= Entered(c, s) && BR.OccursIn(Entered(c, s)[|missed|..], has)
      && |lost| <= 1 && (lost != [] ==> Leaked(s))
      && (!Leaked(s) ==> has == BR.Delivered(s.log, k, c.topic, id) + B.Box(s.log, c.topic, id))
  {
    Reached(c, wantsAcks, steps);
    AckMeansEverySubscriberHasIt(c, wantsAcks, steps, id);
    var s := Run(c, Init(c, wantsAcks), steps);
    var k := BR.Start(s.log, c.topic, id);
    BR.OnlyTheLastIsLost(s.log, k, c.topic, id);
    assert BR.Delivered(s.log, k, c.topic, id) + [] == BR.Delivered(s.log, k, c.topic, id);
  }

  lemma RunCons(c: Config, s: State, step: Step, rest: seq<Step>)
    requires Enabled(c, s, step) && CanRun(c, Next(c, s, step), rest)
    ensures CanRun(c, s, [step] + rest) && Run(c, s, [step] + rest) == Run(c, Next(c, s, step), rest)
  {
    assert ([step] + rest)[1..] == rest;
  }

  function OneSubscriber(t: B.Topic, id: B.SubscriptionId): seq<B.Event> {
    [B.CreateTopic(t, true)] + [B.AddSubscriber(t, id, true)]
  }

  lemma OneSubscriberIsLegal(t: B.Topic, id: B.SubscriptionId)
    ensures var log := OneSubscriber(t, id);
      B.Legal(log) && BR.FailureIsLast(log) && !BR.Fails(Last(log)) && B.Replay(log) == map[t := map[id := []]]
  {
    BR.LogExtends([], B.CreateTopic(t, true));
    assert [] + [B.CreateTopic(t, true)] == [B.CreateTopic(t, true)];
    BR.LogExtends([B.CreateTopic(t, true)], B.AddSubscriber(t, id, true));
  }

  /** the state after a stream's one value has been acknowledged, if nobody else did anything meanwhile */
  function OneAcked(c: Config): State
    requires |c.values| == 1
  {
    var v := c.values[0];
    State(Sending(1), Receiving, [], false, [], false, Some([Ack(v, c.topic)]),
          c.before + [B.Publish(c.topic, v, c.publisher)])
  }

  lemma OneIsAcked(c: Config, rest: seq<Step>) returns (steps: seq<Step>)
    requires |c.values| == 1 && c.takes == None && !Leaked(Init(c, true)) && CanRun(c, OneAcked(c), rest)
    ensures CanRun(c, Init(c, true), steps) && Run(c, Init(c, true), steps) == Run(c, OneAcked(c), rest)
  {
    var s0 := Init(c, true);
    var s1 := Next(c, s0, ClientSend);
    var s2 := Next(c, s1, ServerReceive);
    var s3 := Next(c, s2, ServerPublish);
    var s4 := Next(c, s3, ServerAck);
    var s5 := Next(c, s4, ClientReceive);
    assert s2.up == [] && s4.down == [s5.client.ack] && s5.down == [] && [] + [s5.client.ack] == [s5.client.ack];
    assert Next(c, s5, HandOver) == OneAcked(c);
    RunCons(c, s5, HandOver, rest);
    steps := [HandOver] + rest;
    RunCons(c, s4, ClientReceive, steps);
    steps := [ClientReceive] + steps;
    RunCons(c, s3, ServerAck, steps);
    steps := [ServerAck] + steps;
    RunCons(c, s2, ServerPublish, steps);
    steps := [ServerPublish] + steps;
    RunCons(c, s1, ServerReceive, steps);
    steps := [ServerReceive] + steps;
    RunCons(c, s0, ClientSend, steps);
    steps := [ClientSend] + steps;
  }

  /** That exception is real: a value can be acknowledged, and then be lost to the only subscriber there is. */
  lemma AckedCanBeLost(t: B.Topic, id: B.SubscriptionId, v: Value, p: B.PublisherId) returns (steps: seq<Step>)
    ensures var c := Config([v], t, p, None, OneSubscriber(t, id));
      && B.Legal(c.before) && BR.FailureIsLast(c.before) && CanRun(c, Init(c, true), steps)
      && var s := Run(c, Init(c, true), steps);
         && s.resp == Some([Ack(v, t)]) && B.Live(s.log, t, id) && Missed(c, s, id) == []
         && BR.Delivered(s.log, BR.Start(s.log, t, id), t, id) + B.Box(s.log, t, id) == []
  {
    var c := Config([v], t, p, None, OneSubscriber(t, id));
    var failed := B.Consume(t, id, [], [v]);
    OneSubscriberIsLegal(t, id);
    BR.LogExtends(c.before, B.Publish(t, v, p));
    assert [] + [v] == [v];
    RunCons(c, OneAcked(c), Other(failed), []);
    steps := OneIsAcked(c, [Other(failed)] + []);
    OnlyLost(t, id, v, p);
  }

  lemma OnlyLost(t: B.Topic, id: B.SubscriptionId, v: Value, p: B.PublisherId)
    ensures var log := OneSubscriber(t, id) + [B.Publish(t, v, p)] + [B.Consume(t, id, [], [v])];
      && B.Live(log, t, id) && BR.Start(log, t, id) == 2 && B.Box(log, t, id) == []
      && BR.Delivered(log, 2, t, id) == [] && BR.PublishedBy(log[..2], 2, t, p) == []
  {
    OneSubscriberIsLegal(t, id);
    var before := OneSubscriber(t, id);
    var log' := before + [B.Publish(t, v, p)];
    var log := log' + [B.Consume(t, id, [], [v])];
    assert Front(log) == log' && Front(log') == before && log[..2] == before;
    assert BR.Start(before, t, id) == 2 && BR.Delivered(before, 2, t, id) == [];
    assert B.Replay(log') == B.Published(B.Replay(before), t, v);
    assert BR.Start(log', t, id) == 2 && BR.Delivered(log', 2, t, id) == [];
    assert B.Replay(log) == B.Popped(B.Replay(log'), t, id, 1);
  }
}
