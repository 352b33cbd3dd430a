/** What holds of every run of the broker, however the critical sections of its
    clients interleave. A run is the log of those sections, in lock order. */
module BrokerRuns {
  import opened Common
  import opened BrokerSpec

  /** The index in `log` just after the registration that the live subscription (t, id) stems from. */
  function Start(log: seq<Event>, t: Topic, id: SubscriptionId): (k: nat)
    requires Live(log, t, id)
    ensures k <= |log|
  {
    match Last(log)
    case AddSubscriber(t', id', _) => if t' == t && id' == id then |log| else Start(Front(log), t, id)
    case _ => Start(Front(log), t, id)
  }

  function PublishedIn(e: Event, t: Topic): seq<Value> {
    if e.Publish? && e.topic == t then [e.value] else []
  }

  function SentIn(e: Event, t: Topic, id: SubscriptionId): seq<Value> {
    if e.Consume? && e.topic == t && e.id == id then e.sent else []
  }

  function LostIn(e: Event, t: Topic, id: SubscriptionId): seq<Value> {
    if e.Consume? && e.topic == t && e.id == id then e.lost else []
  }

  /** The values published to `t` by log[since..], in order. */
  function PublishedTo(log: seq<Event>, since: nat, t: Topic): seq<Value> {
    if |log| <= since then [] else PublishedTo(Front(log), since, t) + PublishedIn(Last(log), t)
  }

  /** Those of them that came from publisher `p`. */
  function PublishedBy(log: seq<Event>, since: nat, t: Topic, p: PublisherId): seq<Value> {
    if |log| <= since then []
    else PublishedBy(Front(log), since, t, p) +
         if Last(log).Publish? && Last(log).publisher == p then PublishedIn(Last(log), t) else []
  }

  /** What the Consume calls in log[since..] sent to (t, id). */
  function Delivered(log: seq<Event>, since: nat, t: Topic, id: SubscriptionId): seq<Value> {
    if |log| <= since then [] else Delivered(Front(log), since, t, id) + SentIn(Last(log), t, id)
  }

  /** What they popped but failed to send. */
  function Lost(log: seq<Event>, since: nat, t: Topic, id: SubscriptionId): seq<Value> {
    if |log| <= since then [] else Lost(Front(log), since, t, id) + LostIn(Last(log), t, id)
  }

  /** What they popped, sent or not, in order. */
  function Taken(log: seq<Event>, since: nat, t: Topic, id: SubscriptionId): seq<Value> {
    if |log| <= since then []
    else Taken(Front(log), since, t, id) + (SentIn(Last(log), t, id) + LostIn(Last(log), t, id))
  }

  /** Everything that was put into the mailbox of a live subscription: what was popped for it, sent or not, then what
      waits for it. */
  function History(log: seq<Event>, t: Topic, id: SubscriptionId): seq<Value>
    requires Live(log, t, id)
  {
    Taken(log, Start(log, t, id), t, id) + Box(log, t, id)
  }

  predicate Fails(e: Event) {
    e.Consume? && e.lost != []
  }

  /** A failed Send leaves brokersLock taken, so nothing follows it. */
  predicate FailureIsLast(log: seq<Event>) {
    forall i :: 0 <= i < |log| - 1 ==> !Fails(log[i])
  }

  lemma LogExtends(log: seq<Event>, e: Event)
    requires Legal(log) && FailureIsLast(log) && !(log != [] && Fails(Last(log)))
    requires Allowed(Replay(log), e)
    ensures Legal(log + [e]) && FailureIsLast(log + [e]) && Last(log + [e]) == e
    ensures Replay(log + [e]) == Apply(Replay(log), e)
  {
    assert Front(log + [e]) == log;
    forall j | 0 <= j < |log| ensures !Fails((log + [e])[j]) {
      assert (log + [e])[j] == log[j];
    }
  }

  /** Each prefix of a legal log is one, and permits the event that follows it. */
  lemma {:induction false} EachIsAllowed(log: seq<Event>, n: nat)
    requires Legal(log) && n < |log|
    ensures Legal(log[..n]) && Allowed(Replay(log[..n]), log[n])
  {
    if n == |log| - 1 {
      assert log[..n] == Front(log);
    } else {
      EachIsAllowed(Front(log), n);
      assert Front(log)[..n] == log[..n];
    }
  }

  // ---------------------------------------------------------------- registration

  /** Does `e` end or replace the subscription (t, id)? */
  predicate Ends(e: Event, t: Topic, id: SubscriptionId) {
    || e == RemoveTopic(t)
    || e == RemoveSubscriber(t, id)
    || (e.AddSubscriber? && e.topic == t && e.id == id)
  }

  /** `Start` is what its name says: the last registration, on an existing topic, with
      nothing after it that ends or replaces the subscription. */
  lemma {:induction false} StartIsTheLastRegistration(log: seq<Event>, t: Topic, id: SubscriptionId)
    requires Live(log, t, id)
    ensures var k := Start(log, t, id);
      && k > 0 && log[k - 1].AddSubscriber? && log[k - 1].topic == t && log[k - 1].id == id
      && t in Replay(log[..k - 1])
      && forall i :: k <= i < |log| ==> !Ends(log[i], t, id)
  {
    var e := Last(log);
    if e.AddSubscriber? && e.topic == t && e.id == id {
      assert log[..|log| - 1] == Front(log);
    } else {
      StartIsTheLastRegistration(Front(log), t, id);
      var k := Start(log, t, id);
      assert Front(log)[..k - 1] == log[..k - 1];
      assert forall i :: k <= i < |log| - 1 ==> log[i] == Front(log)[i];
    }
  }

  /** And the other way round: a registration on an existing topic lasts until something ends or replaces it. */
  lemma {:induction false} RegistrationLasts(log: seq<Event>, k: nat, t: Topic, id: SubscriptionId)
    requires k < |log| && log[k].AddSubscriber? && log[k].topic == t && log[k].id == id && t in Replay(log[..k])
    requires forall i :: k < i < |log| ==> !Ends(log[i], t, id)
    ensures Live(log, t, id) && Start(log, t, id) == k + 1
  {
    if k == |log| - 1 {
      assert log[..k] == Front(log);
    } else {
      assert Front(log)[..k] == log[..k] && Front(log)[k] == log[k];
      assert forall i :: k < i < |log| - 1 ==> Front(log)[i] == log[i];
      RegistrationLasts(Front(log), k, t, id);
      assert !Ends(Last(log), t, id);
    }
  }

  /** log[k] creates `t`, and nothing after it removes `t`. */
  predicate CreatedAt(log: seq<Event>, k: nat, t: Topic)
    requires k < |log|
  {
    log[k].CreateTopic? && log[k].topic == t && forall i :: k < i < |log| ==> log[i] != RemoveTopic(t)
  }

  lemma {:induction false} CreationLasts(log: seq<Event>, k: nat, t: Topic)
    requires k < |log| && CreatedAt(log, k, t)
    ensures t in Replay(log)
  {
    if k < |log| - 1 {
      assert Front(log)[k] == log[k] && forall i :: k < i < |log| - 1 ==> Front(log)[i] == log[i];
      CreationLasts(Front(log), k, t);
      assert Last(log) != RemoveTopic(t);
    }
  }

  lemma {:induction false} TopicWasCreated(log: seq<Event>, t: Topic) returns (k: nat)
    requires t in Replay(log)
    ensures k < |log| && CreatedAt(log, k, t)
  {
    var e := Last(log);
    if e.CreateTopic? && e.topic == t {
      k := |log| - 1;
    } else {
      k := TopicWasCreated(Front(log), t);
      assert Front(log)[k] == log[k] && forall i :: k < i < |log| - 1 ==> Front(log)[i] == log[i];
      assert e != RemoveTopic(t);
    }
  }

  /** A topic exists if and only if it was created and not removed since. */
  lemma TopicExistsWhen(log: seq<Event>, t: Topic)
    ensures t in Replay(log) <==> exists k :: 0 <= k < |log| && CreatedAt(log, k, t)
  {
    if t in Replay(log) {
      var k := TopicWasCreated(log, t);
    } else if k :| 0 <= k < |log| && CreatedAt(log, k, t) {
      CreationLasts(log, k, t);
    }
  }

  /** CreateTopic reports success if and only if the topic did not exist, AddSubscriber if and only if it did. */
  lemma SuccessIsReported(log: seq<Event>, n: nat)
    requires Legal(log) && n < |log| && (log[n].CreateTopic? || log[n].AddSubscriber?)
    ensures var t := log[n].topic; var exists_ := exists k :: 0 <= k < n && CreatedAt(log[..n], k, t);
      log[n].ok <==> if log[n].CreateTopic? then !exists_ else exists_
  {
    EachIsAllowed(log, n);
    TopicExistsWhen(log[..n], log[n].topic);
  }

  lemma FrontIsTaken(b: Mailboxes, e: Event)
    requires Allowed(b, e) && e.Consume?
    ensures var b' := Apply(b, e);
      && Has(b, e.topic, e.id) && Has(b', e.topic, e.id) && |e.lost| <= 1
      && e.sent + e.lost + b'[e.topic][e.id] == b[e.topic][e.id]
      && (e.lost == [] ==> b'[e.topic][e.id] == [])
  {
    var box, out := b[e.topic][e.id], e.sent + e.lost;
    assert box == out + box[|out|..];
  }

  /** What Consume takes is the front of the mailbox, in order: all of it, which leaves the mailbox empty, or what
      comes before the one value that is lost, and that value. */
  lemma ConsumeTakesTheFront(log: seq<Event>, n: nat, t: Topic, id: SubscriptionId, sent: seq<Value>, lost: seq<Value>)
    requires Legal(log) && n < |log| && log[n] == Consume(t, id, sent, lost)
    ensures Live(log[..n], t, id) && Live(log[..n + 1], t, id)
    ensures sent + lost + Box(log[..n + 1], t, id) == Box(log[..n], t, id)
    ensures |lost| <= 1 && (lost == [] ==> Box(log[..n + 1], t, id) == [])
  {
    EachIsAllowed(log, n);
    FrontIsTaken(Replay(log[..n]), log[n]);
    assert Front(log[..n + 1]) == log[..n] && Last(log[..n + 1]) == log[n];
  }

  // ------------------------------------------------------------------- delivery

  /** What a section takes out of a mailbox it does not end, and leaves in it, is what was there and
      what it publishes. */
  lemma MailboxStep(b: Mailboxes, e: Event, t: Topic, id: SubscriptionId)
    requires Allowed(b, e) && Has(Apply(b, e), t, id) && !Ends(e, t, id)
    ensures Has(b, t, id)
    ensures (SentIn(e, t, id) + LostIn(e, t, id)) + Apply(b, e)[t][id] == b[t][id] + PublishedIn(e, t)
  {
    if e.Consume? && e.topic == t && e.id == id {
      var out := e.sent + e.lost;
      assert b[t][id] == out + b[t][id][|out|..];
    }
  }

  /** First in first out, no replay: what a live subscription took, followed by what is
      queued for it, is what was published to its topic since it was registered. */
  lemma {:induction false} Delivery(log: seq<Event>, t: Topic, id: SubscriptionId)
    requires Legal(log) && Live(log, t, id)
    ensures History(log, t, id) == PublishedTo(log, Start(log, t, id), t)
  {
    var e, was := Last(log), Front(log);
    if !Ends(e, t, id) {
      MailboxStep(Replay(was), e, t, id);
      Delivery(was, t, id);
      Regroup(Taken(was, Start(was, t, id), t, id), SentIn(e, t, id) + LostIn(e, t, id), Box(log, t, id),
              Box(was, t, id), PublishedIn(e, t));
    }
  }

  lemma Regroup(taken: seq<Value>, out: seq<Value>, box: seq<Value>, before: seq<Value>, published: seq<Value>)
    requires out + box == before + published
    ensures (taken + out) + box == (taken + before) + published
  {
    assert (taken + out) + box == taken + (out + box);
  }

  lemma {:induction false} NoFailureNoLoss(log: seq<Event>, since: nat, t: Topic, id: SubscriptionId)
    requires forall i :: 0 <= i < |log| ==> !Fails(log[i])
    ensures Lost(log, since, t, id) == [] && Taken(log, since, t, id) == Delivered(log, since, t, id)
  {
    if |log| > since {
      assert forall i :: 0 <= i < |log| - 1 ==> Front(log)[i] == log[i];
      NoFailureNoLoss(Front(log), since, t, id);
      assert !Fails(Last(log));
    }
  }

  lemma {:induction false} OnlyTheLastIsLost(log: seq<Event>, since: nat, t: Topic, id: SubscriptionId)
    requires Legal(log) && FailureIsLast(log)
    ensures Taken(log, since, t, id) == Delivered(log, since, t, id) + Lost(log, since, t, id)
    ensures |Lost(log, since, t, id)| <= 1
    ensures Lost(log, since, t, id) != [] ==> Fails(Last(log))
  {
    if |log| > since {
      assert forall i :: 0 <= i < |log| - 1 ==> Front(log)[i] == log[i];
      NoFailureNoLoss(Front(log), since, t, id);
      var sent, lost := SentIn(Last(log), t, id), LostIn(Last(log), t, id);
      assert Lost(log, since, t, id) == lost;
      assert (Delivered(Front(log), since, t, id) + sent) + lost == Delivered(Front(log), since, t, id) + (sent + lost);
    }
  }

  /** Exactly once: unless the run ended in a failed Send, each value published since the registration
      has been sent once or is queued once, in publish order; a failed Send loses one value. */
  lemma {:induction false} ExactlyOnce(log: seq<Event>, t: Topic, id: SubscriptionId)
    requires Legal(log) && Live(log, t, id) && FailureIsLast(log)
    ensures var k := Start(log, t, id); var lost := Lost(log, k, t, id);
      && Delivered(log, k, t, id) + lost + Box(log, t, id) == PublishedTo(log, k, t)
      && |lost| <= 1
      && (lost != [] ==> Fails(Last(log)))
  {
    Delivery(log, t, id);
    OnlyTheLastIsLost(log, Start(log, t, id), t, id);
  }

  // ---------------------------------------------------------------- total order

  lemma {:induction false} PublishedSplits(log: seq<Event>, j: nat, k: nat, t: Topic)
    requires j <= k <= |log|
    ensures PublishedTo(log, j, t) == PublishedTo(log[..k], j, t) + PublishedTo(log, k, t)
  {
    if k == |log| {
      assert log[..k] == log;
    } else {
      PublishedSplits(Front(log), j, k, t);
      assert Front(log)[..k] == log[..k];
    }
  }

  lemma {:induction false} PublishedBySplits(log: seq<Event>, j: nat, k: nat, t: Topic, p: PublisherId)
    requires j <= k <= |log|
    ensures PublishedBy(log, j, t, p) == PublishedBy(log[..k], j, t, p) + PublishedBy(log, k, t, p)
  {
    if k == |log| {
      assert log[..k] == log;
    } else {
      PublishedBySplits(Front(log), j, k, t, p);
      assert Front(log)[..k] == log[..k];
    }
  }

  /** What log[n] publishes stands in the history of every subscription that is older, behind what was published
      to it before. */
  lemma PublishedHasItsPlace(log: seq<Event>, n: nat, t: Topic, id: SubscriptionId)
    requires Legal(log) && Live(log, t, id) && Start(log, t, id) <= n < |log|
    requires log[n].Publish? && log[n].topic == t
    ensures var place := |PublishedTo(log[..n], Start(log, t, id), t)|;
      place < |History(log, t, id)| && History(log, t, id)[place] == log[n].value
  {
    var k := Start(log, t, id);
    Delivery(log, t, id);
    PublishedSplits(log, k, n, t);
    PublishedSplits(log, n, n + 1, t);
    var one := log[..n + 1];
    assert Front(one) == log[..n] && Last(one) == log[n];
    assert PublishedTo(log[..n], n, t) == [] && PublishedTo(one, n, t) == [log[n].value];
  }

  ghost predicate IsSuffix(h: seq<Value>, p: seq<Value>) {
    |h| <= |p| && p[|p| - |h|..] == h
  }

  lemma SuffixOfConcat(x: seq<Value>, h: seq<Value>)
    ensures IsSuffix(h, x + h)
  {
  }

  /** Everyone sees one order: of two live subscriptions to a topic, the history of the
      later one is a suffix of the history of the earlier one. */
  lemma TotalOrder(log: seq<Event>, t: Topic, early: SubscriptionId, late: SubscriptionId)
    requires Legal(log) && Live(log, t, early) && Live(log, t, late)
    requires Start(log, t, early) <= Start(log, t, late)
    ensures IsSuffix(History(log, t, late), History(log, t, early))
  {
    Delivery(log, t, early);
    Delivery(log, t, late);
    var j, k := Start(log, t, early), Start(log, t, late);
    PublishedSplits(log, j, k, t);
    SuffixOfConcat(PublishedTo(log[..k], j, t), PublishedTo(log, k, t));
  }

  /** `a` occurs in `b` in order, at the strictly increasing places `at`. */
  predicate Embeds(at: seq<nat>, a: seq<Value>, b: seq<Value>) {
    && |at| == |a|
    && (forall i :: 0 <= i < |at| ==> at[i] < |b| && b[at[i]] == a[i])
    && (forall i, j :: 0 <= i < j < |at| ==> at[i] < at[j])
  }

  /** `a` is a subsequence of `b`. */
  ghost predicate OccursIn(a: seq<Value>, b: seq<Value>) {
    exists at :: Embeds(at, a, b)
  }

  function Places(log: seq<Event>, since: nat, t: Topic, p: PublisherId): seq<nat> {
    if |log| <= since then []
    else Places(Front(log), since, t, p) +
         var e := Last(log);
         if e.Publish? && e.topic == t && e.publisher == p then [|PublishedTo(Front(log), since, t)|] else []
  }

  lemma EmbedsGrows(at: seq<nat>, a: seq<Value>, b: seq<Value>, v: Value)
    requires Embeds(at, a, b)
    ensures Embeds(at, a, b + [v])
    ensures Embeds(at + [|b|], a + [v], b + [v])
  {
  }

  lemma {:induction false} PublisherEmbeds(log: seq<Event>, since: nat, t: Topic, p: PublisherId)
    ensures Embeds(Places(log, since, t, p), PublishedBy(log, since, t, p), PublishedTo(log, since, t))
  {
    if |log| > since {
      var was, e := Front(log), Last(log);
      PublisherEmbeds(was, since, t, p);
      var at, a, b := Places(was, since, t, p), PublishedBy(was, since, t, p), PublishedTo(was, since, t);
      if e.Publish? && e.topic == t {
        EmbedsGrows(at, a, b, e.value);
        assert a + [] == a && at + [] == at;
      } else {
        assert a + [] == a && at + [] == at && b + [] == b;
      }
    }
  }

  /** What one publisher got in since the registration occurs in the history in its own order. */
  lemma PublisherOrderIsKept(log: seq<Event>, t: Topic, id: SubscriptionId, p: PublisherId)
    requires Legal(log) && Live(log, t, id)
    ensures OccursIn(PublishedBy(log, Start(log, t, id), t, p), History(log, t, id))
  {
    Delivery(log, t, id);
    PublisherEmbeds(log, Start(log, t, id), t, p);
  }

  // ------------------------------------------------------------------ isolation

  predicate Concerns(e: Event, t: Topic) {
    !e.Snapshot? && e.topic == t
  }

  /** The run with every event about another topic left out. */
  function OnTopic(log: seq<Event>, t: Topic): seq<Event> {
    if log == [] then []
    else OnTopic(Front(log), t) + if Concerns(Last(log), t) then [Last(log)] else []
  }

  lemma TopicStep(b: Mailboxes, b': Mailboxes, e: Event, t: Topic)
    requires Get(b, t) == Get(b', t)
    ensures Get(Apply(b, e), t) == if Concerns(e, t) then Get(Apply(b', e), t) else Get(b', t)
    ensures Concerns(e, t) ==> (Allowed(b, e) <==> Allowed(b', e))
  {
    assert t in b <==> t in b';
    assert t in b ==> b[t] == b'[t];
  }

  /** What happens to other topics is invisible: a topic is, at every moment, what its own events
      make it, and those events alone are a run with the same outcomes. */
  lemma {:induction false} TopicsAreIndependent(log: seq<Event>, t: Topic)
    ensures Get(Replay(log), t) == Get(Replay(OnTopic(log, t)), t)
    ensures Legal(log) ==> Legal(OnTopic(log, t))
  {
    if log != [] {
      TopicsAreIndependent(Front(log), t);
      var own := OnTopic(Front(log), t);
      TopicStep(Replay(Front(log)), Replay(own), Last(log), t);
      if Concerns(Last(log), t) {
        assert Front(own + [Last(log)]) == own;
      } else {
        assert OnTopic(log, t) == own;
      }
    }
  }

  lemma {:induction false} StartIsIndependent(log: seq<Event>, t: Topic, id: SubscriptionId)
    requires Live(log, t, id)
    ensures Live(OnTopic(log, t), t, id)
    ensures Taken(OnTopic(log, t), Start(OnTopic(log, t), t, id), t, id) == Taken(log, Start(log, t, id), t, id)
  {
    TopicsAreIndependent(log, t);
    var e, was := Last(log), Front(log);
    var own := OnTopic(was, t);
    if !Concerns(e, t) {
      assert OnTopic(log, t) == own;
      StartIsIndependent(was, t, id);
    } else {
      assert Front(own + [e]) == own;
      if !Ends(e, t, id) {
        StartIsIndependent(was, t, id);
      }
    }
  }

  /** Nor do steps on other topics alter any history: it is the one that the topic's own events alone make. */
  lemma HistoriesAreIndependent(log: seq<Event>, t: Topic, id: SubscriptionId)
    ensures Live(log, t, id) <==> Live(OnTopic(log, t), t, id)
    ensures Live(log, t, id) ==> History(OnTopic(log, t), t, id) == History(log, t, id)
  {
    TopicsAreIndependent(log, t);
    if Live(log, t, id) {
      StartIsIndependent(log, t, id);
    }
  }

  /** A topic created again owes nothing to its predecessor: whatever a subscription that
      is live after RemoveTopic(t) was given, was published after that removal. */
  lemma {:induction false} IncarnationsAreIsolated(log: seq<Event>, r: nat, t: Topic, id: SubscriptionId)
    requires Legal(log) && Live(log, t, id)
    requires r < |log| && log[r] == RemoveTopic(t)
    ensures Start(log, t, id) > r
    ensures IsSuffix(History(log, t, id), PublishedTo(log, r + 1, t))
  {
    StartIsTheLastRegistration(log, t, id);
    var k := Start(log, t, id);
    assert Ends(log[r], t, id) && k > r;
    Delivery(log, t, id);
    PublishedSplits(log, r + 1, k, t);
    SuffixOfConcat(PublishedTo(log[..k], r + 1, t), PublishedTo(log, k, t));
  }

  // ------------------------------------------------------------------- snapshot

  /** A Snapshot lists the topics and subscriptions there are, each with the
      number of values published to it and not yet taken. */
  lemma SnapshotIsTrue(log: seq<Event>, counts: Counts)
    requires Legal(log) && log != [] && Last(log) == Snapshot(counts)
    ensures forall t, id :: (t in counts && id in counts[t]) <==> Live(log, t, id)
    ensures forall t :: t in counts <==> t in Replay(log)
    ensures forall t, id :: Live(log, t, id) ==>
      var k := Start(log, t, id);
      counts[t][id] == |PublishedTo(log, k, t)| - |Taken(log, k, t, id)|
  {
    forall t, id | Live(log, t, id)
      ensures counts[t][id] == |PublishedTo(log, Start(log, t, id), t)| - |Taken(log, Start(log, t, id), t, id)|
    {
      Delivery(log, t, id);
    }
  }
}
