/** Conservation over whole runs: values are copied by Publish and leave by Consume,
    RemoveSubscriber, RemoveTopic or a registration under an id already in use, and in no other way. */
module Conservation {
  import opened Common
  import opened BrokerSpec

  // ------------------------------------------------------- sums over finite maps

  ghost function Sum<K>(m: map<K, nat>): nat {
    if m == map[] then 0
    else
      var k :| k in m;
      m[k] + Sum(Without(m, k))
  }

  lemma {:induction false} SumWithout<K>(m: map<K, nat>, k: K)
    requires k in m
    ensures Sum(m) == m[k] + Sum(Without(m, k))
  {
    var j :| j in m && Sum(m) == m[j] + Sum(Without(m, j));
    if j != k {
      SumWithout(Without(m, j), k);
      SumWithout(Without(m, k), j);
      assert Without(Without(m, j), k) == Without(Without(m, k), j);
    }
  }

  lemma SumUpdate<K>(m: map<K, nat>, k: K, n: nat)
    ensures Sum(m[k := n]) == n + Sum(Without(m, k))
    ensures k in m ==> Sum(m) == m[k] + Sum(Without(m, k))
    ensures k !in m ==> Sum(m) == Sum(Without(m, k))
  {
    SumWithout(m[k := n], k);
    assert Without(m[k := n], k) == Without(m, k);
    if k in m { SumWithout(m, k); } else { assert Without(m, k) == m; }
  }

  lemma {:induction false} SumPlusOneEach<K>(m: map<K, nat>, m': map<K, nat>)
    requires m'.Keys == m.Keys && forall k :: k in m ==> m'[k] == m[k] + 1
    ensures Sum(m') == Sum(m) + |m|
  {
    if m != map[] {
      var k :| k in m;
      SumWithout(m, k);
      SumWithout(m', k);
      SumPlusOneEach(Without(m, k), Without(m', k));
      assert Without(m, k).Keys == m.Keys - {k};
    }
  }

  // ------------------------------------------------------------------ the ledger

  function Sizes(subs: Boxes): map<SubscriptionId, nat> {
    map id | id in subs :: |subs[id]|
  }

  ghost function TopicSizes(b: Mailboxes): map<Topic, nat> {
    map t | t in b :: Sum(Sizes(b[t]))
  }

  /** The number of values waiting in all the mailboxes of all the topics. */
  ghost function Queued(b: Mailboxes): nat {
    Sum(TopicSizes(b))
  }

  function SubscribersOf(b: Mailboxes, t: Topic): nat {
    if t in b then |b[t]| else 0
  }

  function Waiting(b: Mailboxes, t: Topic, id: SubscriptionId): nat {
    if Has(b, t, id) then |b[t][id]| else 0
  }

  /** copies made */
  function CopiedBy(b: Mailboxes, e: Event): nat {
    if e.Publish? then SubscribersOf(b, e.topic) else 0
  }

  /** values sent, or lost in a failed Send */
  function TakenBy(e: Event): nat {
    if e.Consume? then |e.sent| + |e.lost| else 0
  }

  /** values discarded with their mailbox */
  ghost function DroppedBy(b: Mailboxes, e: Event): nat {
    match e
    case RemoveTopic(t) => if t in b then Sum(Sizes(b[t])) else 0
    case RemoveSubscriber(t, id) => Waiting(b, t, id)
    case AddSubscriber(t, id, _) => Waiting(b, t, id)
    case _ => 0
  }

  function Copied(log: seq<Event>): nat {
    if log == [] then 0 else Copied(Front(log)) + CopiedBy(Replay(Front(log)), Last(log))
  }

  function TakenOut(log: seq<Event>): nat {
    if log == [] then 0 else TakenOut(Front(log)) + TakenBy(Last(log))
  }

  ghost function Dropped(log: seq<Event>): nat {
    if log == [] then 0 else Dropped(Front(log)) + DroppedBy(Replay(Front(log)), Last(log))
  }

  /** Replacing the mailboxes of one topic moves the total by what that topic gains or loses. */
  lemma QueuedAfterTopic(b: Mailboxes, t: Topic, subs: Boxes)
    ensures Queued(b[t := subs]) + (if t in b then Sum(Sizes(b[t])) else 0) == Queued(b) + Sum(Sizes(subs))
    ensures Queued(Without(b, t)) + (if t in b then Sum(Sizes(b[t])) else 0) == Queued(b)
  {
    var m := TopicSizes(b);
    assert TopicSizes(b[t := subs]) == m[t := Sum(Sizes(subs))];
    assert TopicSizes(Without(b, t)) == Without(m, t);
    SumUpdate(m, t, Sum(Sizes(subs)));
  }

  lemma TopicAfterBox(subs: Boxes, id: SubscriptionId, box: seq<Value>)
    ensures Sum(Sizes(subs[id := box])) + (if id in subs then |subs[id]| else 0) == Sum(Sizes(subs)) + |box|
    ensures Sum(Sizes(Without(subs, id))) + (if id in subs then |subs[id]| else 0) == Sum(Sizes(subs))
  {
    var m := Sizes(subs);
    assert Sizes(subs[id := box]) == m[id := |box|];
    assert Sizes(Without(subs, id)) == Without(m, id);
    SumUpdate(m, id, |box|);
  }

  lemma TopicAfterBroadcast(subs: Boxes, v: Value)
    ensures Sum(Sizes(Broadcast(subs, v))) == Sum(Sizes(subs)) + |subs|
  {
    var m := Sizes(subs);
    assert m.Keys == subs.Keys;
    SumPlusOneEach(m, Sizes(Broadcast(subs, v)));
  }

  /** what comes in and goes out in one section */
  ghost predicate Balanced(b: Mailboxes, e: Event) {
    Queued(Apply(b, e)) + TakenBy(e) + DroppedBy(b, e) == Queued(b) + CopiedBy(b, e)
  }

  lemma TopicBalance(b: Mailboxes, e: Event)
    requires Allowed(b, e) && (e.CreateTopic? || e.RemoveTopic?)
    ensures Balanced(b, e)
  {
    QueuedAfterTopic(b, e.topic, map[]);
    assert Sizes(map[]) == map[];
  }

  lemma SubscriberBalance(b: Mailboxes, e: Event)
    requires Allowed(b, e) && (e.AddSubscriber? || e.RemoveSubscriber?)
    ensures Balanced(b, e)
  {
    var t, id := e.topic, e.id;
    if t in b {
      QueuedAfterTopic(b, t, if e.AddSubscriber? then b[t][id := []] else Without(b[t], id));
      TopicAfterBox(b[t], id, []);
    }
  }

  lemma PublishBalance(b: Mailboxes, e: Event)
    requires e.Publish?
    ensures Balanced(b, e)
  {
    if e.topic in b {
      QueuedAfterTopic(b, e.topic, Broadcast(b[e.topic], e.value));
      TopicAfterBroadcast(b[e.topic], e.value);
    }
  }

  lemma ConsumeBalance(b: Mailboxes, e: Event)
    requires Allowed(b, e) && e.Consume?
    ensures Balanced(b, e)
  {
    var t, id, rest := e.topic, e.id, b[e.topic][e.id][|e.sent + e.lost|..];
    QueuedAfterTopic(b, t, b[t][id := rest]);
    TopicAfterBox(b[t], id, rest);
  }

  lemma Balance(b: Mailboxes, e: Event)
    requires Allowed(b, e)
    ensures Balanced(b, e)
  {
    match e
    case CreateTopic(_, _) => TopicBalance(b, e);
    case RemoveTopic(_) => TopicBalance(b, e);
    case AddSubscriber(_, _, _) => SubscriberBalance(b, e);
    case RemoveSubscriber(_, _) => SubscriberBalance(b, e);
    case Publish(_, _, _) => PublishBalance(b, e);
    case Consume(_, _, _, _) => ConsumeBalance(b, e);
    case Snapshot(_) =>
  }

  /** At every moment of every run: queued + taken out + dropped == copies published. */
  lemma {:induction false} Conserved(log: seq<Event>)
    requires Legal(log)
    ensures Queued(Replay(log)) + TakenOut(log) + Dropped(log) == Copied(log)
  {
    if log == [] {
      assert TopicSizes(map[]) == map[];
    } else {
      Conserved(Front(log));
      Balance(Replay(Front(log)), Last(log));
    }
  }
}
