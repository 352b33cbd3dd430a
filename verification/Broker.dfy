/** The broker handlers of server/quashserver/quashserver.go over heap mailboxes. */
module Broker {
  import opened Common
  import opened BrokerSpec
  import opened LinkedQueue

  type Contents = map<Queue, seq<Value>>

  /** Well-formed lists with the recorded contents, every object of which is in `region`.
      They share no node, since a node belongs to one queue. */
  ghost predicate Stored(pool: set<Queue>, content: Contents, region: set<object>)
    reads region
  {
    forall q :: q in pool ==> q in region && q in content && Holds(q, content[q], region)
  }

  ghost predicate Holds(q: Queue, c: seq<Value>, region: set<object>)
    requires q in region
    reads region
  {
    (forall n :: n in q.spine ==> n in region) && q.Valid() && q.contents == c
  }

  /** Push onto one mailbox among many. */
  method PushOnto(ghost pool: set<Queue>, ghost content: Contents, ghost region: set<object>, q: Queue, v: Value)
    returns (ghost nd: object)
    requires q in pool && Stored(pool, content, region)
    modifies region
    ensures fresh(nd)
    ensures Stored(pool, content[q := content[q] + [v]], region + {nd})
  {
    q.Push(v);
    nd := Last(q.spine);
  }

  /** The loop of Consume: as many values as were there at the start, in order, unless the Send
      of value number `failAt` fails; that value is popped already. */
  method Drain(q: Queue, ghost region: set<object>, failAt: Option<nat>)
    returns (sent: seq<Value>, ok: bool, ghost lost: seq<Value>)
    requires q.Valid() && forall n :: n in q.spine ==> n in region
    modifies q
    ensures q.Valid() && forall n :: n in q.spine ==> n in region
    ensures DrainRun(old(q.contents), failAt, sent, ok, lost)
    ensures sent + lost <= old(q.contents) && |lost| <= 1
    ensures (ok <==> lost == []) && (ok ==> sent == old(q.contents))
    ensures lost != [] ==> failAt == Some(|sent|)
    ensures failAt.Some? ==> |sent| <= failAt.value
    ensures q.contents == old(q.contents)[|sent + lost|..]
  {
    ghost var box := q.contents;
    var count := q.Count();
    sent, lost, ok := [], [], true;
    for i := 0 to count
      invariant q.Valid() && forall n :: n in q.spine ==> n in region
      invariant sent == box[..i] && q.contents == box[i..]
      invariant failAt.Some? ==> i <= failAt.value
    {
      assert box[i..][1..] == box[i + 1..];
      var val := q.Pop();
      if failAt.Some? && failAt.value == i {
        lost, ok := [val], false;
        assert |sent + lost| == i + 1 && DrainRun(box, failAt, sent, ok, lost);
        DrainStopsAtTheFailure(box, failAt, sent, ok, lost);
        return;
      }
      sent := sent + [val];
    }
    assert box[..count] == box == sent + [] && DrainRun(box, failAt, sent, ok, lost);
    DrainStopsAtTheFailure(box, failAt, sent, ok, lost);
  }

  /** Drain one mailbox among many. */
  method DrainOff(ghost pool: set<Queue>, ghost content: Contents, ghost region: set<object>, q: Queue,
                  ghost box: seq<Value>, failAt: Option<nat>)
    returns (sent: seq<Value>, ok: bool, ghost lost: seq<Value>, ghost rest: seq<Value>)
    requires q in pool && Stored(pool, content, region) && box == content[q]
    modifies region
    ensures DrainRun(box, failAt, sent, ok, lost)
    ensures sent + lost <= box && |lost| <= 1
    ensures (ok <==> lost == []) && (ok ==> sent == box)
    ensures lost != [] ==> failAt == Some(|sent|)
    ensures failAt.Some? ==> |sent| <= failAt.value
    ensures rest == box[|sent + lost|..]
    ensures Stored(pool, content[q := rest], region)
  {
    sent, ok, lost := Drain(q, region, failAt);
    rest := q.contents;
  }

  type Subscribers = map<SubscriptionId, Queue>
  type Wiring = map<Topic, Subscribers>
  datatype Slot = Slot(topic: Topic, id: SubscriptionId)

  /** The proof's view of the heap: what each mailbox in `pool` holds, the one slot it
      hangs in, the resulting abstract state `boxes`, and all the objects owned. */
  datatype Ledger = Ledger(boxes: Mailboxes, content: Contents, place: map<Queue, Slot>, pool: set<Queue>,
                           region: set<object>)

  ghost predicate ShowsTopic(t: Topic, subs: Subscribers, l: Ledger, box: Boxes) {
    && (forall id :: id in box <==> id in subs)
    && (forall id :: id in subs ==>
          var q := subs[id];
          q in l.pool && q in l.content && q in l.place && l.place[q] == Slot(t, id) && l.content[q] == box[id])
  }

  /** No mailbox is reachable under two names, and the ledger records what each name reaches. */
  ghost predicate Shows(brokers: Wiring, l: Ledger) {
    && (forall t :: t in l.boxes <==> t in brokers)
    && (forall t :: t in brokers ==> ShowsTopic(t, brokers[t], l, l.boxes[t]))
  }

  lemma Creating(brokers: Wiring, l: Ledger, t: Topic)
    requires Shows(brokers, l) && t !in brokers
    ensures Shows(brokers[t := map[]], l.(boxes := Created(l.boxes, t)))
  {
  }

  lemma RemovingTopic(brokers: Wiring, l: Ledger, t: Topic)
    requires Shows(brokers, l)
    ensures Shows(Without(brokers, t), l.(boxes := TopicRemoved(l.boxes, t)))
  {
  }

  ghost function WithQueue(l: Ledger, t: Topic, id: SubscriptionId, q: Queue): Ledger {
    Ledger(Subscribed(l.boxes, t, id), l.content[q := []], l.place[q := Slot(t, id)], l.pool + {q},
           l.region + {q})
  }

  lemma Subscribing(brokers: Wiring, l: Ledger, t: Topic, id: SubscriptionId, q: Queue)
    requires Shows(brokers, l) && t in brokers && q !in l.pool
    ensures Shows(brokers[t := brokers[t][id := q]], WithQueue(l, t, id, q))
  {
    var l' := WithQueue(l, t, id, q);
    assert ShowsTopic(t, brokers[t], l, l.boxes[t]);
    assert ShowsTopic(t, brokers[t][id := q], l', l.boxes[t][id := []]);
    forall t' | t' in brokers && t' != t ensures ShowsTopic(t', brokers[t'], l', l.boxes[t']) {
      assert ShowsTopic(t', brokers[t'], l, l.boxes[t']);
    }
  }

  lemma Unsubscribing(brokers: Wiring, l: Ledger, t: Topic, id: SubscriptionId)
    requires Shows(brokers, l) && t in brokers
    ensures Shows(brokers[t := Without(brokers[t], id)], l.(boxes := Unsubscribed(l.boxes, t, id)))
  {
  }

  ghost function WithContent(l: Ledger, t: Topic, id: SubscriptionId, q: Queue, c: seq<Value>): Ledger
    requires Has(l.boxes, t, id)
  {
    l.(boxes := WithBox(l.boxes, t, id, c), content := l.content[q := c])
  }

  /** Since a mailbox hangs in one slot, changing it changes one entry of the abstract state. */
  lemma Changing(brokers: Wiring, l: Ledger, t: Topic, id: SubscriptionId, q: Queue, c: seq<Value>, region: set<object>)
    requires Shows(brokers, l) && Has(l.boxes, t, id) && q == brokers[t][id]
    ensures Shows(brokers, WithContent(l, t, id, q, c).(region := region))
  {
    assert ShowsTopic(t, brokers[t], l, l.boxes[t]);
  }

  /** The global `brokers`. Each method is what one handler does between taking and releasing brokersLock. */
  class Broker {
    var brokers: Wiring
    ghost var ledger: Ledger

    ghost predicate Valid()
      reads this, ledger.region
    {
      && this !in ledger.region
      && Stored(ledger.pool, ledger.content, ledger.region)
      && Shows(brokers, ledger)
    }

    /** The mailboxes of two different subscriptions are different queues and have no node in common. */
    lemma MailboxesAreDisjoint(t: Topic, id: SubscriptionId, t': Topic, id': SubscriptionId)
      requires Valid() && Slot(t, id) != Slot(t', id')
      requires t in brokers && id in brokers[t] && t' in brokers && id' in brokers[t']
      ensures var q, q' := brokers[t][id], brokers[t'][id'];
        && q.Valid() && q'.Valid() && q != q'
        && forall n :: n in q.spine ==> n !in q'.spine
    {
      assert ShowsTopic(t, brokers[t], ledger, ledger.boxes[t]);
      assert ShowsTopic(t', brokers[t'], ledger, ledger.boxes[t']);
    }

    constructor ()
      ensures Valid() && fresh(ledger.region)
      ensures ledger.boxes == map[]
    {
      brokers := map[];
      ledger := Ledger(map[], map[], map[], {}, {});
    }

    method CreateTopic(t: Topic) returns (ok: bool)
      requires Valid()
      modifies this
      ensures Valid() && ledger.region == old(ledger.region)
      ensures ok <==> t !in old(ledger.boxes)
      ensures ledger.boxes == Created(old(ledger.boxes), t)
    {
      if t in brokers {
        return false;
      }
      Creating(brokers, ledger, t);
      brokers, ledger := brokers[t := map[]], ledger.(boxes := Created(ledger.boxes, t));
      ok := true;
    }

    method RemoveTopic(t: Topic)
      requires Valid()
      modifies this
      ensures Valid() && ledger.region == old(ledger.region)
      ensures ledger.boxes == TopicRemoved(old(ledger.boxes), t)
    {
      RemovingTopic(brokers, ledger, t);
      brokers, ledger := Without(brokers, t), ledger.(boxes := TopicRemoved(ledger.boxes, t));
    }

    /** `id` is what utils.SubscriptionID returned; nothing is assumed about it. */
    method AddSubscriber(t: Topic, id: SubscriptionId) returns (ok: bool)
      requires Valid()
      modifies this
      ensures Valid()
      ensures forall o :: o in ledger.region && o !in old(ledger.region) ==> fresh(o)
      ensures ok <==> t in old(ledger.boxes)
      ensures ledger.boxes == Subscribed(old(ledger.boxes), t, id)
    {
      if t !in brokers {
        return false;
      }
      var q := new Queue();
      ghost var l := WithQueue(ledger, t, id, q);
      Subscribing(brokers, ledger, t, id, q);
      assert Stored(l.pool, l.content, l.region);
      brokers, ledger := brokers[t := brokers[t][id := q]], l;
      ok := true;
    }

    method RemoveSubscriber(t: Topic, id: SubscriptionId)
      requires Valid()
      modifies this
      ensures Valid() && ledger.region == old(ledger.region)
      ensures ledger.boxes == Unsubscribed(old(ledger.boxes), t, id)
    {
      if t in brokers {
        Unsubscribing(brokers, ledger, t, id);
        brokers, ledger := brokers[t := Without(brokers[t], id)], ledger.(boxes := Unsubscribed(ledger.boxes, t, id));
      }
    }

    /** One iteration of the Publish loop. */
    method PushTo(t: Topic, id: SubscriptionId, v: Value)
      requires Valid() && Has(ledger.boxes, t, id)
      modifies this`ledger, ledger.region
      ensures Valid()
      ensures forall o :: o in ledger.region && o !in old(ledger.region) ==> fresh(o)
      ensures ledger.boxes == WithBox(old(ledger.boxes), t, id, old(ledger.boxes)[t][id] + [v])
    {
      assert ShowsTopic(t, brokers[t], ledger, ledger.boxes[t]);
      var q := brokers[t][id];
      ghost var l := ledger;
      ghost var c := l.content[q] + [v];
      ghost var nd := PushOnto(l.pool, l.content, l.region, q, v);
      Changing(brokers, l, t, id, q, c, l.region + {nd});
      l := WithContent(l, t, id, q, c).(region := l.region + {nd});
      assert Stored(l.pool, l.content, l.region);
      ledger := l;
    }

    /** The critical section of one Publish request: subscribers in any order. */
    method Publish(t: Topic, v: Value)
      requires Valid()
      modifies this`ledger, ledger.region
      ensures Valid()
      ensures forall o :: o in ledger.region && o !in old(ledger.region) ==> fresh(o)
      ensures ledger.boxes == Published(old(ledger.boxes), t, v)
    {
      if t in brokers {
        ghost var was := ledger.boxes;
        assert ShowsTopic(t, brokers[t], ledger, was[t]);
        var todo := brokers[t].Keys;
        assert todo == was[t].Keys;
        PublishEnds(was, t, v);
        while todo != {}
          invariant Valid() && todo <= was[t].Keys
          invariant forall o :: o in ledger.region && o !in old(ledger.region) ==> fresh(o)
          invariant ledger.boxes == PartPublished(was, t, v, todo)
        {
          var id :| id in todo;
          PublishStep(was, t, v, todo, id);
          PushTo(t, id, v);
          todo := todo - {id};
        }
      }
    }

    /** The critical section of Consume. When `ok` is false the handler returns without unlocking. */
    method Consume(t: Topic, id: SubscriptionId, failAt: Option<nat>)
      returns (sent: seq<Value>, ok: bool, ghost lost: seq<Value>)
      requires Valid()
      requires Has(ledger.boxes, t, id)
      modifies this`ledger, ledger.region
      ensures Valid() && ledger.region == old(ledger.region)
      ensures DrainRun(old(ledger.boxes)[t][id], failAt, sent, ok, lost)
      ensures sent + lost <= old(ledger.boxes)[t][id] && |lost| <= 1
      ensures (ok <==> lost == []) && (ok ==> sent == old(ledger.boxes)[t][id])
      ensures lost != [] ==> failAt == Some(|sent|)
      ensures failAt.Some? ==> |sent| <= failAt.value
      ensures ledger.boxes == WithBox(old(ledger.boxes), t, id, old(ledger.boxes)[t][id][|sent + lost|..])
    {
      assert ShowsTopic(t, brokers[t], ledger, ledger.boxes[t]);
      var q := brokers[t][id];
      ghost var l, rest := ledger, [];
      sent, ok, lost, rest := DrainOff(l.pool, l.content, l.region, q, l.content[q], failAt);
      Changing(brokers, l, t, id, q, rest, l.region);
      l := WithContent(l, t, id, q, rest).(region := l.region);
      assert Stored(l.pool, l.content, l.region);
      ledger := l;
    }

    /** The broker half of Snapshot: nested loops over topics and subscribers. */
    method Snapshot() returns (topics: Counts)
      requires Valid()
      ensures topics == CountsOf(ledger.boxes)
    {
      topics := map[];
      var todo := brokers.Keys;
      while todo != {}
        invariant todo <= brokers.Keys
        invariant forall t :: t in topics <==> t in brokers && t !in todo
        invariant forall t :: t in topics ==> topics[t] == TopicCounts(ledger.boxes[t])
      {
        var name :| name in todo;
        var counts := CountTopic(name);
        topics := topics[name := counts];
        todo := todo - {name};
      }
    }

    /** The inner loop of Snapshot. */
    method CountTopic(name: Topic) returns (counts: map<SubscriptionId, int>)
      requires Valid() && name in brokers
      ensures name in ledger.boxes && counts == TopicCounts(ledger.boxes[name])
    {
      assert ShowsTopic(name, brokers[name], ledger, ledger.boxes[name]);
      counts := map[];
      var subs := brokers[name].Keys;
      while subs != {}
        invariant subs <= brokers[name].Keys
        invariant forall id :: id in counts <==> id in brokers[name] && id !in subs
        invariant forall id :: id in counts ==> counts[id] == |ledger.boxes[name][id]|
      {
        var id :| id in subs;
        var n := brokers[name][id].Count();
        counts := counts[id := n];
        subs := subs - {id};
      }
    }
  }
}
