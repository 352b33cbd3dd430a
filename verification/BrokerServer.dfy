/** The broker over heap mailboxes, one handler at a time, with the log of what it did. The run theorems of
    BrokerRuns and Conservation thereby speak about the linked lists themselves. */
module BrokerServer {
  import opened Common
  import opened BrokerSpec
  import BR = BrokerRuns
  import H = Broker

  lemma ConsumeExtends(log: seq<Event>, t: Topic, id: SubscriptionId, failAt: Option<nat>) returns (log': seq<Event>)
    requires Legal(log) && BR.FailureIsLast(log) && !(log != [] && BR.Fails(Last(log))) && Live(log, t, id)
    ensures var box := Box(log, t, id); var sent, lost := SentOf(box, failAt), LostOf(box, failAt);
      && log' == log + [BrokerSpec.Consume(t, id, sent, lost)]
      && Legal(log') && BR.FailureIsLast(log') && (BR.Fails(Last(log')) <==> !Completes(box, failAt))
      && Replay(log') == WithBox(Replay(log), t, id, box[|sent + lost|..])
  {
    DrainRunIsAllowed(Replay(log), t, id, failAt);
    var e := BrokerSpec.Consume(t, id, SentOf(Box(log, t, id), failAt), LostOf(Box(log, t, id), failAt));
    BR.LogExtends(log, e);
    log' := log + [e];
  }

  class Server {
    const broker: H.Broker
    ghost var log: seq<Event>

    ghost predicate Valid()
      reads this, broker, broker.ledger.region
    {
      && this !in broker.ledger.region
      && broker.Valid()
      && Legal(log) && BR.FailureIsLast(log)
      && Replay(log) == broker.ledger.boxes
    }

    /** Has a handler returned with brokersLock taken? Every later one blocks for ever. */
    ghost predicate Locked()
      reads `log
    {
      log != [] && BR.Fails(Last(log))
    }

    constructor ()
      ensures Valid() && fresh(broker) && fresh(broker.ledger.region)
      ensures log == [] && !Locked()
    {
      broker := new H.Broker();
      log := [];
    }

    method CreateTopic(t: Topic) returns (ok: bool)
      requires Valid() && !Locked()
      modifies this, broker
      ensures Valid() && broker.ledger.region == old(broker.ledger.region)
      ensures log == old(log) + [BrokerSpec.CreateTopic(t, ok)]
    {
      ok := broker.CreateTopic(t);
      BR.LogExtends(log, BrokerSpec.CreateTopic(t, ok));
      log := log + [BrokerSpec.CreateTopic(t, ok)];
    }

    method RemoveTopic(t: Topic)
      requires Valid() && !Locked()
      modifies this, broker
      ensures Valid() && broker.ledger.region == old(broker.ledger.region)
      ensures log == old(log) + [BrokerSpec.RemoveTopic(t)]
    {
      broker.RemoveTopic(t);
      BR.LogExtends(log, BrokerSpec.RemoveTopic(t));
      log := log + [BrokerSpec.RemoveTopic(t)];
    }

    method AddSubscriber(t: Topic, id: SubscriptionId) returns (ok: bool)
      requires Valid() && !Locked()
      modifies this, broker
      ensures Valid()
      ensures forall o :: o in broker.ledger.region && o !in old(broker.ledger.region) ==> fresh(o)
      ensures log == old(log) + [BrokerSpec.AddSubscriber(t, id, ok)]
    {
      ok := broker.AddSubscriber(t, id);
      BR.LogExtends(log, BrokerSpec.AddSubscriber(t, id, ok));
      log := log + [BrokerSpec.AddSubscriber(t, id, ok)];
    }

    method RemoveSubscriber(t: Topic, id: SubscriptionId)
      requires Valid() && !Locked()
      modifies this, broker
      ensures Valid() && broker.ledger.region == old(broker.ledger.region)
      ensures log == old(log) + [BrokerSpec.RemoveSubscriber(t, id)]
    {
      broker.RemoveSubscriber(t, id);
      BR.LogExtends(log, BrokerSpec.RemoveSubscriber(t, id));
      log := log + [BrokerSpec.RemoveSubscriber(t, id)];
    }

    method Publish(t: Topic, v: Value, ghost p: PublisherId)
      requires Valid() && !Locked()
      modifies this, broker, broker.ledger.region
      ensures Valid() && !Locked()
      ensures forall o :: o in broker.ledger.region && o !in old(broker.ledger.region) ==> fresh(o)
      ensures log == old(log) + [BrokerSpec.Publish(t, v, p)]
    {
      broker.Publish(t, v);
      BR.LogExtends(log, BrokerSpec.Publish(t, v, p));
      log := log + [BrokerSpec.Publish(t, v, p)];
    }

    /** When the Send of value number `failAt` fails, the handler returns without unlocking. */
    method Consume(t: Topic, id: SubscriptionId, failAt: Option<nat>)
      returns (sent: seq<Value>, ok: bool, ghost lost: seq<Value>)
      requires Valid() && !Locked()
      requires Live(log, t, id)
      modifies this, broker, broker.ledger.region
      ensures Valid() && (Locked() <==> !ok) && broker.ledger.region == old(broker.ledger.region)
      ensures DrainRun(Box(old(log), t, id), failAt, sent, ok, lost)
      ensures sent + lost <= Box(old(log), t, id) && |lost| <= 1
      ensures (ok <==> lost == []) && (ok ==> sent == Box(old(log), t, id))
      ensures lost != [] ==> failAt == Some(|sent|)
      ensures failAt.Some? ==> |sent| <= failAt.value
      ensures log == old(log) + [BrokerSpec.Consume(t, id, sent, lost)]
    {
      ghost var log' := ConsumeExtends(log, t, id, failAt);
      log := log';
      sent, ok, lost := broker.Consume(t, id, failAt);
    }

    method Snapshot() returns (topics: Counts)
      requires Valid() && !Locked()
      modifies `log
      ensures Valid()
      ensures log == old(log) + [BrokerSpec.Snapshot(topics)]
    {
      topics := broker.Snapshot();
      BR.LogExtends(log, BrokerSpec.Snapshot(topics));
      log := log + [BrokerSpec.Snapshot(topics)];
    }

    /** The list that hangs at (t, id) holds what was published to `t` since the registration and not yet taken. */
    lemma ListIsWhatIsOwed(t: Topic, id: SubscriptionId)
      requires Valid() && t in broker.brokers && id in broker.brokers[t]
      ensures Live(log, t, id) && broker.brokers[t][id].Valid()
      ensures var k := BR.Start(log, t, id);
        BR.Taken(log, k, t, id) + broker.brokers[t][id].contents == BR.PublishedTo(log, k, t)
    {
      assert H.ShowsTopic(t, broker.brokers[t], broker.ledger, broker.ledger.boxes[t]);
      BR.Delivery(log, t, id);
    }
  }
}
