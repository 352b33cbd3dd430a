/** The broker as seen from outside its lock: one event for every critical
    section on `brokersLock`, and what each one does to the mailboxes. */
module BrokerSpec {
  import opened Common

  type Topic(==, !new)
  type SubscriptionId(==, !new)
  type PublisherId = nat

  /** subscription -> the values queued for it, oldest first */
  type Boxes = map<SubscriptionId, seq<Value>>

  /** topic -> subscription -> the values queued for it, oldest first */
  type Mailboxes = map<Topic, Boxes>
  type Counts = map<Topic, map<SubscriptionId, int>>

  /** `ok` is false where the handler returns an error. `lost` is the value that was
      popped but whose Send failed; it holds at most one value. */
  datatype Event =
    | CreateTopic(topic: Topic, ok: bool)
    | RemoveTopic(topic: Topic)
    | AddSubscriber(topic: Topic, id: SubscriptionId, ok: bool)
    | RemoveSubscriber(topic: Topic, id: SubscriptionId)
    | Publish(topic: Topic, value: Value, publisher: PublisherId)
    | Consume(topic: Topic, id: SubscriptionId, sent: seq<Value>, lost: seq<Value>)
    | Snapshot(counts: Counts)

  predicate Has(b: Mailboxes, t: Topic, id: SubscriptionId) {
    t in b && id in b[t]
  }

  function Broadcast(subs: Boxes, v: Value): Boxes {
    map id | id in subs :: subs[id] + [v]
  }

  /** Midway through a broadcast: the subscribers in `todo` have not had their copy yet. */
  function BroadcastExcept(subs: Boxes, v: Value, todo: set<SubscriptionId>): Boxes {
    map id | id in subs :: if id in todo then subs[id] else subs[id] + [v]
  }

  function TopicCounts(subs: Boxes): map<SubscriptionId, int> {
    map id | id in subs :: |subs[id]|
  }

  function CountsOf(b: Mailboxes): Counts {
    map t | t in b :: TopicCounts(b[t])
  }

  function Created(b: Mailboxes, t: Topic): Mailboxes {
    if t in b then b else b[t := map[]]
  }

  function TopicRemoved(b: Mailboxes, t: Topic): Mailboxes {
    Without(b, t)
  }

  function Subscribed(b: Mailboxes, t: Topic, id: SubscriptionId): Mailboxes {
    if t in b then b[t := b[t][id := []]] else b
  }

  function Unsubscribed(b: Mailboxes, t: Topic, id: SubscriptionId): Mailboxes {
    if t in b then b[t := Without(b[t], id)] else b
  }

  function Published(b: Mailboxes, t: Topic, v: Value): Mailboxes {
    if t in b then b[t := Broadcast(b[t], v)] else b
  }

  function WithBox(b: Mailboxes, t: Topic, id: SubscriptionId, box: seq<Value>): Mailboxes
    requires Has(b, t, id)
  {
    b[t := b[t][id := box]]
  }

  function Popped(b: Mailboxes, t: Topic, id: SubscriptionId, n: nat): Mailboxes {
    if Has(b, t, id) then WithBox(b, t, id, b[t][id][Min(|b[t][id]|, n)..]) else b
  }

  /** Midway through Publish: the subscribers in `todo` have not had their copy yet. */
  function PartPublished(b: Mailboxes, t: Topic, v: Value, todo: set<SubscriptionId>): Mailboxes
    requires t in b
  {
    b[t := BroadcastExcept(b[t], v, todo)]
  }

  /** A broadcast may visit the subscribers in any order. */
  lemma PublishStep(b: Mailboxes, t: Topic, v: Value, todo: set<SubscriptionId>, id: SubscriptionId)
    requires t in b && id in todo && todo <= b[t].Keys
    ensures var b' := PartPublished(b, t, v, todo);
      Has(b', t, id) && WithBox(b', t, id, b'[t][id] + [v]) == PartPublished(b, t, v, todo - {id})
  {
    var x := BroadcastExcept(b[t], v, todo);
    assert x[id := x[id] + [v]] == BroadcastExcept(b[t], v, todo - {id});
  }

  lemma PublishEnds(b: Mailboxes, t: Topic, v: Value)
    requires t in b
    ensures PartPublished(b, t, v, b[t].Keys) == b
    ensures PartPublished(b, t, v, {}) == Published(b, t, v)
  {
    assert BroadcastExcept(b[t], v, b[t].Keys) == b[t];
    assert BroadcastExcept(b[t], v, {}) == Broadcast(b[t], v);
  }

  lemma DrainStarts(b: Mailboxes, t: Topic, id: SubscriptionId)
    requires Has(b, t, id)
    ensures WithBox(b, t, id, b[t][id][0..]) == b
  {
    assert b[t][id][0..] == b[t][id];
    assert b[t][id := b[t][id][0..]] == b[t];
  }

  /** Popping the first of what is left after `i` values leaves what is left after `i + 1`. */
  lemma DrainStep(b: Mailboxes, t: Topic, id: SubscriptionId, i: nat)
    requires Has(b, t, id) && i < |b[t][id]|
    ensures var box := b[t][id]; var b' := WithBox(b, t, id, box[i..]);
      && Has(b', t, id) && b'[t][id] == box[i..] && box[i..][0] == box[i]
      && WithBox(b', t, id, box[i..][1..]) == WithBox(b, t, id, box[i + 1..])
      && box[..i] + [box[i]] == box[..i + 1]
  {
    var box := b[t][id];
    assert box[i..][1..] == box[i + 1..];
    assert b[t][id := box[i..]][id := box[i + 1..]] == b[t][id := box[i + 1..]];
  }

  /** A drain sends the whole box in order, or stops at the one value whose Send fails. */
  predicate DrainOutcome(box: seq<Value>, sent: seq<Value>, lost: seq<Value>) {
    && |lost| <= 1
    && sent + lost <= box
    && (lost == [] ==> sent == box)
  }

  /** Does a drain reach the end, when the Send of value number `failAt` is the first to fail? */
  predicate Completes(box: seq<Value>, failAt: Option<nat>) {
    failAt.Some? ==> failAt.value >= |box|
  }

  function SentOf(box: seq<Value>, failAt: Option<nat>): seq<Value> {
    if Completes(box, failAt) then box else box[..failAt.value]
  }

  function LostOf(box: seq<Value>, failAt: Option<nat>): seq<Value> {
    if Completes(box, failAt) then [] else [box[failAt.value]]
  }

  predicate DrainRun(box: seq<Value>, failAt: Option<nat>, sent: seq<Value>, ok: bool, lost: seq<Value>) {
    sent == SentOf(box, failAt) && lost == LostOf(box, failAt) && (ok <==> Completes(box, failAt))
  }

  /** A drain sends everything before the first Send that fails, loses the value of that Send, and is successful
      if and only if there is none. */
  lemma DrainStopsAtTheFailure(box: seq<Value>, failAt: Option<nat>, sent: seq<Value>, ok: bool, lost: seq<Value>)
    requires DrainRun(box, failAt, sent, ok, lost)
    ensures sent + lost <= box && |lost| <= 1
    ensures (ok <==> lost == []) && (ok ==> sent == box)
    ensures lost != [] ==> failAt == Some(|sent|)
    ensures failAt.Some? ==> |sent| <= failAt.value
  {
  }

  lemma DrainRunIsAllowed(b: Mailboxes, t: Topic, id: SubscriptionId, failAt: Option<nat>)
    requires Has(b, t, id)
    ensures var sent, lost := SentOf(b[t][id], failAt), LostOf(b[t][id], failAt);
      && DrainOutcome(b[t][id], sent, lost)
      && (lost == [] <==> Completes(b[t][id], failAt))
      && Popped(b, t, id, |sent + lost|) == WithBox(b, t, id, b[t][id][|sent + lost|..])
  {
  }

  function Apply(b: Mailboxes, e: Event): Mailboxes {
    match e
    case CreateTopic(t, _) => Created(b, t)
    case RemoveTopic(t) => TopicRemoved(b, t)
    case AddSubscriber(t, id, _) => Subscribed(b, t, id)
    case RemoveSubscriber(t, id) => Unsubscribed(b, t, id)
    case Publish(t, v, _) => Published(b, t, v)
    case Consume(t, id, sent, lost) => Popped(b, t, id, |sent + lost|)
    case Snapshot(_) => b
  }

  /** Is the outcome recorded in `e` the one a critical section produces from `b`? */
  predicate Allowed(b: Mailboxes, e: Event) {
    match e
    case CreateTopic(t, ok) => ok <==> t !in b
    case AddSubscriber(t, _, ok) => ok <==> t in b
    case Consume(t, id, sent, lost) => Has(b, t, id) && DrainOutcome(b[t][id], sent, lost)
    case Snapshot(counts) => counts == CountsOf(b)
    case _ => true
  }

  function Replay(log: seq<Event>): Mailboxes {
    if log == [] then map[] else Apply(Replay(Front(log)), Last(log))
  }

  predicate Legal(log: seq<Event>) {
    log == [] || (Legal(Front(log)) && Allowed(Replay(Front(log)), Last(log)))
  }

  predicate Live(log: seq<Event>, t: Topic, id: SubscriptionId) {
    Has(Replay(log), t, id)
  }

  function Box(log: seq<Event>, t: Topic, id: SubscriptionId): seq<Value>
    requires Live(log, t, id)
  {
    Replay(log)[t][id]
  }
}
