# Quash server: a verified model

Quash is an in-memory server with two parts that share nothing but the process: a topic broker and a
key-value store with time-outs. Both are plain Go maps behind one mutex each. This project models

* the **mailbox** of `server/queue/queue.go`: a singly linked list of heap nodes and a counter beside it;
* the **broker** of `server/quashserver/quashserver.go`: topic -> subscription -> mailbox, with `Publish`
  copying a value into every mailbox of a topic and `Consume` draining one mailbox;
* the **key-value store** of the same file: expired entries are dropped by lookups and by a concurrent
  collector, and `GetKV` reads the clock *before* it takes the lock;
* the **concurrent server**: any number of handlers whose lock operations, clock readings, loop iterations
  and sends interleave freely;
* the two **streams** of `client/client.go`, `Publish` and `Consume`, composed with the server's loops.

## How the model is built

| module | what it holds |
|---|---|
| `LinkedQueue` | the heap list: `Node`, `Queue`, its shape and its three operations |
| `BrokerSpec` | a run as a log of critical sections, and what each one does to `topic -> id -> seq` |
| `Broker` | the handlers over heap mailboxes, proved against `BrokerSpec` |
| `BrokerServer` | the same handlers writing the log, so that run theorems apply to the lists |
| `BrokerRuns`, `Conservation` | what holds of every run of the broker |
| `KvSpec`, `KvStore`, `KvRuns` | the same three layers for the key-value store |
| `ServerMachine` | the fine-grained machine: one step is one lock operation, clock reading, iteration or Send |
| `ServerRuns`, `ServerProgress` | its invariant and its progress |
| `Requests`, `Guarantees` | which events each request leaves, and what clients may rely on |
| `PublishStream`, `ConsumeStream` | client and server joined by FIFO channels |

A *run* of the broker is the list of its critical sections in lock order (`BrokerSpec.Event`). `Replay`
gives the mailboxes a run ends in, `Legal` says that every recorded outcome is the one the code gives. The
classes prove that the code produces only legal logs and that the heap shows their replay; the machine
proves the same of every interleaving; the run theorems are then about all legal logs. `Requests` ties the
logs to what was asked: every call that returns has left exactly the events of its request.

How the heap is kept apart: every node carries the queue it was made for, every queue in use has one
place in the map of maps, and both are part of the broker's invariant. So no two mailboxes share a node,
no mailbox is reachable under two names (`Broker.Broker.MailboxesAreDisjoint`), every list ends in nil, and every
counter is its list's length.

Names, values and keys are abstract types with equality, because the server never looks into them. The
clock never goes back. Counters and instants are unbounded integers; the one place where the width of an
integer decides the outcome, `time.Duration(n) * time.Second`, is modelled with its 64-bit wrap-around.

## Where the code does not do what one expects

Each of these is kept in the model as the code has it.

* **Expiry by deletion can be seen.** A collector may read a later clock than a `GetKV` that is waiting for
  the lock, and remove an entry which that lookup would still have returned (`KvRuns.CollectionIsObserved`). It
  happens exactly when a sweep overtook the lookup (`KvRuns.LookupAgreesUnlessOvertaken`), never for a lookup
  whose clock reading is up to date (`KvRuns.UpToDateIsNotOvertaken`, `KvRuns.DeletionIsUnobservable`). Even
  an overtaken lookup's miss is right at the moment it holds the lock (`Guarantees.LookupsAreLinearizable`).
* **An entry that was never readable can be returned.** With a negative time-out, set after the lookup read
  its clock, and in no other case (`KvRuns.NegativeTimeOutIsRead`, `KvRuns.HitIsExplained`).
* **Time-outs above 9223372036 seconds are not that long.** 9223372037 seconds expire at once
  (`KvRuns.TooLongIsTooShort`), and -9223372037 seconds last some 292 years (`KvRuns.TooShortIsTooLong`);
  `KvRuns.TimeToLive` says exactly which time-outs are honoured.
* **A failed Send leaves `brokersLock` taken for ever.** `Consume` returns without unlocking. The one value in
  flight is lost (`Guarantees.FailedSendLosesOne`) and no handler touches the mailboxes again
  (`ServerProgress.StuckForever`). `Guarantees.SendMayFail` gives a run that gets there.
* **Consume of an unknown subscription dereferences nil.** It is the only way this model's server can go
  down (`Guarantees.CrashMeansUnknownSubscription`), and it does (`Guarantees.UnknownSubscriptionCrashes`).
  On the class this is the precondition of `Consume`; in the machine it is a step into a crashed state.
* **`client.Consume` can wait for ever**, for its channel to accept a message or for a leaked `brokersLock`. The
  repository's own usage example (`README.md`, lines 173-179) calls it on an unbuffered channel and reads afterwards;
  `ConsumeStream.ReturnsWhen` says exactly when the call returns. A call for an unknown subscription returns with an
  error, after it has brought the server down.
* **A caller that reads too little freezes the broker.** `Consume` sends while it holds `brokersLock`, and a Send
  waits when the transport is full (`ConsumeStream.StallsWhen`, `ConsumeStream.StalledIsForEver`).
* **An acknowledged value can be lost.** It has been put into every mailbox, but a later `Consume` may pop it and fail
  to send it (`PublishStream.AckedIsSentOrWaiting`, `PublishStream.AckedCanBeLost`).
* **Snapshot's per-topic numbers are mailbox lengths.** The comment in `structs/structs.go` speaks of
  subscriber counts; the code stores the length of each subscriber's queue, and so does the model.

`utils.SubscriptionID` draws random ids. The model takes the id as a parameter and assumes nothing about it:
an id that is already in use replaces its mailbox, and a subscription counts from its *last* registration.

## Model

| member | source | states |
|---|---|---|
| LinkedQueue.ChainIsUnique | server/queue/queue.go:3-11 | A root has at most one nil-terminated chain of nodes: the heap alone determines the list. |
| LinkedQueue.ChainIsAcyclic | server/queue/queue.go:28-31 | A nil-terminated chain never visits a node twice, which is why the tail walk ends at the one last node. |
| LinkedQueue.Queue.constructor | server/queue/queue.go:13-19 | A new queue is an empty, well-formed list. |
| LinkedQueue.Queue.Push | server/queue/queue.go:21-33 | Appends the value at the end, keeps all nodes there were and adds one new one, counter equal to length; the walk ends by a measure on the nodes left. |
| LinkedQueue.Queue.Pop | server/queue/queue.go:35-40 | Returns the first value and leaves the rest in order, counter equal to length. |
| LinkedQueue.Queue.Count | server/queue/queue.go:42-44 | The counter is the number of values in the list. |
| Broker.PushOnto | server/quashserver/quashserver.go:153 | Pushing to one mailbox changes no other one, however many lists there are on the heap. |
| Broker.Drain | server/quashserver/quashserver.go:176-184 | The loop over the initial count never meets nil. It sends the old content in order up to the first Send that fails, loses the value of that Send alone and leaves the rest; it succeeds if and only if no Send fails, and then it has sent all and leaves nothing. |
| Broker.DrainOff | server/quashserver/quashserver.go:176-184 | Draining one mailbox changes no other one. |
| Broker.Subscribing | server/quashserver/quashserver.go:123 | A fresh mailbox under one name leaves every other name with its own mailbox. |
| Broker.Changing | server/quashserver/quashserver.go:150-155 | Since a mailbox hangs in one place, changing it changes exactly one entry of the abstract broker. |
| Broker.Broker.MailboxesAreDisjoint | server/quashserver/quashserver.go:23 | The mailboxes of two different subscriptions are different well-formed queues without a common node. |
| Broker.Broker.CreateTopic | server/quashserver/quashserver.go:96-105 | Succeeds if and only if the topic was not there; then it exists without subscribers. The heap invariant holds again and all else is unchanged. |
| Broker.Broker.RemoveTopic | server/quashserver/quashserver.go:107-113 | Exactly that topic is gone with all its mailboxes; a missing one is no error. |
| Broker.Broker.AddSubscriber | server/quashserver/quashserver.go:115-129 | Succeeds if and only if the topic exists; then the id has a new empty mailbox, disjoint from all others. |
| Broker.Broker.RemoveSubscriber | server/quashserver/quashserver.go:131-139 | Exactly that mailbox is gone; a missing topic or id is no error. |
| Broker.Broker.PushTo | server/quashserver/quashserver.go:152-154 | One iteration of the broadcast appends to exactly one mailbox and keeps the whole heap invariant. |
| Broker.Broker.Publish | server/quashserver/quashserver.go:150-155 | For any order of the subscribers each mailbox of the topic gets one copy at its end, no other mailbox changes, and an unknown topic changes nothing. |
| Broker.Broker.Consume | server/quashserver/quashserver.go:174-185 | What is sent, lost and left, and whether it succeeds, by the place of the first Send that fails, be it the last one; all other mailboxes unchanged. |
| Broker.Broker.Snapshot | server/quashserver/quashserver.go:31-39 | Exactly the topics, exactly the subscriptions of each, and the true length of each mailbox; nothing is changed. |
| Broker.Broker.CountTopic | server/quashserver/quashserver.go:35-37 | The inner loop lists exactly the subscriptions of one topic with the true lengths. |
| BrokerSpec.PublishStep | server/quashserver/quashserver.go:152-154 | One more subscriber served, whichever it is, brings the broadcast from one intermediate state to the next. |
| BrokerSpec.PublishEnds | server/quashserver/quashserver.go:150-155 | The intermediate states start at the old mailboxes and end at the completed broadcast: the order leaves no trace. |
| BrokerSpec.DrainStep | server/quashserver/quashserver.go:178-182 | Popping the first of what is left after i values yields value i and leaves what is left after i + 1. |
| BrokerSpec.DrainRunIsAllowed | server/quashserver/quashserver.go:177-184 | A drain that fails at any value, or nowhere, sends an initial part of the mailbox, loses at most the next value, and loses none exactly when it completes. |
| BrokerSpec.DrainStopsAtTheFailure | server/quashserver/quashserver.go:177-184 | A drain stops exactly at the first Send that fails, losing that value, and is successful if and only if there is none. |
| BrokerServer.ConsumeExtends | server/quashserver/quashserver.go:174-184 | A Consume extends a legal run to a legal run; it leaves the lock taken exactly when its drain does not complete. |
| BrokerServer.Server.CreateTopic | server/quashserver/quashserver.go:96-105 | The heap broker stays the replay of a legal log, extended by this section with its true outcome. |
| BrokerServer.Server.RemoveTopic | server/quashserver/quashserver.go:107-113 | The log grows by this removal, which cannot fail, and the heap is still its replay. |
| BrokerServer.Server.AddSubscriber | server/quashserver/quashserver.go:115-129 | The log grows by this registration, recorded as failed exactly when the topic is missing, and the heap is still its replay. |
| BrokerServer.Server.RemoveSubscriber | server/quashserver/quashserver.go:131-139 | The log grows by this removal, which cannot fail, and the heap is still its replay. |
| BrokerServer.Server.Publish | server/quashserver/quashserver.go:150-155 | The log grows by one broadcast of this value, the heap is still its replay, and the lock is free again. |
| BrokerServer.Server.Consume | server/quashserver/quashserver.go:174-187 | The log grows by this drain with what it sent and lost by the place of the failing Send, the heap is still its replay, and the lock is left taken if and only if a Send failed. |
| BrokerServer.Server.Snapshot | server/quashserver/quashserver.go:31-39 | The log grows by these counts, so that SnapshotIsTrue applies to them, and the heap is still its replay. |
| BrokerServer.Server.ListIsWhatIsOwed | server/quashserver/quashserver.go:115-188 | The linked list that hangs at a name, behind what was taken from it, is what was published to the topic since the registration. |
| BrokerRuns.StartIsTheLastRegistration | server/quashserver/quashserver.go:115-129 | A live subscription stems from its last successful registration, and nothing since ended or replaced it. |
| BrokerRuns.RegistrationLasts | server/quashserver/quashserver.go:115-139 | A registration on an existing topic is live until RemoveTopic, RemoveSubscriber or a registration under the same id ends it, whatever else happens. |
| BrokerRuns.TopicExistsWhen | server/quashserver/quashserver.go:96-113 | In every run a topic exists if and only if it was created and not removed since. |
| BrokerRuns.SuccessIsReported | server/quashserver/quashserver.go:99-121 | CreateTopic reports success if and only if the topic had not been created and kept, AddSubscriber if and only if it had. |
| BrokerRuns.ConsumeTakesTheFront | server/quashserver/quashserver.go:174-185 | In every run a Consume takes the front of the mailbox in order and leaves the rest; without a loss it leaves nothing. |
| BrokerRuns.MailboxStep | server/quashserver/quashserver.go:96-188 | No section changes a mailbox it does not end other than by taking from its front and adding at its back what it publishes. |
| BrokerRuns.EachIsAllowed | server/quashserver/quashserver.go:96-188 | Every event of a run has the outcome its section produces from the mailboxes at that point. |
| BrokerRuns.Delivery | server/quashserver/quashserver.go:115-188 | In every run: what was popped for a live subscription, followed by what it has waiting, is what was published to its topic since its registration, in that order. |
| BrokerRuns.OnlyTheLastIsLost | server/quashserver/quashserver.go:178-182 | What was taken is what was delivered, but for at most one value, in a failed Send that ends the run. |
| BrokerRuns.ExactlyOnce | server/quashserver/quashserver.go:115-188 | Delivered, lost and waiting values together are the values published since registration, each once and in order. |
| BrokerRuns.TotalOrder | server/quashserver/quashserver.go:150-155 | Of two live subscriptions of a topic, the history of the later one is a suffix of the history of the earlier one. |
| BrokerRuns.PublisherEmbeds | server/quashserver/quashserver.go:141-163 | The values of one publisher stand in what was published to a topic at increasing places. |
| BrokerRuns.PublisherOrderIsKept | server/quashserver/quashserver.go:141-163 | The values of one publisher since the registration occur in the subscriber's history in their own order. |
| BrokerRuns.PublishedHasItsPlace | server/quashserver/quashserver.go:150-155 | Each published value stands in the history of every older subscription, right behind what was published to it before. |
| BrokerRuns.TopicsAreIndependent | server/quashserver/quashserver.go:96-188 | At every moment of every run a topic is what its own sections alone make it, and those alone are a legal run with the same outcomes. |
| BrokerRuns.HistoriesAreIndependent | server/quashserver/quashserver.go:96-188 | Steps on other topics alter no history of this one: it is the history that its own sections alone make. |
| BrokerRuns.IncarnationsAreIsolated | server/quashserver/quashserver.go:107-113 | Nothing published before a RemoveTopic reaches a subscription that is live after it, whatever is created again under the same names. |
| BrokerRuns.SnapshotIsTrue | server/quashserver/quashserver.go:31-39 | A Snapshot in a run lists the live subscriptions, each with the number of values published to it and not yet taken. |
| Conservation.SumPlusOneEach | server/quashserver/quashserver.go:152-154 | One more in each of the boxes is as many more as there are boxes, in any order. |
| Conservation.TopicAfterBroadcast | server/quashserver/quashserver.go:150-155 | A broadcast adds as many values as the topic has subscribers. |
| Conservation.Balance | server/quashserver/quashserver.go:96-188 | Each section changes the total by the copies it makes less what it takes or discards. |
| Conservation.Conserved | server/quashserver/quashserver.go:96-188 | In every run: all queued values + all taken + all discarded == all copies ever made. |
| KvSpec.CollectStep | server/quashserver/quashserver.go:198-202 | One key visited, whichever it is, brings the pass from one intermediate map to the next; what is still to be visited is still there. |
| KvStore.KvStore.SetKV | server/quashserver/quashserver.go:61-71 | Exactly this entry is stored, stamped under the lock, with the wrapped time-out; the map stays the replay of a legal log. |
| KvStore.KvStore.GetKV | server/quashserver/quashserver.go:73-87 | Answers what the map shows at the earlier clock reading, drops the entry if and only if it is expired, changes nothing else. |
| KvStore.KvStore.DeleteKV | server/quashserver/quashserver.go:89-94 | Exactly this key is gone. |
| KvStore.KvStore.Collect | server/quashserver/quashserver.go:196-203 | A pass that deletes from the map it ranges over, in any order, keeps exactly the entries whose deadline is not before its clock reading. |
| KvStore.KvStore.Length | server/quashserver/quashserver.go:27-29 | The true size of the map at that moment. |
| KvRuns.SweptAwayMeans | server/quashserver/quashserver.go:82-85 | An entry counts as swept exactly when some one lookup or pass after its SetKV found it expired. |
| KvRuns.ConcreteIsReferenceLessSwept | server/quashserver/quashserver.go:61-94 | The map is the never-deleting store less the entries that a lookup or a pass found expired. |
| KvRuns.SweptMeansExpired | server/quashserver/quashserver.go:196-203 | Whatever was removed on expiry is expired at the latest clock reading made so far. |
| KvRuns.Sandwich | server/quashserver/quashserver.go:82-85 | The map lies between the live part of the never-deleting store and all of it. |
| KvRuns.LastSetIsTheLastWrite | server/quashserver/quashserver.go:64-68 | The reference store's entry is the one of the last SetKV, not written since. |
| KvRuns.SetIsRemembered | server/quashserver/quashserver.go:64-68 | What was set and not written since is what the reference store holds. |
| KvRuns.MissIsTrueUnderTheLock | server/quashserver/quashserver.go:78-85 | A miss agrees with the never-deleting store at the moment the lock is held. |
| KvRuns.HitIsExplained | server/quashserver/quashserver.go:75-86 | A hit returns an entry that the never-deleting store shows at one moment between the clock reading and the answer - the reading, or after a SetKV that came later, no earlier than the reading - if and only if the time-out is not negative or the entry is older than the reading. |
| KvRuns.NothingExplains | server/quashserver/quashserver.go:75-86 | The other half: no point in between shows an entry with negative time-out set after the reading. |
| KvRuns.NegativeTimeOutIsRead | server/quashserver/quashserver.go:75-86 | A run in which an entry that is expired from the start is returned. |
| KvRuns.LookupAgreesUnlessOvertaken | server/quashserver/quashserver.go:75-86 | A lookup answers as the never-deleting store would at the same reading, if and only if no sweep overtook it. |
| KvRuns.UpToDateIsNotOvertaken | server/quashserver/quashserver.go:194-206 | No sweep overtakes a lookup whose reading is as late as every reading under the lock. |
| KvRuns.ReferenceIsReplayOfWrites | server/quashserver/quashserver.go:61-94 | The reference store is what the SetKV and DeleteKV calls alone make. |
| KvRuns.WritesAreARun | server/quashserver/quashserver.go:61-94 | A run with its collections and lookups left out is still a run. |
| KvRuns.DeletionIsUnobservable | server/quashserver/quashserver.go:194-206 | Collections and lookups, inserted or removed anywhere in a run, change no up-to-date lookup. |
| KvRuns.CollectionIsObserved | server/quashserver/quashserver.go:75-76 | Two runs that differ in one collection between clock reading and lock: a hit in one, a miss in the other. |
| KvRuns.NoReappearance | server/quashserver/quashserver.go:82-85 | Once a key is gone it stays gone until it is set again, whatever else happens. |
| KvRuns.TimeOutIsTheInt64Product | server/quashserver/quashserver.go:67 | The time-out is the one int64 that agrees with seconds times 10^9 modulo 2^64. |
| KvRuns.ProductIsExact | server/quashserver/quashserver.go:67 | The int64 product of seconds and nanoseconds is exact if and only if the seconds lie within 9223372036 of zero. |
| KvRuns.TimeToLive | server/quashserver/quashserver.go:64-82 | A key is readable for exactly the seconds given, if and only if they do not exceed 9223372036 and, when negative, their product lies in the upper half of the residues modulo 2^64. |
| KvRuns.TooLongIsTooShort | server/quashserver/quashserver.go:67 | A time-out of 9223372037 seconds has expired when it is stored. |
| KvRuns.TooShortIsTooLong | server/quashserver/quashserver.go:67 | A time-out of -9223372037 seconds keeps the key readable for more than 9223372036 seconds. |
| KvRuns.ReadableWindow | server/quashserver/quashserver.go:64-86 | In a run, an up-to-date lookup finds a key exactly from its stamp to the last nanosecond of its time to live. |
| KvRuns.ReadableUntilItsDeadline | server/quashserver/quashserver.go:61-86 | The same, said of the SetKV that stored the key. |
| KvRuns.ReadsTheLastWrite | server/quashserver/quashserver.go:61-87 | In every run a GetKV that answers by the deadline of the last SetKV returns its value, one whose clock reading is later returns nothing, and none returns another value. |
| KvRuns.NothingIsReadWithoutASet | server/quashserver/quashserver.go:78-81 | A key that was never set, or deleted and not set since, is not found. |
| KvRuns.PassesCompose | server/quashserver/quashserver.go:196-203 | A pass is idempotent, and two passes are the one at the later reading. |
| ServerRuns.BrokersUntouched | server/quashserver/quashserver.go:19-24 | A handler that does not hold brokersLock does not disturb what it protects. |
| ServerRuns.KvHolderKeepsInv | server/quashserver/quashserver.go:61-87 | What the holder of kvLock does, stage by stage, disturbs neither waiting lookups nor the brokers. |
| ServerRuns.ActKvMoves | server/quashserver/quashserver.go:61-94 | Each handler's section under kvLock takes effect as its event says, with clock readings in order. |
| ServerRuns.CollectionEnds | server/quashserver/quashserver.go:196-203 | A pass interrupted between any two keys still ends as one sweep at its clock reading. |
| ServerRuns.ActBrokersMoves | server/quashserver/quashserver.go:96-188 | Under brokersLock every first step either starts or completes its section as its event says, or is a Consume of an unknown subscription. |
| ServerRuns.PushMoves | server/quashserver/quashserver.go:152-154 | The mailbox an iteration of Publish pushes to is there: no nil is dereferenced. |
| ServerRuns.PopMoves | server/quashserver/quashserver.go:177-178 | The mailbox is not empty when Consume pops from it: no nil is dereferenced. |
| ServerRuns.SendMoves | server/quashserver/quashserver.go:179-183 | A Send that fails ends the section with one value lost and the lock still held. |
| ServerRuns.StepKeepsInv | server/quashserver/quashserver.go:26-206 | Every step of every handler keeps the invariant that ties locks, map, mailboxes and both logs together. |
| ServerRuns.RunKeepsInv | server/quashserver/quashserver.go:26-206 | So does every interleaving. |
| ServerProgress.KvHolderProgresses | server/quashserver/quashserver.go:61-94 | Whatever step the holder of kvLock takes, it unlocks or has less left to do: keys left in a pass. |
| ServerProgress.BrHolderProgresses | server/quashserver/quashserver.go:96-188 | The same for brokersLock when Sends succeed: subscribers left in Publish, values left in Consume, topics and subscribers left in Snapshot. |
| ServerProgress.KvLockIsReleased | server/quashserver/quashserver.go:61-94 | From every reachable state the holder of kvLock alone can run on until it unlocks. |
| ServerProgress.BrokersLockIsReleased | server/quashserver/quashserver.go:96-188 | So can the holder of brokersLock, unless it is stuck. |
| ServerProgress.StuckForever | server/quashserver/quashserver.go:179-183 | Once brokersLock is leaked, the mailboxes never change again, in any continuation. |
| ServerProgress.ReleasableUnlessStuck | server/quashserver/quashserver.go:174-187 | brokersLock can be released if and only if its holder neither had a failed Send nor is about to dereference nil. |
| ServerProgress.EveryoneGetsIn | server/quashserver/quashserver.go:26-206 | No deadlock: every handler under way can take a step, or be let in by the one that holds the lock it waits for. |
| Requests.EachRequestIsServed | server/quashserver/quashserver.go:61-188 | In every interleaving, a call that returns has added exactly the one event its request asks for, with the arguments of the request, the number of its Sends, and clock readings made between request and return; Snapshot one to either log; without unlocking if and only if a Send failed. |
| Requests.NoRequestIsServedTwice | server/quashserver/quashserver.go:61-188 | At no moment has a call added more than that. |
| Requests.EachRequestCanBeServed | server/quashserver/quashserver.go:26-188 | Whatever the others are doing, an idle handler can take any request and bring it to its return, unless brokersLock is stuck or the request is a Consume that brings the server down. |
| Guarantees.MutualExclusion | server/quashserver/quashserver.go:19-24 | In every reachable state no two handlers hold the same mutex and none holds both. |
| Guarantees.SectionsAreAtomic | server/quashserver/quashserver.go:26-206 | Every interleaving is one order of whole sections with true outcomes, and a free mutex protects exactly what they make. |
| Guarantees.CrashMeansUnknownSubscription | server/quashserver/quashserver.go:175-176 | From every reachable state a step brings the server down if and only if it is the one in which Consume looks at the mailbox of a subscription that does not exist. |
| Guarantees.UnknownSubscriptionCrashes | server/quashserver/quashserver.go:174-176 | A run of three steps that brings the server down. |
| Guarantees.SendMayFail | server/quashserver/quashserver.go:178-182 | A run after which brokersLock is leaked. |
| Guarantees.ExactlyOnceInOrder | server/quashserver/quashserver.go:115-188 | In every interleaving, whenever brokersLock is free: delivered followed by waiting is published since registration. |
| Guarantees.FailedSendLosesOne | server/quashserver/quashserver.go:178-182 | After a failed Send exactly the value in flight is missing between what was delivered and what is left. |
| Guarantees.NothingLeaks | server/quashserver/quashserver.go:96-188 | Conservation in every interleaving. |
| Guarantees.LookupsAreLinearizable | server/quashserver/quashserver.go:73-87 | In every interleaving each GetKV call leaves one answer, with the clock read after it came in, as a store that never deletes would answer at one moment between the request and its return, where a SetKV counts from its stamp; the one exception is stated exactly. |
| Guarantees.PublishedIsDelivered | server/quashserver/quashserver.go:141-163 | In every interleaving, when a Publish call comes to its acknowledgement, its value stands at its place in the history of every subscription registered before its section and not ended. |
| Guarantees.ReportsFit | server/quashserver/quashserver.go:27-41 | A Snapshot carries to its return the size and the counts it read, both read after the call came in, whatever happens meanwhile. |
| Guarantees.SnapshotTellsTheTruth | server/quashserver/quashserver.go:26-51 | In every interleaving Snapshot returns the true size of the map at one moment of the call and, at one moment of the call, all topics, all subscriptions and what each has waiting. |
| Guarantees.SizeIsBetween | server/quashserver/quashserver.go:27-29 | The size is off by expired entries only. |
| PublishStream.StepKeepsInv | client/client.go:138-165 | Every step of client, server or any other handler keeps the state of the exchange in one of its four phases. |
| PublishStream.Lockstep | client/client.go:138-153 | At most one request is outstanding, acknowledgement k is for value k, the caller is given them in order, and no value is acknowledged before its critical section is in the broker's log. |
| PublishStream.AllAcknowledged | client/client.go:154-165 | When the client returns, every value was published once and in order and every one was acknowledged. |
| PublishStream.LogIsAccountedFor | client/client.go:138-153 | Apart from what others do, the log grows by the values of the stream, each published once to its topic, and by nothing else. |
| PublishStream.RankFalls | client/client.go:138-165 | Every step of the exchange leaves fewer to come; what other handlers do does not add any. |
| PublishStream.Terminates | client/client.go:138-165 | The exchange takes at most six steps a value and three more, among any steps of others. |
| PublishStream.StopsOnlyAtTheEnd | client/client.go:138-165 | It stops if and only if both sides are done, brokersLock was leaked while the server had a value in hand, or the caller's channel has accepted all the acknowledgements it ever will and the client has another. |
| PublishStream.AckMeansEverySubscriberHasIt | server/quashserver/quashserver.go:150-161 | Every live subscription, whenever it was registered, has had every value of the stream put into its mailbox, in stream order, but for exactly those that entered before its registration. |
| PublishStream.AckedIsSentOrWaiting | server/quashserver/quashserver.go:150-188 | Each of those has been sent to the subscriber or waits for it, unless brokersLock was leaked, and then all but at most one. |
| PublishStream.AckedCanBeLost | server/quashserver/quashserver.go:178-182 | A run in which a value is acknowledged and then lost to the only subscriber there is. |
| ConsumeStream.StepKeepsInv | client/client.go:189-210 | Whatever client, server or any other handler does: what the server has popped and sent is, in order, with the caller, with the client or on its way, and what it drains is the broker's mailbox. |
| ConsumeStream.RunKeepsInv | client/client.go:189-210 | So does every run. |
| ConsumeStream.HandsOverTheMailbox | client/client.go:199-210 | The caller is handed, in order, what waited in the mailbox when the lock was taken; when the client has returned, all of it has been handed over, or received for a nil channel, and with what was delivered before it is everything published since the registration. |
| ConsumeStream.FailsWithoutSubscription | server/quashserver/quashserver.go:175-176 | A call fails, and brings the server down, only where there is no such subscription. |
| ConsumeStream.OneEventOfItsOwn | server/quashserver/quashserver.go:174-187 | Apart from what others do, the log grows by one event of the call, when its handler returns, and by nothing else. |
| ConsumeStream.DoneCountsAll | client/client.go:189-210 | How far a call has come is the number of its own steps, whatever others did. |
| ConsumeStream.Terminates | client/client.go:189-210 | A call takes at most five steps and three for each value it takes out, among any steps of others. |
| ConsumeStream.StopsWhere | client/client.go:199-210 | It stops if and only if the client has returned, the server waits for a leaked brokersLock, or the client waits for a channel that accepts no more, with the server done or waiting in Send. |
| ConsumeStream.ReturnsWhen | client/client.go:168-211 | Left to itself, from any state, the call returns if and only if brokersLock is not leaked before the handler has it and the caller passed nil or a channel that accepts, by its capacity and the receives made from it, all that waits in the mailbox. |
| ConsumeStream.CanReturnUnlessDoomed | client/client.go:168-211 | Whatever others do, it can still return if and only if the lock is not leaked before the handler has it, and the channel accepts all that the handler found. |
| ConsumeStream.StalledIsForEver | server/quashserver/quashserver.go:177-184 | When the client waits for its channel and the server, holding brokersLock, for the client, nothing can happen any more to the broker. |
| ConsumeStream.StallsWhen | server/quashserver/quashserver.go:174-184 | A call left to itself ends so if and only if it gets the lock and more messages wait than channel, client and transport can hold together. |

## Left out

- Connections, protobuf encoding, start-up, shutdown and the admin page: no logic of the broker or the store.
- The memory and CPU figures in Snapshot: calls into the operating system.
- Errors of `Recv` on the server, and of `Send` or `Recv` on the client: each only returns, without touching shared state. A failed `Send` in `Consume`, which does touch it, is modelled.
- Response texts and logging; an acknowledgement is the pair of value and topic that its text is made of.
- The `init_time` field of requests, which the server ignores, and `memoryDump`, which is empty.
- The sleep between collections: a collection may start at any time, which includes every schedule with sleeps.
- The mutex of the client package, which keeps one process from making two calls at a time, and the unary client calls, which only forward.
- Overflow of `Counter`, of instants and of memory.
- Fairness of the mutexes: progress is stated as the existence of a run of the lock's holder alone, together with a measure that falls on each of its steps.
- In `PublishStream` and `ConsumeStream`, a server brought down by another client's Consume of an unknown subscription while the exchange goes on.
- The transport's flow control counts bytes; `ConsumeStream` counts messages, as many as its `window`. `ServerMachine` lets every Send return: a Send that waits is a handler that takes no step. The lockstep of `PublishStream` never has more than one message on its way.
- ServerMachine works on values: the steps of its handlers change sequences, and it is the class `Broker` that proves the same sections over heap lists. The two meet in `BrokerSpec`.
- utils.SubscriptionID: the id is a parameter about which nothing is assumed.
