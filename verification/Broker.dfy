/**
 * The event broker as an interleaved step system. Publishing holds the read lock while it
 * visits subscribers one at a time, so several publishers and all receivers interleave;
 * subscribing and unsubscribing need the write lock, so they wait until nobody publishes.
 * The logs of received and dropped messages are history the code does not keep.
 */
module Broker {
  import opened Common
  import Sse

  const CAPACITY := 16

  /** `seqNo` numbers the publications of one publisher. */
  datatype Message = Message(publisher: nat, seqNo: nat, tenant: string, event: Sse.Event)

  /** A message not enqueued, with the queue length met. */
  datatype Drop = Drop(msg: Message, queued: nat)

  datatype Subscriber = Subscriber(tenant: string, open: bool, queue: seq<Message>, received: seq<Message>,
                                   dropped: seq<Drop>)
  {
    /** Everything enqueued so far, in order. */
    function Got(): seq<Message> {
      received + queue
    }
  }

  /** A publication under way: the subscribers it found and those still to visit. */
  datatype Publication = Publication(msg: Message, targets: set<nat>, remaining: set<nat>)

  datatype State = State(registered: set<nat>, subs: map<nat, Subscriber>, inFlight: map<nat, Publication>,
                         issued: map<nat, nat>, completed: seq<Publication>, panicked: bool)

  const INITIAL := State({}, map[], map[], map[], [], false)

  function Issued(s: State, p: nat): nat {
    if p in s.issued then s.issued[p] else 0
  }

  datatype Step =
    | Subscribe(id: nat, tenant: string)
    | Unsubscribe(id: nat)
    | Begin(p: nat, tenant: string, event: Sse.Event)
    | Send(p: nat, id: nat)
    | End(p: nat)
    | Receive(id: nat)

  predicate Enabled(s: State, step: Step) {
    match step
    case Subscribe(id, _) => id !in s.subs && s.inFlight == map[]
    case Unsubscribe(id) => id in s.subs && s.inFlight == map[]
    case Begin(p, _, _) => p !in s.inFlight
    case Send(p, id) => p in s.inFlight && id in s.inFlight[p].remaining && id in s.subs
    case End(p) => p in s.inFlight && s.inFlight[p].remaining == {}
    case Receive(id) => id in s.subs && s.subs[id].queue != []
  }

  /** A non-blocking send: enqueue, or drop when the queue is full. */
  function Offer(sub: Subscriber, m: Message): Subscriber {
    if sub.tenant != m.tenant then sub
    else if |sub.queue| < CAPACITY then sub.(queue := sub.queue + [m])
    else sub.(dropped := sub.dropped + [Drop(m, |sub.queue|)])
  }

  function Apply(s: State, step: Step): State
    requires Enabled(s, step)
  {
    match step
    case Subscribe(id, tenant) =>
      s.(registered := s.registered + {id}, subs := s.subs[id := Subscriber(tenant, true, [], [], [])])
    case Unsubscribe(id) =>
      if id !in s.registered then s
      else s.(registered := s.registered - {id}, subs := s.subs[id := s.subs[id].(open := false)])
    case Begin(p, tenant, event) =>
      var m := Message(p, Issued(s, p), tenant, event);
      s.(inFlight := s.inFlight[p := Publication(m, s.registered, s.registered)],
         issued := s.issued[p := Issued(s, p) + 1])
    case Send(p, id) =>
      var pub := s.inFlight[p];
      // sending on a closed channel panics
      s.(subs := s.subs[id := Offer(s.subs[id], pub.msg)],
         inFlight := s.inFlight[p := pub.(remaining := pub.remaining - {id})],
         panicked := s.panicked || (s.subs[id].tenant == pub.msg.tenant && !s.subs[id].open))
    case End(p) =>
      s.(inFlight := s.inFlight - {p}, completed := s.completed + [s.inFlight[p]])
    case Receive(id) =>
      var sub := s.subs[id];
      s.(subs := s.subs[id := sub.(queue := sub.queue[1..], received := sub.received + [sub.queue[0]])])
  }

  // ----- the invariant -----

  /** Each publisher's messages appear in the order it published them, so none appears twice. */
  ghost predicate InOrder(ms: seq<Message>) {
    forall i, j :: 0 <= i < j < |ms| && ms[i].publisher == ms[j].publisher ==> ms[i].seqNo < ms[j].seqNo
  }

  ghost predicate WasDropped(sub: Subscriber, m: Message) {
    exists d :: d in sub.dropped && d.msg == m
  }

  /** A target of the same tenant either got the message or met a full queue. */
  ghost predicate Settled(sub: Subscriber, m: Message) {
    sub.tenant == m.tenant ==> m in sub.Got() || WasDropped(sub, m)
  }

  /** Messages from `p` seen by a subscriber are older than `bound`. */
  ghost predicate Before(sub: Subscriber, p: nat, bound: nat) {
    && (forall m :: m in sub.Got() && m.publisher == p ==> m.seqNo < bound)
    && (forall d :: d in sub.dropped && d.msg.publisher == p ==> d.msg.seqNo < bound)
  }

  ghost predicate SubscriberFine(sub: Subscriber) {
    && |sub.queue| <= CAPACITY
    && InOrder(sub.Got())
    && (forall m :: m in sub.Got() ==> m.tenant == sub.tenant)
    && (forall d :: d in sub.dropped ==> d.queued == CAPACITY && d.msg.tenant == sub.tenant && d.msg !in sub.Got())
  }

  ghost predicate PublicationFine(s: State, p: nat, pub: Publication) {
    && pub.msg.publisher == p && pub.msg.seqNo + 1 == Issued(s, p)
    && pub.remaining <= pub.targets <= s.registered
    && (forall id :: id in pub.targets && id !in pub.remaining && id in s.subs ==> Settled(s.subs[id], pub.msg))
    && (forall id :: id in pub.remaining && id in s.subs ==> Before(s.subs[id], p, pub.msg.seqNo))
  }

  /** Open queues are exactly the registered ones, and each subscriber's history is in order. */
  ghost predicate Basics(s: State) {
    && !s.panicked
    && s.registered <= s.subs.Keys
    && (forall id :: id in s.subs ==> (s.subs[id].open <==> id in s.registered))
    && (forall id :: id in s.subs ==> SubscriberFine(s.subs[id]))
  }

  ghost predicate Numbered(s: State) {
    forall id, p :: id in s.subs ==> Before(s.subs[id], p, Issued(s, p))
  }

  ghost predicate Publishing(s: State) {
    forall p :: p in s.inFlight ==> PublicationFine(s, p, s.inFlight[p])
  }

  ghost predicate Finished(s: State) {
    forall c, id :: c in s.completed && id in c.targets ==> id in s.subs && Settled(s.subs[id], c.msg)
  }

  ghost predicate Inv(s: State) {
    Basics(s) && Numbered(s) && Publishing(s) && Finished(s)
  }

  // ----- one subscriber -----

  lemma InOrderAppend(ms: seq<Message>, m: Message)
    requires InOrder(ms)
    requires forall x :: x in ms && x.publisher == m.publisher ==> x.seqNo < m.seqNo
    ensures InOrder(ms + [m])
  {
  }

  lemma OfferFine(sub: Subscriber, m: Message)
    requires SubscriberFine(sub) && Before(sub, m.publisher, m.seqNo)
    ensures SubscriberFine(Offer(sub, m)) && Settled(Offer(sub, m), m)
    ensures Before(Offer(sub, m), m.publisher, m.seqNo + 1)
    ensures forall p, b :: p != m.publisher && Before(sub, p, b) ==> Before(Offer(sub, m), p, b)
    ensures forall x :: Settled(sub, x) ==> Settled(Offer(sub, m), x)
    ensures Offer(sub, m).open == sub.open && Offer(sub, m).tenant == sub.tenant
  {
    var sub' := Offer(sub, m);
    if sub.tenant == m.tenant && |sub.queue| < CAPACITY {
      assert sub'.Got() == sub.Got() + [m];
      InOrderAppend(sub.Got(), m);
    } else if sub.tenant == m.tenant {
      assert Drop(m, |sub.queue|) in sub'.dropped;
      forall x | WasDropped(sub, x) ensures WasDropped(sub', x) {
        var d :| d in sub.dropped && d.msg == x;
        assert d in sub'.dropped;
      }
    }
  }

  /** Receiving moves a message between the two halves of what the subscriber got. */
  lemma ReceiveSame(sub: Subscriber)
    requires sub.queue != []
    ensures sub.(queue := sub.queue[1..], received := sub.received + [sub.queue[0]]).Got() == sub.Got()
  {
  }

  /** Two subscribers that agree on what they got and dropped agree on everything below. */
  lemma SameHistory(a: Subscriber, b: Subscriber)
    requires a.tenant == b.tenant && a.Got() == b.Got() && a.dropped == b.dropped
    ensures forall p, n :: Before(a, p, n) ==> Before(b, p, n)
    ensures forall m :: Settled(a, m) ==> Settled(b, m)
    ensures SubscriberFine(a) && |b.queue| <= CAPACITY ==> SubscriberFine(b)
  {
  }

  // ----- every step keeps the invariant -----

  /** Replacing one subscriber by one with at least the same history, in a state otherwise alike. */
  ghost predicate Carries(a: Subscriber, b: Subscriber) {
    && (forall p, n :: Before(a, p, n) ==> Before(b, p, n))
    && (forall m :: Settled(a, m) ==> Settled(b, m))
  }

  lemma ReplaceKeeps(s: State, id: nat, sub: Subscriber, registered: set<nat>)
    requires Inv(s) && id in s.subs && Carries(s.subs[id], sub) && SubscriberFine(sub)
    requires registered <= s.registered && s.registered - registered <= {id}
    requires registered != s.registered ==> s.inFlight == map[]
    requires sub.open <==> id in registered
    ensures Inv(s.(registered := registered, subs := s.subs[id := sub]))
  {
    hide Before, Settled, SubscriberFine;
    var s' := s.(registered := registered, subs := s.subs[id := sub]);
    assert forall x :: x != id ==> (x in registered <==> x in s.registered) by {
      assert forall x :: x in s.registered && x !in registered ==> x in s.registered - registered;
    }
    forall x, p | x in s'.subs ensures Before(s'.subs[x], p, Issued(s', p)) {
      assert Issued(s', p) == Issued(s, p);
      assert Before(s.subs[x], p, Issued(s, p));
    }
    forall p | p in s'.inFlight ensures PublicationFine(s', p, s'.inFlight[p]) {
      assert PublicationFine(s, p, s.inFlight[p]);
      assert Issued(s', p) == Issued(s, p);
    }
    forall c, x | c in s'.completed && x in c.targets ensures x in s'.subs && Settled(s'.subs[x], c.msg) {
      assert x in s.subs && Settled(s.subs[x], c.msg);
    }
  }

  lemma SubscribeKeeps(s: State, id: nat, tenant: string)
    requires Inv(s) && Enabled(s, Subscribe(id, tenant))
    ensures Inv(Apply(s, Subscribe(id, tenant)))
  {
    var s' := Apply(s, Subscribe(id, tenant));
    FreshSubscriber(tenant);
    hide Before, Settled, SubscriberFine;
    forall x, p | x in s'.subs ensures Before(s'.subs[x], p, Issued(s', p)) {
      assert Issued(s', p) == Issued(s, p);
    }
    forall c, x | c in s'.completed && x in c.targets ensures x in s'.subs && Settled(s'.subs[x], c.msg) {
      assert x in s.subs && Settled(s.subs[x], c.msg);
    }
  }

  lemma FreshSubscriber(tenant: string)
    ensures var sub := Subscriber(tenant, true, [], [], []);
      SubscriberFine(sub) && forall p, n :: Before(sub, p, n)
  {
  }

  lemma UnsubscribeKeeps(s: State, id: nat)
    requires Inv(s) && Enabled(s, Unsubscribe(id))
    ensures Inv(Apply(s, Unsubscribe(id)))
  {
    if id in s.registered {
      var sub := s.subs[id].(open := false);
      SameHistory(s.subs[id], sub);
      ReplaceKeeps(s, id, sub, s.registered - {id});
    }
  }

  lemma ReceiveKeeps(s: State, id: nat)
    requires Inv(s) && Enabled(s, Receive(id))
    ensures Inv(Apply(s, Receive(id)))
  {
    var sub := s.subs[id];
    var sub' := sub.(queue := sub.queue[1..], received := sub.received + [sub.queue[0]]);
    ReceiveSame(sub);
    SameHistory(sub, sub');
    ReplaceKeeps(s, id, sub', s.registered);
    assert Apply(s, Receive(id)) == s.(registered := s.registered, subs := s.subs[id := sub']);
  }

  lemma BeforeWeaker(sub: Subscriber, p: nat, n: nat, m: nat)
    requires Before(sub, p, n) && n <= m
    ensures Before(sub, p, m)
  {
  }

  lemma BeginKeeps(s: State, p: nat, tenant: string, event: Sse.Event)
    requires Inv(s) && Enabled(s, Begin(p, tenant, event))
    ensures Inv(Apply(s, Begin(p, tenant, event)))
  {
    hide Before, Settled, SubscriberFine;
    var s' := Apply(s, Begin(p, tenant, event));
    forall q ensures Issued(s', q) == if q == p then Issued(s, p) + 1 else Issued(s, q) {}
    forall x, q | x in s'.subs ensures Before(s'.subs[x], q, Issued(s', q)) {
      BeforeWeaker(s.subs[x], q, Issued(s, q), Issued(s', q));
    }
    forall q | q in s'.inFlight ensures PublicationFine(s', q, s'.inFlight[q]) {
      if q != p { assert PublicationFine(s, q, s.inFlight[q]); }
    }
  }

  lemma EndKeeps(s: State, p: nat)
    requires Inv(s) && Enabled(s, End(p))
    ensures Inv(Apply(s, End(p)))
  {
    hide Before, Settled, SubscriberFine;
    var s' := Apply(s, End(p));
    assert PublicationFine(s, p, s.inFlight[p]);
    forall x, q | x in s'.subs ensures Before(s'.subs[x], q, Issued(s', q)) {
      assert Before(s.subs[x], q, Issued(s, q));
    }
    forall q | q in s'.inFlight ensures PublicationFine(s', q, s'.inFlight[q]) {
      assert PublicationFine(s, q, s.inFlight[q]);
    }
    forall c, x | c in s'.completed && x in c.targets ensures x in s'.subs && Settled(s'.subs[x], c.msg) {
      if c in s.completed { assert x in s.subs && Settled(s.subs[x], c.msg); }
    }
  }

  lemma SendKeeps(s: State, p: nat, id: nat)
    requires Inv(s) && Enabled(s, Send(p, id))
    ensures Inv(Apply(s, Send(p, id)))
  {
    hide Basics, Numbered, Publishing, Finished, Apply;
    SendKeepsBasics(s, p, id);
    SendKeepsNumbers(s, p, id);
    SendKeepsPublishing(s, p, id);
    SendKeepsFinished(s, p, id);
  }

  lemma SendKeepsBasics(s: State, p: nat, id: nat)
    requires Inv(s) && Enabled(s, Send(p, id))
    ensures Basics(Apply(s, Send(p, id)))
  {
    SendSubscriber(s, p, id);
    hide SubscriberFine, Offer, Numbered, Publishing, Finished;
  }

  lemma SendKeepsNumbers(s: State, p: nat, id: nat)
    requires Inv(s) && Enabled(s, Send(p, id))
    ensures Numbered(Apply(s, Send(p, id)))
  {
    hide Before, SubscriberFine, Offer, PublicationFine, Finished;
    var s' := Apply(s, Send(p, id));
    forall x, q | x in s'.subs ensures Before(s'.subs[x], q, Issued(s', q)) { SendBefore(s, p, id, x, q); }
  }

  lemma SendKeepsPublishing(s: State, p: nat, id: nat)
    requires Inv(s) && Enabled(s, Send(p, id))
    ensures Publishing(Apply(s, Send(p, id)))
  {
    hide Numbered, SubscriberFine, Offer, PublicationFine, Finished;
    var s' := Apply(s, Send(p, id));
    forall q | q in s'.inFlight ensures PublicationFine(s', q, s'.inFlight[q]) { SendPublications(s, p, id, q); }
  }

  lemma SendKeepsFinished(s: State, p: nat, id: nat)
    requires Inv(s) && Enabled(s, Send(p, id))
    ensures Finished(Apply(s, Send(p, id)))
  {
    hide Numbered, Settled, SubscriberFine, Offer, PublicationFine;
    var s' := Apply(s, Send(p, id));
    forall c, x | c in s'.completed && x in c.targets ensures x in s'.subs && Settled(s'.subs[x], c.msg) {
      SendSettled(s, p, id, x, c.msg);
    }
  }

  lemma SendSubscriber(s: State, p: nat, id: nat)
    requires Inv(s) && Enabled(s, Send(p, id))
    ensures SubscriberFine(Offer(s.subs[id], s.inFlight[p].msg))
    ensures Offer(s.subs[id], s.inFlight[p].msg).open == s.subs[id].open && s.subs[id].open
  {
    assert PublicationFine(s, p, s.inFlight[p]);
    OfferFine(s.subs[id], s.inFlight[p].msg);
  }

  lemma SendBefore(s: State, p: nat, id: nat, x: nat, q: nat)
    requires Enabled(s, Send(p, id)) && x in s.subs && SubscriberFine(s.subs[id])
    requires PublicationFine(s, p, s.inFlight[p]) && Before(s.subs[x], q, Issued(s, q))
    ensures Before(Apply(s, Send(p, id)).subs[x], q, Issued(Apply(s, Send(p, id)), q))
  {
  }

  lemma SendSettled(s: State, p: nat, id: nat, x: nat, m: Message)
    requires Enabled(s, Send(p, id)) && x in s.subs && SubscriberFine(s.subs[id])
    requires PublicationFine(s, p, s.inFlight[p]) && Settled(s.subs[x], m)
    ensures Settled(Apply(s, Send(p, id)).subs[x], m)
  {
  }

  /** A send settles its own target and leaves every other publication as it was. */
  lemma SendPublications(s: State, p: nat, id: nat, q: nat)
    requires Enabled(s, Send(p, id)) && q in s.inFlight && SubscriberFine(s.subs[id])
    requires PublicationFine(s, p, s.inFlight[p]) && PublicationFine(s, q, s.inFlight[q])
    ensures PublicationFine(Apply(s, Send(p, id)), q, Apply(s, Send(p, id)).inFlight[q])
  {
    var s', pub := Apply(s, Send(p, id)), s.inFlight[p];
    OfferFine(s.subs[id], pub.msg);
    hide Before, Settled, SubscriberFine, Offer;
    assert Issued(s', q) == Issued(s, q);
  }

  lemma StepKeeps(s: State, step: Step)
    requires Inv(s) && Enabled(s, step)
    ensures Inv(Apply(s, step))
  {
    hide Inv;
    match step
    case Subscribe(id, tenant) => SubscribeKeeps(s, id, tenant);
    case Unsubscribe(id) => UnsubscribeKeeps(s, id);
    case Begin(p, tenant, event) => BeginKeeps(s, p, tenant, event);
    case Send(p, id) => SendKeeps(s, p, id);
    case End(p) => EndKeeps(s, p);
    case Receive(id) => ReceiveKeeps(s, id);
  }

  // ----- every interleaving -----

  /** A run: each step enabled where it is taken. */
  ghost predicate IsRun(steps: seq<Step>, states: seq<State>) {
    && |states| == |steps| + 1 && states[0] == INITIAL
    && forall i :: 0 <= i < |steps| ==> Enabled(states[i], steps[i]) && states[i + 1] == Apply(states[i], steps[i])
  }

  lemma {:induction false} EveryRun(steps: seq<Step>, states: seq<State>, i: nat)
    requires IsRun(steps, states) && i < |states|
    ensures Inv(states[i])
  {
    if i > 0 {
      EveryRun(steps, states, i - 1);
      StepKeeps(states[i - 1], steps[i - 1]);
    }
  }

  /**
   * Under every interleaving: no send on a closed queue, queues of at most 16, and each subscriber
   * gets only its tenant's messages, each at most once and in each publisher's order; a finished
   * publication missed a subscriber it found only because that subscriber's queue was full.
   */
  lemma BrokerSafe(steps: seq<Step>, states: seq<State>, i: nat, id: nat)
    requires IsRun(steps, states) && i < |states| && id in states[i].subs
    ensures !states[i].panicked
    ensures var sub := states[i].subs[id];
      && |sub.queue| <= 16
      && InOrder(sub.received) && NoDuplicates(sub.received)
      && (forall m :: m in sub.received ==> m.tenant == sub.tenant)
      && (forall c :: c in states[i].completed && id in c.targets && c.msg.tenant == sub.tenant ==>
            ((c.msg in sub.Got()) <==> !WasDropped(sub, c.msg)))
      && (forall d :: d in sub.dropped ==> d.queued == 16)
  {
    EveryRun(steps, states, i);
    var s, sub := states[i], states[i].subs[id];
    assert SubscriberFine(sub);
    forall a, b | 0 <= a < b < |sub.received| && sub.received[a].publisher == sub.received[b].publisher
      ensures sub.received[a].seqNo < sub.received[b].seqNo
    {
      assert sub.Got()[a] == sub.received[a] && sub.Got()[b] == sub.received[b];
    }
    forall m | m in sub.received ensures m.tenant == sub.tenant { assert m in sub.Got(); }
    forall c | c in s.completed && id in c.targets && c.msg.tenant == sub.tenant
      ensures (c.msg in sub.Got()) <==> !WasDropped(sub, c.msg)
    {
      assert Settled(sub, c.msg);
    }
  }

  /** A message is dropped by a step only when that step meets a full queue of the same tenant. */
  lemma DropsOnlyWhenFull(s: State, step: Step, id: nat)
    requires Enabled(s, step) && id in s.subs
    ensures id in Apply(s, step).subs
    ensures var before, after := s.subs[id], Apply(s, step).subs[id];
      after.dropped == before.dropped
      || (step.Send? && step.id == id && |before.queue| >= CAPACITY && before.tenant == s.inFlight[step.p].msg.tenant
          && after.dropped == before.dropped + [Drop(s.inFlight[step.p].msg, |before.queue|)])
  {
  }

  // ----- from publisher to browser -----

  function EventsOf(ms: seq<Message>): (es: seq<Sse.Event>)
    ensures |es| == |ms| && forall i :: 0 <= i < |ms| ==> es[i] == ms[i].event
  {
    seq(|ms|, i requires 0 <= i < |ms| => ms[i].event)
  }

  /** Only kinds the client knows are queued, received or being sent. */
  ghost predicate KnownOnly(s: State) {
    && (forall id, m :: id in s.subs && m in s.subs[id].Got() ==> Sse.KnownKind(m.event.kind))
    && (forall p :: p in s.inFlight ==> Sse.KnownKind(s.inFlight[p].msg.event.kind))
  }

  ghost predicate PublishesKnown(step: Step) {
    step.Begin? ==> Sse.KnownKind(step.event.kind)
  }

  lemma KnownStays(s: State, step: Step)
    requires Enabled(s, step) && KnownOnly(s) && PublishesKnown(step)
    ensures KnownOnly(Apply(s, step))
  {
    hide Sse.KnownKind;
    match step
    case Send(p, id) =>
      var sub, m := s.subs[id], s.inFlight[p].msg;
      assert Offer(sub, m).Got() == sub.Got() || Offer(sub, m).Got() == sub.Got() + [m];
    case Receive(id) => ReceiveSame(s.subs[id]);
    case _ =>
  }

  lemma {:induction false} KnownThroughout(steps: seq<Step>, states: seq<State>, i: nat)
    requires IsRun(steps, states) && i < |states| && forall st :: st in steps ==> PublishesKnown(st)
    ensures KnownOnly(states[i])
  {
    hide Apply, Enabled, PublishesKnown;
    if i > 0 {
      KnownThroughout(steps, states, i - 1);
      assert steps[i - 1] in steps;
      KnownStays(states[i - 1], steps[i - 1]);
    }
  }

  /**
   * Whatever the interleaving and however the connection cuts the text, the browser behind a
   * subscriber delivers exactly the events its queue handed over, in order.
   */
  lemma PublisherToBrowser(c: Sse.Codec, steps: seq<Step>, states: seq<State>, i: nat, id: nat, chunks: seq<string>)
    requires Sse.Lawful(c) && IsRun(steps, states) && i < |states| && id in states[i].subs
    requires forall st :: st in steps ==> PublishesKnown(st)
    requires Sse.Joined(chunks) == Sse.Print(c, EventsOf(states[i].subs[id].received))
    ensures Sse.Read(c, chunks) == Sse.Parsed(EventsOf(states[i].subs[id].received), "")
  {
    hide IsRun, Sse.Lawful, Sse.KnownKind, Sse.Print, Sse.Read, Sse.Joined, PublishesKnown;
    KnownThroughout(steps, states, i);
    var sub := states[i].subs[id];
    var es := EventsOf(sub.received);
    forall e | e in es ensures Sse.KnownKind(e.kind) {
      var k :| 0 <= k < |es| && es[k] == e;
      assert sub.received[k] in sub.Got();
    }
    Sse.RoundTrip(c, es, chunks);
  }

  // ----- who a publication reaches -----

  /** A publication under way keeps its message and the subscribers it found until its publisher ends it. */
  lemma InFlightStays(s: State, step: Step, p: nat)
    requires Enabled(s, step) && p in s.inFlight && step != End(p)
    ensures var s' := Apply(s, step);
      && p in s'.inFlight && s'.inFlight[p].msg == s.inFlight[p].msg && s'.inFlight[p].targets == s.inFlight[p].targets
  {
  }

  lemma SubscriberStays(s: State, step: Step, id: nat)
    requires Enabled(s, step) && id in s.subs
    ensures id in Apply(s, step).subs && Apply(s, step).subs[id].tenant == s.subs[id].tenant
  {
  }

  /** From its beginning to its end, a publication is under way with every subscriber registered at its beginning. */
  lemma {:induction false} UnderWay(steps: seq<Step>, states: seq<State>, b: nat, j: nat, p: nat, id: nat)
    requires IsRun(steps, states) && b < j <= |steps| && steps[b].Begin? && steps[b].p == p
    requires forall k :: b < k < j ==> steps[k] != End(p)
    requires id in states[b].registered && id in states[b].subs
    ensures var s := states[j];
      && p in s.inFlight && id in s.inFlight[p].targets
      && s.inFlight[p].msg == Message(p, Issued(states[b], p), steps[b].tenant, steps[b].event)
      && id in s.subs && s.subs[id].tenant == states[b].subs[id].tenant
  {
    hide Apply, Enabled;
    if j == b + 1 {
      BeginsWith(states[b], steps[b]);
      SubscriberStays(states[b], steps[b], id);
    } else {
      UnderWay(steps, states, b, j - 1, p, id);
      InFlightStays(states[j - 1], steps[j - 1], p);
      SubscriberStays(states[j - 1], steps[j - 1], id);
    }
  }

  lemma BeginsWith(s: State, step: Step)
    requires Enabled(s, step) && step.Begin?
    ensures var s' := Apply(s, step);
      && step.p in s'.inFlight && s.registered <= s'.inFlight[step.p].targets
      && s'.inFlight[step.p].msg == Message(step.p, Issued(s, step.p), step.tenant, step.event)
  {
  }

  /**
   * Over every run: a subscriber registered when a publication of its tenant begins has, when that
   * publication ends, got the message, or lost it to a queue of 16.
   */
  lemma PublicationReaches(steps: seq<Step>, states: seq<State>, b: nat, e: nat, p: nat, id: nat)
    requires IsRun(steps, states) && b < e < |steps| && steps[b].Begin? && steps[b].p == p && steps[e] == End(p)
    requires forall k :: b < k < e ==> steps[k] != End(p)
    requires id in states[b].registered && id in states[b].subs && states[b].subs[id].tenant == steps[b].tenant
    ensures id in states[e + 1].subs
    ensures var m := Message(p, Issued(states[b], p), steps[b].tenant, steps[b].event);
      var sub := states[e + 1].subs[id];
      m in sub.Got() || exists d :: d in sub.dropped && d.msg == m && d.queued == 16
  {
    EveryRun(steps, states, e);
    UnderWay(steps, states, b, e, p, id);
    var s := states[e];
    assert PublicationFine(s, p, s.inFlight[p]) && SubscriberFine(s.subs[id]);
    assert states[e + 1] == Apply(s, steps[e]) && states[e + 1].subs == s.subs;
  }

  /** Subscribed, and not unsubscribed since. */
  ghost predicate SubscribedBefore(steps: seq<Step>, i: nat, id: nat)
    requires i <= |steps|
  {
    exists j :: 0 <= j < i && steps[j].Subscribe? && steps[j].id == id
      && forall k :: j < k < i ==> steps[k] != Unsubscribe(id)
  }

  /** A subscriber is registered exactly from its subscription to its unsubscription. */
  lemma {:induction false} RegisteredExactly(steps: seq<Step>, states: seq<State>, i: nat, id: nat)
    requires IsRun(steps, states) && i < |states|
    ensures id in states[i].registered <==> SubscribedBefore(steps, i, id)
  {
    hide Apply, Enabled;
    if i > 0 {
      RegisteredExactly(steps, states, i - 1, id);
      RegisteredStep(states[i - 1], steps[i - 1], id);
      if steps[i - 1].Subscribe? && steps[i - 1].id == id {
        assert SubscribedBefore(steps, i, id);
      }
    }
  }

  lemma RegisteredStep(s: State, step: Step, id: nat)
    requires Enabled(s, step)
    ensures id in Apply(s, step).registered
      <==> (step.Subscribe? && step.id == id) || (id in s.registered && step != Unsubscribe(id))
  {
  }

  /** What a subscriber has got only grows at its end: its queue is first in, first out. */
  lemma GotGrows(s: State, step: Step, id: nat)
    requires Enabled(s, step) && id in s.subs
    ensures id in Apply(s, step).subs && s.subs[id].Got() <= Apply(s, step).subs[id].Got()
    ensures s.subs[id].received <= Apply(s, step).subs[id].received
  {
    if step.Receive? && step.id == id { ReceiveSame(s.subs[id]); }
  }
}
