/** The persistent alert outbox and its flush (src/adapters/tg/notifier.py, src/runtime/health/outbox.py). */
module AlertOutbox {
  import opened Wrappers

  // A flush is a sequence of steps, one per queued message; producers may enqueue between any two steps.
  // The process is not lost between a delivery and its acknowledgement.

  const RECEIPT_TTL := 30 * 86400
  const LIMIT: nat := 100

  datatype Target = Target(chat: int, thread: Option<int>)

  /** A queued message. `ticket` is its place in the history of everything ever queued. */
  datatype Message = Message(id: string, text: string, target: Target, attempts: nat, lastError: string, ticket: nat)

  /** What a producer handed over; its place among these is the ticket of the message. */
  datatype Accepted = Accepted(id: string, text: string, target: Target)

  /** A successful delivery. */
  datatype Delivery = Delivery(id: string, text: string, target: Target, at: int, ticket: nat)

  /** A flush under way over the messages it loaded. */
  datatype Flush = Flush(snapshot: seq<Message>, index: nat, blocked: set<Target>,
                         delivered: seq<Message>, known: seq<Message>, remaining: seq<Message>)

  /** The two files of the store, the flush that holds the lock, the clock, and the histories of what was queued and delivered. */
  datatype Outbox = Outbox(
    items: seq<Message>, receipts: map<string, int>, flush: Option<Flush>, clock: int,
    accepted: seq<Accepted>, deliveries: seq<Delivery>)

  /** What Telegram answers when it is asked, and how long that takes. */
  datatype Reply = Reply(elapsed: nat, ok: bool, error: string)

  const EMPTY := Outbox([], map[], None, 0, [], [])

  /** Only egress events leave receipts. */
  predicate Tracked(id: string) {
    "max-egress-" <= id
  }

  predicate Queued(items: seq<Message>, id: string) {
    exists m :: m in items && m.id == id
  }

  predicate Sent(deliveries: seq<Delivery>, id: string) {
    exists d :: d in deliveries && d.id == id
  }

  predicate QueuedAt(items: seq<Message>, ticket: nat) {
    exists m :: m in items && m.ticket == ticket
  }

  predicate SentAt(deliveries: seq<Delivery>, ticket: nat) {
    exists d :: d in deliveries && d.ticket == ticket
  }

  function Without(items: seq<Message>, id: string): (rest: seq<Message>)
    ensures forall m :: m in rest <==> m in items && m.id != id
  {
    if items == [] then []
    else (if items[0].id != id then [items[0]] else []) + Without(items[1..], id)
  }

  function Replaced(items: seq<Message>, message: Message): (r: seq<Message>)
    ensures |r| == |items|
    ensures forall i :: 0 <= i < |items| ==> r[i] == if items[i].id == message.id then message else items[i]
  {
    seq(|items|, i requires 0 <= i < |items| => if items[i].id == message.id then message else items[i])
  }

  /** A message that is queued already is not queued again. */
  function Enqueue(s: Outbox, id: string, text: string, target: Target): Outbox {
    if Queued(s.items, id) then s
    else s.(items := s.items + [Message(id, text, target, 0, "", |s.accepted|)], accepted := s.accepted + [Accepted(id, text, target)])
  }

  /** An egress event leaves a receipt, and receipts older than 30 days are dropped. */
  function Receipts(receipts: map<string, int>, id: string, now: int): map<string, int> {
    if Tracked(id) then (map k | k in receipts && receipts[k] > now - RECEIPT_TTL :: receipts[k])[id := now]
    else receipts
  }

  function Acknowledge(s: Outbox, id: string): Outbox {
    s.(items := Without(s.items, id), receipts := Receipts(s.receipts, id, s.clock))
  }

  function BeginFlush(s: Outbox): Outbox {
    s.(flush := Some(Flush(s.items, 0, {}, [], [], [])))
  }

  predicate Flushing(s: Outbox) {
    s.flush.Some?
    && s.flush.value.index < |s.flush.value.snapshot|
  }

  /** The message a flush has come to. */
  function Current(s: Outbox): Message
    requires Flushing(s)
  {
    s.flush.value.snapshot[s.flush.value.index]
  }

  function CutOff(s: Outbox): Outbox
    requires Flushing(s)
  {
    var f := s.flush.value;
    s.(flush := Some(f.(index := |f.snapshot|, remaining := f.remaining + f.snapshot[f.index..])))
  }

  function PassOver(s: Outbox): Outbox
    requires Flushing(s)
  {
    var f := s.flush.value;
    s.(flush := Some(f.(index := f.index + 1, remaining := f.remaining + [Current(s)])))
  }

  function Forget(s: Outbox): Outbox
    requires Flushing(s)
  {
    var f := s.flush.value;
    Acknowledge(s, Current(s).id).(flush := Some(f.(index := f.index + 1, known := f.known + [Current(s)])))
  }

  function Delivered(s: Outbox): Outbox
    requires Flushing(s)
  {
    var f, item := s.flush.value, Current(s);
    Acknowledge(s, item.id).(
    flush := Some(f.(index := f.index + 1, delivered := f.delivered + [item])),
    deliveries := s.deliveries + [Delivery(item.id, item.text, item.target, s.clock, item.ticket)])
  }

  function Failed(s: Outbox, error: string): Outbox
    requires Flushing(s)
  {
    var f, item := s.flush.value, Current(s);
    var failed := item.(attempts := item.attempts + 1, lastError := error);
    s.(items := Replaced(s.items, failed),
       flush := Some(f.(index := f.index + 1, remaining := f.remaining + [failed], blocked := f.blocked + {item.target})))
  }

  /** One step of a flush. */
  function FlushStep(s: Outbox, reply: Reply): Outbox
    requires Flushing(s)
  {
    var later := s.(clock := s.clock + reply.elapsed);
    if s.flush.value.index >= LIMIT then CutOff(later)
    else if Current(s).target in s.flush.value.blocked then PassOver(later)
    else if Current(s).id in s.receipts then Forget(later)
    else if reply.ok then Delivered(later)
    else Failed(later, reply.error)
  }

  datatype Action =
    | Produce(id: string, text: string, target: Target)
    | Begin
    | Step(reply: Reply)
    | End

  predicate Enabled(s: Outbox, a: Action) {
    match a
    case Produce(_, _, _) => true
    case Begin => s.flush.None?
    case Step(_) => Flushing(s)
    case End => s.flush.Some? && !Flushing(s)
  }

  function Apply(s: Outbox, a: Action): Outbox
    requires Enabled(s, a)
  {
    match a
    case Produce(id, text, target) => Enqueue(s, id, text, target)
    case Begin => BeginFlush(s)
    case Step(reply) => FlushStep(s, reply)
    case End => s.(flush := None)
  }

  /** The outbox after a history of actions, if each was possible when it was taken. */
  function Execute(actions: seq<Action>): Option<Outbox> {
    if actions == [] then Some(EMPTY)
    else
      match Execute(actions[..|actions| - 1])
      case None => None
      case Some(s) => if Enabled(s, actions[|actions| - 1]) then Some(Apply(s, actions[|actions| - 1])) else None
  }

  // --- whole calls ---

  /** The rest of a flush that nothing interrupts. */
  function Drain(s: Outbox, replies: nat -> Reply): Outbox
    requires s.flush.Some?
    decreases |s.flush.value.snapshot| - s.flush.value.index
  {
    if Flushing(s) then Drain(FlushStep(s, replies(s.flush.value.index)), replies) else s.(flush := None)
  }

  function FlushAll(s: Outbox, replies: nat -> Reply): Outbox {
    Drain(BeginFlush(s), replies)
  }

  /** Where notifications go: the owner's chat, and a topic of the group if one is configured. */
  datatype Config = Config(owner: int, group: int, opsTopic: Option<int>)

  function Targets(config: Config, audience: string): seq<(string, Target)> {
    (if audience in {"owner", "both"} || config.opsTopic.None? then [("owner_dm", Target(config.owner, None))] else [])
    + (if audience in {"ops", "both"} && config.opsTopic.Some? then [("ops_topic", Target(config.group, config.opsTopic))] else [])
  }

  /** The outbox once an event was offered to one target, unless a receipt shows it was delivered. */
  function Offered(s: Outbox, event: string, text: string, target: (string, Target)): Outbox {
    if event + "-" + target.0 in s.receipts then s else Enqueue(s, event + "-" + target.0, text, target.1)
  }

  /** Queues an event for each of its targets. */
  function QueueEvent(s: Outbox, event: string, text: string, targets: seq<(string, Target)>): Outbox
    decreases |targets|
  {
    if targets == [] then s else QueueEvent(Offered(s, event, text, targets[0]), event, text, targets[1..])
  }

  /** An event sent while nothing else uses the outbox; an unknown audience is refused, after the first flush. */
  function Notify(s: Outbox, config: Config, text: string, audience: string, event: string,
                  before: nat -> Reply, after: nat -> Reply): Outbox {
    var flushed := FlushAll(s, before);
    if audience in {"ops", "owner", "both"} then
      FlushAll(QueueEvent(flushed, event, text, Targets(config, audience)), after)
    else flushed
  }

  // --- invariants ---

  ghost predicate Sorted(items: seq<Message>) {
    forall i, j :: 0 <= i < j < |items| ==> items[i].ticket < items[j].ticket
  }

  ghost predicate Distinct(items: seq<Message>) {
    forall i, j :: 0 <= i < j < |items| ==> items[i].id != items[j].id
  }

  /** No queued message comes before one that was delivered to the same target. */
  ghost predicate Behind(items: seq<Message>, deliveries: seq<Delivery>) {
    forall d, i :: d in deliveries && 0 <= i < |items| && d.target == items[i].target ==> d.ticket < items[i].ticket
  }

  /** The queue is in the order of queueing, without duplicates, behind what was delivered, and holds what was accepted. */
  ghost predicate QueueSafe(items: seq<Message>, deliveries: seq<Delivery>, accepted: seq<Accepted>) {
    && Sorted(items)
    && Distinct(items)
    && Behind(items, deliveries)
    && (forall i :: 0 <= i < |items| ==>
          items[i].ticket < |accepted| && accepted[items[i].ticket] == Accepted(items[i].id, items[i].text, items[i].target))
    && (forall d :: d in deliveries ==> d.ticket < |accepted| && accepted[d.ticket] == Accepted(d.id, d.text, d.target))
  }

  ghost predicate InOrder(deliveries: seq<Delivery>) {
    forall i, j :: 0 <= i < j < |deliveries| && deliveries[i].target == deliveries[j].target ==>
      deliveries[i].ticket < deliveries[j].ticket
  }

  /** Only tracked messages have receipts, and a tracked delivery has one unless it is more than 30 days old. */
  ghost predicate Receipted(deliveries: seq<Delivery>, receipts: map<string, int>, now: int) {
    && (forall id :: id in receipts ==> Tracked(id))
    && (forall d :: d in deliveries ==> d.at <= now && (Tracked(d.id) ==>
          (d.id in receipts && d.at <= receipts[d.id]) || d.at + RECEIPT_TTL <= now))
  }

  ghost predicate Rare(deliveries: seq<Delivery>) {
    forall i, j :: 0 <= i < j < |deliveries| && deliveries[i].id == deliveries[j].id && Tracked(deliveries[i].id) ==>
      deliveries[i].at + RECEIPT_TTL <= deliveries[j].at
  }

  /** Nothing is lost: what was ever queued is still queued or was delivered, unless its id was and left a receipt. */
  ghost predicate Conserved(items: seq<Message>, receipts: map<string, int>, deliveries: seq<Delivery>, accepted: seq<Accepted>) {
    && (forall id :: id in receipts ==> Sent(deliveries, id))
    && (forall t: nat :: t < |accepted| ==>
          QueuedAt(items, t) || SentAt(deliveries, t) || (Tracked(accepted[t].id) && Sent(deliveries, accepted[t].id)))
  }

  function Ids(items: seq<Message>): (ids: multiset<string>) {
    if items == [] then multiset{} else Ids(items[..|items| - 1]) + multiset{items[|items| - 1].id}
  }

  /** The queue is what the flush keeps, then what it has yet to reach, then what has arrived since. */
  ghost predicate FlushSafe(items: seq<Message>, f: Flush) {
    && f.index <= |f.snapshot|
    && f.remaining + f.snapshot[f.index..] <= items
    && (f.index < |f.snapshot| ==> forall i :: 0 <= i < |f.remaining| ==> f.remaining[i].target in f.blocked)
    && Ids(f.delivered) + Ids(f.known) + Ids(f.remaining) == Ids(f.snapshot[..f.index])
  }

  ghost predicate Safe(s: Outbox) {
    && QueueSafe(s.items, s.deliveries, s.accepted)
    && InOrder(s.deliveries)
    && Receipted(s.deliveries, s.receipts, s.clock)
    && Rare(s.deliveries)
    && Conserved(s.items, s.receipts, s.deliveries, s.accepted)
    && (s.flush.Some? ==> FlushSafe(s.items, s.flush.value))
  }

  // --- sequences of messages ---

  /** Acknowledging a queued message takes it out of its place. */
  lemma {:induction false} WithoutAt(items: seq<Message>, k: nat)
    requires k < |items| && Distinct(items)
    ensures Without(items, items[k].id) == items[..k] + items[k + 1..]
  {
    if k == 0 {
      WithoutAbsent(items[1..], items[0].id);
    } else {
      WithoutAt(items[1..], k - 1);
    }
  }

  lemma {:induction false} WithoutAbsent(items: seq<Message>, id: string)
    requires forall i :: 0 <= i < |items| ==> items[i].id != id
    ensures Without(items, id) == items
  {
    if items != [] {
      WithoutAbsent(items[1..], id);
    }
  }

  lemma ReplacedAt(items: seq<Message>, k: nat, message: Message)
    requires k < |items| && Distinct(items) && message.id == items[k].id
    ensures Replaced(items, message) == items[k := message]
  {
  }

  lemma {:induction false} IdsJoin(a: seq<Message>, b: seq<Message>)
    ensures Ids(a + b) == Ids(a) + Ids(b)
  {
    if b == [] {
      assert a + b == a;
    } else {
      assert (a + b)[..|a + b| - 1] == a + b[..|b| - 1];
      IdsJoin(a, b[..|b| - 1]);
    }
  }

  lemma IdsAppend(a: seq<Message>, m: Message)
    ensures Ids(a + [m]) == Ids(a) + multiset{m.id}
  {
    assert (a + [m])[..|a|] == a;
  }

  /** Going on to the next message of the snapshot. */
  lemma IdsNext(f: Flush)
    requires f.index < |f.snapshot|
    ensures Ids(f.snapshot[..f.index + 1]) == Ids(f.snapshot[..f.index]) + multiset{f.snapshot[f.index].id}
  {
    assert f.snapshot[..f.index + 1] == f.snapshot[..f.index] + [f.snapshot[f.index]];
    IdsAppend(f.snapshot[..f.index], f.snapshot[f.index]);
  }

  // --- every action keeps the outbox safe ---

  /** The message a flush has come to stands in the queue right behind those it keeps. */
  lemma CurrentPlace(s: Outbox)
    requires Flushing(s) && FlushSafe(s.items, s.flush.value)
    ensures var k := |s.flush.value.remaining|;
            k < |s.items|
            && s.items[k] == Current(s)
            && s.items[..k] == s.flush.value.remaining
            && s.flush.value.snapshot[s.flush.value.index + 1..] <= s.items[k + 1..]
  {
    hide Ids;
    var f := s.flush.value;
    var rest := f.snapshot[f.index..];
    assert rest == [Current(s)] + f.snapshot[f.index + 1..];
    assert s.items[..|f.remaining| + |rest|] == f.remaining + rest;
  }

  /** Unless its target is blocked, it is the first queued message for that target. */
  lemma FirstForTarget(s: Outbox)
    requires Flushing(s) && FlushSafe(s.items, s.flush.value) && Current(s).target !in s.flush.value.blocked
    ensures forall i :: 0 <= i < |s.flush.value.remaining| ==> s.items[i].target != Current(s).target
  {
    CurrentPlace(s);
    hide Ids;
    forall i | 0 <= i < |s.flush.value.remaining|
      ensures s.items[i].target != Current(s).target
    {
      assert s.items[i] == s.items[..|s.flush.value.remaining|][i];
    }
  }

  lemma EnqueueKeeps(s: Outbox, id: string, text: string, target: Target)
    requires Safe(s)
    ensures Safe(Enqueue(s, id, text, target))
  {
    hide Rare, InOrder, Receipted, Ids;
    var after := Enqueue(s, id, text, target);
    if !Queued(s.items, id) {
      assert forall i :: 0 <= i < |s.items| ==> s.items[i] in s.items;
      QueuedGrows(s.items, after.items);
      assert after.items[|s.items|].ticket == |s.accepted|;
    }
  }

  lemma QueuedGrows(items: seq<Message>, more: seq<Message>)
    requires items <= more
    ensures forall id :: Queued(items, id) ==> Queued(more, id)
    ensures forall t :: QueuedAt(items, t) ==> QueuedAt(more, t)
  {
    forall m | m in items
      ensures m in more
    {
      var i :| 0 <= i < |items| && items[i] == m;
      assert more[i] == m;
    }
  }

  function Skip(i: int, k: int): int {
    if i < k then i else i + 1
  }

  ghost predicate Shortened(items: seq<Message>, k: nat, rest: seq<Message>) {
    && k < |items| && |rest| == |items| - 1
    && (forall i :: 0 <= i < |rest| ==> rest[i] == items[Skip(i, k)])
  }

  lemma ShortenedQueue(items: seq<Message>, k: nat, rest: seq<Message>, deliveries: seq<Delivery>, accepted: seq<Accepted>)
    requires QueueSafe(items, deliveries, accepted) && Shortened(items, k, rest)
    ensures QueueSafe(rest, deliveries, accepted)
  {
  }

  /** Taking a message out of the queue. */
  lemma TakenKeepsQueue(items: seq<Message>, k: nat, deliveries: seq<Delivery>, accepted: seq<Accepted>)
    requires QueueSafe(items, deliveries, accepted) && k < |items|
    ensures Without(items, items[k].id) == items[..k] + items[k + 1..]
    ensures Shortened(items, k, items[..k] + items[k + 1..])
    ensures QueueSafe(items[..k] + items[k + 1..], deliveries, accepted)
  {
    WithoutAt(items, k);
    hide QueueSafe;
    ShortenedQueue(items, k, items[..k] + items[k + 1..], deliveries, accepted);
  }

  lemma TakenKeepsFlush(s: Outbox, next: Flush)
    requires Distinct(s.items) && Flushing(s) && FlushSafe(s.items, s.flush.value)
    requires next == s.flush.value.(index := s.flush.value.index + 1, delivered := next.delivered, known := next.known)
    requires Ids(next.delivered) + Ids(next.known)
          == Ids(s.flush.value.delivered) + Ids(s.flush.value.known) + multiset{Current(s).id}
    ensures FlushSafe(Acknowledge(s, Current(s).id).items, next)
  {
    hide Receipts, Distinct, Ids, Without;
    var f := s.flush.value;
    CurrentPlace(s);
    WithoutAt(s.items, |f.remaining|);
    IdsNext(f);
  }

  lemma ReceiptsKeep(s: Outbox, id: string)
    requires Receipted(s.deliveries, s.receipts, s.clock)
    ensures Receipted(s.deliveries, Receipts(s.receipts, id, s.clock), s.clock)
    ensures Tracked(id) ==> id in Receipts(s.receipts, id, s.clock) && Receipts(s.receipts, id, s.clock)[id] == s.clock
    ensures forall other :: other in Receipts(s.receipts, id, s.clock) ==> other == id || other in s.receipts
  {
  }

  lemma ForgetKeeps(s: Outbox)
    requires Safe(s) && Flushing(s) && Current(s).id in s.receipts
    ensures Safe(Forget(s))
  {
    hide Rare, InOrder;
    var after := Forget(s);
    CurrentPlace(s);
    TakenKeepsQueue(s.items, |s.flush.value.remaining|, s.deliveries, s.accepted);
    IdsAppend(s.flush.value.known, Current(s));
    TakenKeepsFlush(s, after.flush.value);
    ReceiptsKeep(s, Current(s).id);
    TakenConserves(s, after);
    hide Receipted, Receipts, Ids;
  }

  /** What leaves the queue was delivered, now or, if it has a receipt, before. */
  lemma TakenConserves(s: Outbox, after: Outbox)
    requires Conserved(s.items, s.receipts, s.deliveries, s.accepted) && s.deliveries <= after.deliveries && s.accepted == after.accepted
    requires QueueSafe(s.items, s.deliveries, s.accepted) && Flushing(s) && Current(s) in s.items
    requires after.items == Without(s.items, Current(s).id) && Sent(after.deliveries, Current(s).id)
    requires SentAt(after.deliveries, Current(s).ticket) || Tracked(Current(s).id)
    requires forall id :: id in after.receipts ==> id == Current(s).id || id in s.receipts
    ensures Conserved(after.items, after.receipts, after.deliveries, after.accepted)
  {
    SentGrows(s.deliveries, after.deliveries);
    forall t: nat | t < |s.accepted| && QueuedAt(s.items, t)
      ensures QueuedAt(after.items, t) || t == Current(s).ticket
    {
      var m :| m in s.items && m.ticket == t;
      if m.id == Current(s).id {
        assert m == Current(s);
      } else {
        assert m in after.items;
      }
    }
  }

  lemma SentGrows(deliveries: seq<Delivery>, more: seq<Delivery>)
    requires deliveries <= more
    ensures forall id :: Sent(deliveries, id) ==> Sent(more, id)
    ensures forall t :: SentAt(deliveries, t) ==> SentAt(more, t)
  {
    forall d | d in deliveries
      ensures d in more
    {
      var i :| 0 <= i < |deliveries| && deliveries[i] == d;
      assert more[i] == d;
    }
  }

  /** Recording the delivery of the first queued message for its target. */
  lemma DeliveredKeepsQueue(items: seq<Message>, k: nat, rest: seq<Message>, deliveries: seq<Delivery>, accepted: seq<Accepted>, d: Delivery)
    requires QueueSafe(items, deliveries, accepted) && InOrder(deliveries) && Shortened(items, k, rest)
    requires QueueSafe(rest, deliveries, accepted) && d.target == items[k].target && d.ticket == items[k].ticket
    requires d.id == items[k].id && d.text == items[k].text
    requires forall i :: 0 <= i < k ==> items[i].target != d.target
    ensures QueueSafe(rest, deliveries + [d], accepted)
            && InOrder(deliveries + [d])
  {
    assert forall i :: 0 <= i < |deliveries| ==> deliveries[i] in deliveries;
  }

  lemma DeliveredKeepsReceipts(s: Outbox)
    requires Receipted(s.deliveries, s.receipts, s.clock) && Rare(s.deliveries) && Flushing(s) && Current(s).id !in s.receipts
    ensures var after := Delivered(s); Receipted(after.deliveries, after.receipts, after.clock) && Rare(after.deliveries)
  {
    ReceiptsKeep(s, Current(s).id);
    hide Receipts;
    assert forall i :: 0 <= i < |s.deliveries| ==> s.deliveries[i] in s.deliveries;
  }

  lemma DeliveredKeeps(s: Outbox)
    requires Safe(s) && Flushing(s) && Current(s).id !in s.receipts && Current(s).target !in s.flush.value.blocked
    ensures Safe(Delivered(s))
  {
    var after := Delivered(s);
    var k := |s.flush.value.remaining|;
    CurrentPlace(s);
    FirstForTarget(s);
    TakenKeepsQueue(s.items, k, s.deliveries, s.accepted);
    DeliveredKeepsQueue(s.items, k, after.items, s.deliveries, s.accepted, after.deliveries[|s.deliveries|]);
    DeliveredKeepsReceipts(s);
    IdsAppend(s.flush.value.delivered, Current(s));
    TakenKeepsFlush(s, after.flush.value);
    ReceiptsKeep(s, Current(s).id);
    assert after.deliveries[|s.deliveries|].ticket == Current(s).ticket && after.deliveries[|s.deliveries|].id == Current(s).id;
    TakenConserves(s, after);
    hide QueueSafe, FlushSafe, Receipted, Receipts, Rare, InOrder, Ids;
  }

  /** Updating the attempts of a queued message changes nothing of its place. */
  lemma FailedKeepsQueue(items: seq<Message>, k: nat, failed: Message, deliveries: seq<Delivery>, accepted: seq<Accepted>)
    requires QueueSafe(items, deliveries, accepted) && k < |items|
    requires failed == items[k].(attempts := failed.attempts, lastError := failed.lastError)
    ensures Replaced(items, failed) == items[k := failed]
            && QueueSafe(items[k := failed], deliveries, accepted)
    ensures forall t :: QueuedAt(items, t) ==> QueuedAt(items[k := failed], t)
  {
    ReplacedAt(items, k, failed);
    forall t | QueuedAt(items, t)
      ensures QueuedAt(items[k := failed], t)
    {
      var m :| m in items && m.ticket == t;
      var i :| 0 <= i < |items| && items[i] == m;
      assert items[k := failed][i].ticket == t;
    }
  }

  lemma FailedKeepsFlush(s: Outbox, failed: Message)
    requires Flushing(s) && FlushSafe(s.items, s.flush.value) && failed.id == Current(s).id
    requires failed.target == Current(s).target
    ensures var f := s.flush.value;
            FlushSafe(s.items[|f.remaining| := failed],
                      f.(index := f.index + 1, remaining := f.remaining + [failed], blocked := f.blocked + {failed.target}))
  {
    hide Ids;
    var f := s.flush.value;
    var k := |f.remaining|;
    CurrentPlace(s);
    IdsNext(f);
    IdsAppend(f.remaining, failed);
    assert s.items[k := failed] == f.remaining + [failed] + s.items[k + 1..];
  }

  lemma FailedKeeps(s: Outbox, error: string)
    requires Safe(s) && Flushing(s)
    ensures Safe(Failed(s, error))
  {
    hide Rare, InOrder, Receipted, QueueSafe, FlushSafe;
    var failed := Current(s).(attempts := Current(s).attempts + 1, lastError := error);
    CurrentPlace(s);
    FailedKeepsQueue(s.items, |s.flush.value.remaining|, failed, s.deliveries, s.accepted);
    FailedKeepsFlush(s, failed);
    hide Replaced, QueuedAt, SentAt, Sent;
  }

  lemma PassOverKeeps(s: Outbox)
    requires Safe(s) && Flushing(s) && Current(s).target in s.flush.value.blocked
    ensures Safe(PassOver(s))
  {
    hide QueueSafe, Rare, InOrder, Receipted, Conserved, Ids;
    var f := s.flush.value;
    IdsNext(f);
    IdsAppend(f.remaining, Current(s));
    assert f.remaining + f.snapshot[f.index..] == f.remaining + [Current(s)] + f.snapshot[f.index + 1..];
  }

  lemma CutOffKeeps(s: Outbox)
    requires Safe(s) && Flushing(s)
    ensures Safe(CutOff(s))
  {
    hide QueueSafe, Rare, InOrder, Receipted, Conserved, Ids;
    var f := s.flush.value;
    var next := CutOff(s).flush.value;
    IdsJoin(f.remaining, f.snapshot[f.index..]);
    IdsJoin(f.snapshot[..f.index], f.snapshot[f.index..]);
    assert f.snapshot[..f.index] + f.snapshot[f.index..] == f.snapshot == next.snapshot[..next.index];
    assert next.remaining + next.snapshot[next.index..] == f.remaining + f.snapshot[f.index..];
  }

  lemma LaterKeeps(s: Outbox, elapsed: nat)
    requires Safe(s)
    ensures Safe(s.(clock := s.clock + elapsed))
  {
    hide QueueSafe, FlushSafe, Rare, InOrder, Conserved;
  }

  lemma StepKeeps(s: Outbox, reply: Reply)
    requires Safe(s) && Flushing(s)
    ensures Safe(FlushStep(s, reply))
  {
    hide Safe, CutOff, PassOver, Forget, Delivered, Failed;
    var later := s.(clock := s.clock + reply.elapsed);
    LaterKeeps(s, reply.elapsed);
    if s.flush.value.index >= LIMIT {
      CutOffKeeps(later);
    } else if Current(s).target in s.flush.value.blocked {
      PassOverKeeps(later);
    } else if Current(s).id in s.receipts {
      ForgetKeeps(later);
    } else if reply.ok {
      DeliveredKeeps(later);
    } else {
      FailedKeeps(later, reply.error);
    }
  }

  lemma BeginKeeps(s: Outbox)
    requires Safe(s)
    ensures Safe(BeginFlush(s))
  {
    hide QueueSafe, Rare, InOrder, Receipted, Conserved;
  }

  lemma {:induction false} AlwaysSafe(actions: seq<Action>)
    requires Execute(actions).Some?
    ensures Safe(Execute(actions).value)
  {
    hide Safe, FlushStep, Enqueue, BeginFlush;
    if actions == [] {
      EmptySafe();
    } else {
      AlwaysSafe(actions[..|actions| - 1]);
      var s := Execute(actions[..|actions| - 1]).value;
      match actions[|actions| - 1] {
        case Produce(id, text, target) => EnqueueKeeps(s, id, text, target);
        case Begin => BeginKeeps(s);
        case Step(reply) => StepKeeps(s, reply);
        case End => EndKeeps(s);
      }
    }
  }

  lemma EmptySafe()
    ensures Safe(EMPTY)
  {
  }

  lemma EndKeeps(s: Outbox)
    requires Safe(s)
    ensures Safe(s.(flush := None))
  {
    hide QueueSafe, Rare, InOrder, Receipted, Conserved;
  }

  // --- main results ---

  /** However sends fail and producers interleave, deliveries to one target follow the order of queueing. */
  lemma DeliveriesInQueueOrder(actions: seq<Action>, i: nat, j: nat)
    requires Execute(actions).Some? && i < j < |Execute(actions).value.deliveries|
    requires var ds := Execute(actions).value.deliveries; ds[i].target == ds[j].target
    ensures var ds := Execute(actions).value.deliveries; ds[i].ticket < ds[j].ticket
  {
    hide Execute;
    AlwaysSafe(actions);
  }

  /** The same egress event is delivered to a target again, if ever, only after its receipt has expired. */
  lemma DeliveredOnceIn30Days(actions: seq<Action>, i: nat, j: nat)
    requires Execute(actions).Some? && i < j < |Execute(actions).value.deliveries|
    requires var ds := Execute(actions).value.deliveries; ds[i].id == ds[j].id && "max-egress-" <= ds[i].id
    ensures var ds := Execute(actions).value.deliveries; ds[j].at - ds[i].at >= 30 * 86400
  {
    hide Execute;
    AlwaysSafe(actions);
  }

  /** Whatever was accepted is still queued or was delivered, unless its id was delivered before and left a receipt. */
  lemma NothingIsLost(actions: seq<Action>, t: nat)
    requires Execute(actions).Some? && t < |Execute(actions).value.accepted|
    ensures var s, a := Execute(actions).value, Execute(actions).value.accepted[t];
            || (exists m :: m in s.items && m.ticket == t && m.id == a.id && m.text == a.text && m.target == a.target)
            || (exists d :: d in s.deliveries && d.ticket == t && d.id == a.id && d.text == a.text && d.target == a.target)
            || ("max-egress-" <= a.id && exists d :: d in s.deliveries && d.id == a.id)
  {
    hide Execute;
    AlwaysSafe(actions);
    var s := Execute(actions).value;
    if QueuedAt(s.items, t) {
      var m :| m in s.items && m.ticket == t;
      assert m.id == s.accepted[t].id;
    } else if SentAt(s.deliveries, t) {
      var d :| d in s.deliveries && d.ticket == t;
      assert d.id == s.accepted[t].id;
    }
  }

  /** What is queued or was delivered is what was accepted, at its place, and is never in both. */
  lemma QueueHoldsWhatWasAccepted(actions: seq<Action>)
    requires Execute(actions).Some?
    ensures var s := Execute(actions).value;
            && (forall m :: m in s.items ==> m.ticket < |s.accepted| && s.accepted[m.ticket] == Accepted(m.id, m.text, m.target))
            && (forall d :: d in s.deliveries ==> d.ticket < |s.accepted| && s.accepted[d.ticket] == Accepted(d.id, d.text, d.target))
            && (forall m, d :: m in s.items && d in s.deliveries ==> m.ticket != d.ticket)
  {
    hide Execute;
    AlwaysSafe(actions);
  }

  /** At the end of a flush its messages are split into delivered, known and remaining, and these head the queue. */
  lemma FlushPartitions(actions: seq<Action>)
    requires Execute(actions).Some? && Enabled(Execute(actions).value, End)
    ensures var s := Execute(actions).value; var f := s.flush.value;
            && Ids(f.delivered) + Ids(f.known) + Ids(f.remaining) == Ids(f.snapshot)
            && f.remaining <= s.items
  {
    hide Execute;
    AlwaysSafe(actions);
    var f := Execute(actions).value.flush.value;
    assert f.snapshot[..f.index] == f.snapshot;
    assert f.remaining + f.snapshot[f.index..] == f.remaining;
  }

  /** What one step of a flush does with the message it has come to. */
  lemma StepDecides(actions: seq<Action>, reply: Reply)
    requires Execute(actions).Some? && Flushing(Execute(actions).value)
    ensures var s := Execute(actions).value; var f := s.flush.value; var item := f.snapshot[f.index];
            var after := Apply(s, Step(reply));
            var reached := f.index < 100 && item.target !in f.blocked;
            var sent := reached && item.id !in s.receipts;
            var kept := if sent && !reply.ok then item.(attempts := item.attempts + 1, lastError := reply.error) else item;
            && after.clock == s.clock + reply.elapsed
            && after.flush.Some?
            && after.deliveries == s.deliveries +
                 (if sent && reply.ok then [Delivery(item.id, item.text, item.target, after.clock, item.ticket)] else [])
            && (forall m: Message :: m.id != item.id ==> (m in after.items <==> m in s.items))
            && (forall m: Message :: m.id == item.id ==> (m in after.items <==> m == kept && (!reached || (sent && !reply.ok))))
            && after.flush.value.blocked == f.blocked + (if sent && !reply.ok then {item.target} else {})
            && after.flush.value.index == if f.index < 100 then f.index + 1 else |f.snapshot|
  {
    AlwaysSafe(actions);
    StepQueues(Execute(actions).value, reply);
    hide Execute, Safe, Without, Replaced, Receipts;
  }

  lemma StepQueues(s: Outbox, reply: Reply)
    requires Safe(s) && Flushing(s)
    ensures var item, after := Current(s), FlushStep(s, reply);
            var reached := s.flush.value.index < LIMIT && item.target !in s.flush.value.blocked;
            var failed := reached && item.id !in s.receipts && !reply.ok;
            var kept := if failed then item.(attempts := item.attempts + 1, lastError := reply.error) else item;
            && (forall m: Message :: m.id != item.id ==> (m in after.items <==> m in s.items))
            && (forall m: Message :: m.id == item.id ==> (m in after.items <==> m == kept && (!reached || failed)))
  {
    CurrentUnique(s);
    var failed := Current(s).(attempts := Current(s).attempts + 1, lastError := reply.error);
    ReplacedHolds(s.items, |s.flush.value.remaining|, failed);
    StepItems(s, reply);
    hide Safe, Without, Replaced, FlushStep, Distinct;
  }

  lemma StepItems(s: Outbox, reply: Reply)
    requires Flushing(s)
    ensures var item, after := Current(s), FlushStep(s, reply);
            var reached := s.flush.value.index < LIMIT && item.target !in s.flush.value.blocked;
            after.items ==
            if !reached then s.items
            else if item.id in s.receipts || reply.ok then Without(s.items, item.id)
            else Replaced(s.items, item.(attempts := item.attempts + 1, lastError := reply.error))
  {
    hide Without, Replaced, Receipts;
  }

  lemma CurrentUnique(s: Outbox)
    requires Safe(s) && Flushing(s)
    ensures |s.flush.value.remaining| < |s.items|
            && s.items[|s.flush.value.remaining|] == Current(s)
            && Distinct(s.items)
    ensures forall m :: m in s.items && m.id == Current(s).id ==> m == Current(s)
    ensures Current(s) in s.items
            && Current(s) !in Without(s.items, Current(s).id)
  {
    CurrentPlace(s);
    OnlyOne(s.items, |s.flush.value.remaining|);
    hide Without;
  }

  lemma OnlyOne(items: seq<Message>, k: nat)
    requires k < |items| && Distinct(items)
    ensures forall m :: m in items && m.id == items[k].id ==> m == items[k]
    ensures items[k] in items
            && items[k] !in Without(items, items[k].id)
  {
  }

  lemma ReplacedHolds(items: seq<Message>, k: nat, message: Message)
    requires k < |items| && Distinct(items) && message.id == items[k].id
    ensures forall m: Message :: m.id != message.id ==> (m in Replaced(items, message) <==> m in items)
    ensures forall m: Message :: m.id == message.id ==> (m in Replaced(items, message) <==> m == message)
  {
    ReplacedAt(items, k, message);
    forall m: Message | m.id != message.id && m in items
      ensures m in items[k := message]
    {
      var i :| 0 <= i < |items| && items[i] == m;
      assert items[k := message][i] == m;
    }
    assert items[k := message][k] == message;
  }

  /** An egress event that leaves the queue has a receipt of the moment, and of the others those younger than 30 days stay. */
  lemma ReceiptsExpire(actions: seq<Action>, reply: Reply, id: string)
    requires Execute(actions).Some? && Flushing(Execute(actions).value)
    ensures var s := Execute(actions).value; var item := s.flush.value.snapshot[s.flush.value.index];
            var after := Apply(s, Step(reply));
            var taken := Queued(s.items, item.id) && !Queued(after.items, item.id);
            if taken && "max-egress-" <= item.id then
              if id == item.id then id in after.receipts && after.receipts[id] == after.clock
              else if id in s.receipts && s.receipts[id] > after.clock - 30 * 86400 then
                id in after.receipts
                && after.receipts[id] == s.receipts[id]
              else id !in after.receipts
            else after.receipts == s.receipts
  {
    AlwaysSafe(actions);
    var s := Execute(actions).value;
    CurrentUnique(s);
    StepQueues(s, reply);
    hide Execute, Safe;
    StepReceipts(s, reply);
    hide FlushStep;
    if Queued(FlushStep(s, reply).items, Current(s).id) {
      var m :| m in FlushStep(s, reply).items && m.id == Current(s).id;
    }
  }

  lemma StepReceipts(s: Outbox, reply: Reply)
    requires Flushing(s)
    ensures var after := FlushStep(s, reply);
            after.receipts ==
            if s.flush.value.index < LIMIT && Current(s).target !in s.flush.value.blocked && (Current(s).id in s.receipts || reply.ok)
            then Receipts(s.receipts, Current(s).id, after.clock)
            else s.receipts
    ensures FlushStep(s, reply).clock == s.clock + reply.elapsed
  {
    hide Without, Replaced, Receipts;
  }

  // --- whole calls are runs ---

  lemma OneMore(actions: seq<Action>, a: Action)
    requires Execute(actions).Some? && Enabled(Execute(actions).value, a)
    ensures Execute(actions + [a]) == Some(Apply(Execute(actions).value, a))
  {
    hide Apply, Enabled;
    assert (actions + [a])[..|actions|] == actions;
  }

  lemma {:induction false} DrainIsRun(actions: seq<Action>, replies: nat -> Reply) returns (more: seq<Action>)
    requires Execute(actions).Some? && Execute(actions).value.flush.Some?
    ensures Execute(more) == Some(Drain(Execute(actions).value, replies))
    decreases |Execute(actions).value.flush.value.snapshot| - Execute(actions).value.flush.value.index
  {
    hide Execute, FlushStep;
    var s := Execute(actions).value;
    if Flushing(s) {
      var step := Step(replies(s.flush.value.index));
      OneMore(actions, step);
      StepGoesOn(s, replies(s.flush.value.index));
      more := DrainIsRun(actions + [step], replies);
    } else {
      OneMore(actions, End);
      more := actions + [End];
    }
  }

  lemma StepGoesOn(s: Outbox, reply: Reply)
    requires Flushing(s)
    ensures var after := FlushStep(s, reply).flush;
            after.Some?
            && after.value.snapshot == s.flush.value.snapshot
            && after.value.index > s.flush.value.index
  {
    hide Acknowledge, Replaced;
  }

  lemma FlushIsRun(actions: seq<Action>, replies: nat -> Reply) returns (more: seq<Action>)
    requires Execute(actions).Some? && Execute(actions).value.flush.None?
    ensures Execute(more) == Some(FlushAll(Execute(actions).value, replies))
  {
    hide Execute, Drain;
    OneMore(actions, Begin);
    more := DrainIsRun(actions + [Begin], replies);
  }

  lemma {:induction false} QueueEventIsRun(actions: seq<Action>, event: string, text: string, targets: seq<(string, Target)>)
    returns (more: seq<Action>)
    requires Execute(actions).Some? && Execute(actions).value.flush.None?
    ensures Execute(more) == Some(QueueEvent(Execute(actions).value, event, text, targets))
    ensures Execute(more).value.flush.None?
            && Execute(actions).value.accepted <= Execute(more).value.accepted
    ensures Execute(more).value.receipts == Execute(actions).value.receipts
    ensures forall i :: 0 <= i < |targets| ==> event + "-" + targets[i].0 in Execute(actions).value.receipts ||
                                               Queued(Execute(more).value.items, event + "-" + targets[i].0)
    ensures Execute(actions).value.items <= Execute(more).value.items
    decreases |targets|
  {
    hide Execute;
    more := actions;
    if targets != [] {
      var s, id := Execute(actions).value, event + "-" + targets[0].0;
      if id !in s.receipts {
        more := actions + [Produce(id, text, targets[0].1)];
        OneMore(actions, Produce(id, text, targets[0].1));
        EnqueueQueues(s, id, text, targets[0].1);
      }
      var middle := Execute(more).value;
      more := QueueEventIsRun(more, event, text, targets[1..]);
      QueuedGrows(middle.items, Execute(more).value.items);
    }
  }

  lemma EnqueueQueues(s: Outbox, id: string, text: string, target: Target)
    ensures var after := Enqueue(s, id, text, target); Queued(after.items, id) && s.items <= after.items
  {
    if !Queued(s.items, id) {
      assert Enqueue(s, id, text, target).items[|s.items|].id == id;
    }
  }

  lemma {:induction false} DrainKeepsAccepted(s: Outbox, replies: nat -> Reply)
    requires s.flush.Some?
    ensures Drain(s, replies).accepted == s.accepted
            && Drain(s, replies).flush.None?
    decreases |s.flush.value.snapshot| - s.flush.value.index
  {
    hide Without, Receipts, Replaced;
    if Flushing(s) {
      DrainKeepsAccepted(FlushStep(s, replies(s.flush.value.index)), replies);
    }
  }

  lemma {:induction false} AccountsForTargets(actions: seq<Action>, config: Config, text: string, audience: string, event: string,
                                              before: nat -> Reply, after: nat -> Reply, k: nat)
    requires Execute(actions).Some? && Execute(actions).value.flush.None?
    requires audience in {"ops", "owner", "both"} && k < |Targets(config, audience)|
    ensures var s := Notify(Execute(actions).value, config, text, audience, event, before, after);
            var id := event + "-" + Targets(config, audience)[k].0;
            Safe(s)
            && (Queued(s.items, id) || Sent(s.deliveries, id))
  {
    hide Execute, Drain, QueueEvent, Targets;
    var s, id := Execute(actions).value, event + "-" + Targets(config, audience)[k].0;
    var first := FlushIsRun(actions, before);
    DrainKeepsAccepted(BeginFlush(s), before);
    AlwaysSafe(first);
    var queued := QueueEventIsRun(first, event, text, Targets(config, audience));
    AlwaysSafe(queued);
    var last := FlushIsRun(queued, after);
    DrainKeepsAccepted(BeginFlush(Execute(queued).value), after);
    AlwaysSafe(last);
    Accounted(Execute(queued).value, Execute(last).value, id);
  }

  /**
   After an event was sent it is queued or was delivered for the owner, if its audience is the owner or both or no topic
   is configured, and for the topic of the group, if its audience is ops or both and one is configured.
   */
  lemma EventIsAccountedFor(actions: seq<Action>, config: Config, text: string, audience: string, event: string,
                            before: nat -> Reply, after: nat -> Reply)
    requires Execute(actions).Some? && Execute(actions).value.flush.None? && audience in {"ops", "owner", "both"}
    ensures var s := Notify(Execute(actions).value, config, text, audience, event, before, after);
            && (audience in {"owner", "both"} || config.opsTopic.None? ==>
                  Queued(s.items, event + "-owner_dm") || Sent(s.deliveries, event + "-owner_dm"))
            && (audience in {"ops", "both"} && config.opsTopic.Some? ==>
                  Queued(s.items, event + "-ops_topic") || Sent(s.deliveries, event + "-ops_topic"))
  {
    hide Execute, Notify, Queued, Sent;
    Labels(event);
    var targets := Targets(config, audience);
    if audience in {"owner", "both"} || config.opsTopic.None? {
      assert targets[0].0 == "owner_dm";
      AccountsForTargets(actions, config, text, audience, event, before, after, 0);
    }
    if audience in {"ops", "both"} && config.opsTopic.Some? {
      assert targets[|targets| - 1].0 == "ops_topic";
      AccountsForTargets(actions, config, text, audience, event, before, after, |targets| - 1);
    }
  }

  lemma Labels(event: string)
    ensures event + "-" + "owner_dm" == event + "-owner_dm"
    ensures event + "-" + "ops_topic" == event + "-ops_topic"
    ensures event + "-owner_dm" != event + "-ops_topic"
  {
    assert (event + "-owner_dm")[|event|..] == "-owner_dm" && (event + "-ops_topic")[|event|..] == "-ops_topic";
  }

  /** Whether an event has to be queued under `id`. */
  predicate Wanting(s: Outbox, id: string) {
    id !in s.receipts && !Queued(s.items, id)
  }

  /** What a notification hands over: the text, to the owner's chat and to the topic of the group, each unless it is there. */
  lemma EventIsAccepted(s: Outbox, config: Config, text: string, audience: string, event: string,
                        before: nat -> Reply, after: nat -> Reply)
    requires audience in {"ops", "owner", "both"}
    ensures var flushed := FlushAll(s, before);
            Notify(s, config, text, audience, event, before, after).accepted ==
            s.accepted
            + (if (audience in {"owner", "both"} || config.opsTopic.None?) && Wanting(flushed, event + "-owner_dm") then
                 [Accepted(event + "-owner_dm", text, Target(config.owner, None))] else [])
            + (if audience in {"ops", "both"} && config.opsTopic.Some? && Wanting(flushed, event + "-ops_topic") then
                 [Accepted(event + "-ops_topic", text, Target(config.group, config.opsTopic))] else [])
  {
    var flushed := FlushAll(s, before);
    hide Drain;
    DrainKeepsAccepted(BeginFlush(s), before);
    var targets := Targets(config, audience);
    var queued := QueueEvent(flushed, event, text, targets);
    DrainKeepsAccepted(BeginFlush(queued), after);
    hide FlushAll, QueueEvent;
    Labels(event);
    if |targets| == 1 {
      assert targets == [targets[0]];
      QueueOne(flushed, event, text, targets[0]);
    } else {
      assert targets == [targets[0], targets[1]];
      QueueTwo(flushed, event, text, targets[0], targets[1]);
      OfferedElsewhere(flushed, event, text, targets[0], event + "-ops_topic");
    }
  }

  lemma QueueOne(s: Outbox, event: string, text: string, target: (string, Target))
    ensures QueueEvent(s, event, text, [target]) == Offered(s, event, text, target)
  {
    assert QueueEvent(Offered(s, event, text, target), event, text, []) == Offered(s, event, text, target);
  }

  lemma QueueTwo(s: Outbox, event: string, text: string, first: (string, Target), second: (string, Target))
    ensures QueueEvent(s, event, text, [first, second]) == Offered(Offered(s, event, text, first), event, text, second)
  {
    assert [first, second][1..] == [second];
    QueueOne(Offered(s, event, text, first), event, text, second);
  }

  lemma OfferedElsewhere(s: Outbox, event: string, text: string, target: (string, Target), id: string)
    requires id != event + "-" + target.0
    ensures Wanting(Offered(s, event, text, target), id) == Wanting(s, id)
  {
    var offered := event + "-" + target.0;
    if !Queued(s.items, offered) {
      forall m | m in s.items + [Message(offered, text, target.1, 0, "", |s.accepted|)] && m.id == id
        ensures m in s.items
      {
      }
      assert forall m :: m in s.items ==> m in s.items + [Message(offered, text, target.1, 0, "", |s.accepted|)];
    }
  }

  lemma Accounted(queued: Outbox, s: Outbox, id: string)
    requires Safe(queued) && Safe(s) && s.accepted == queued.accepted
    requires id in queued.receipts || Queued(queued.items, id)
    ensures Queued(s.items, id) || Sent(s.deliveries, id)
  {
  }

  lemma HealthyStep(s: Outbox, reply: Reply)
    requires Safe(s) && Flushing(s) && reply.ok && s.flush.value.index < LIMIT
    requires s.flush.value.remaining == [] && s.flush.value.blocked == {}
    ensures var after := FlushStep(s, reply);
            && |after.items| == |s.items| - 1
            && after.flush.Some?
            && after.flush.value.snapshot == s.flush.value.snapshot
            && after.flush.value.index == s.flush.value.index + 1
            && after.flush.value.remaining == []
            && after.flush.value.blocked == {}
  {
    hide Receipts, Rare, InOrder, Receipted, Conserved, Ids;
    CurrentPlace(s);
    WithoutAt(s.items, 0);
  }

  lemma {:induction false} HealthyDrain(s: Outbox, replies: nat -> Reply)
    requires Safe(s) && s.flush.Some? && |s.flush.value.snapshot| <= LIMIT && forall n :: replies(n).ok
    requires s.flush.value.remaining == [] && s.flush.value.blocked == {}
    requires s.flush.value.index + |s.items| == |s.flush.value.snapshot|
    ensures Drain(s, replies).items == []
    decreases |s.items|
  {
    hide FlushStep, Safe;
    if Flushing(s) {
      HealthyStep(s, replies(s.flush.value.index));
      StepKeeps(s, replies(s.flush.value.index));
      HealthyDrain(FlushStep(s, replies(s.flush.value.index)), replies);
    }
  }

  /** Once Telegram accepts everything again, one flush empties a queue of at most 100 messages. */
  lemma HealthyFlushEmptiesQueue(actions: seq<Action>, replies: nat -> Reply)
    requires Execute(actions).Some? && Execute(actions).value.flush.None?
    requires |Execute(actions).value.items| <= 100 && forall n :: replies(n).ok
    ensures FlushAll(Execute(actions).value, replies).items == []
  {
    hide Execute, Drain;
    AlwaysSafe(actions);
    BeginKeeps(Execute(actions).value);
    HealthyDrain(BeginFlush(Execute(actions).value), replies);
  }

  lemma FlushEnds(s: Outbox, replies: nat -> Reply)
    ensures FlushAll(s, replies).flush.None?
  {
    DrainKeepsAccepted(BeginFlush(s), replies);
  }

  lemma {:induction false} QueueEventAdds(s: Outbox, event: string, text: string, targets: seq<(string, Target)>)
    ensures |QueueEvent(s, event, text, targets).items| <= |s.items| + |targets|
    decreases |targets|
  {
    if targets != [] {
      QueueEventAdds(Offered(s, event, text, targets[0]), event, text, targets[1..]);
    }
  }

  /** If Telegram accepts everything, a notification delivers up to 100 messages that waited, and then the event itself. */
  lemma HealthyNotifyDelivers(actions: seq<Action>, config: Config, text: string, audience: string, event: string,
                              before: nat -> Reply, after: nat -> Reply)
    requires Execute(actions).Some? && Execute(actions).value.flush.None? && |Execute(actions).value.items| <= 100
    requires forall n :: before(n).ok && after(n).ok
    ensures var s := Notify(Execute(actions).value, config, text, audience, event, before, after);
            && s.items == []
            && (audience in {"owner", "both"} || (audience == "ops" && config.opsTopic.None?) ==>
                  Sent(s.deliveries, event + "-owner_dm"))
            && (audience in {"ops", "both"} && config.opsTopic.Some? ==> Sent(s.deliveries, event + "-ops_topic"))
  {
    hide Execute, FlushAll, QueueEvent, Sent;
    HealthyFlushEmptiesQueue(actions, before);
    if audience in {"ops", "owner", "both"} {
      var first := FlushIsRun(actions, before);
      FlushEnds(Execute(actions).value, before);
      var queued := QueueEventIsRun(first, event, text, Targets(config, audience));
      QueueEventAdds(Execute(first).value, event, text, Targets(config, audience));
      HealthyFlushEmptiesQueue(queued, after);
      EventIsAccountedFor(actions, config, text, audience, event, before, after);
    }
  }

  /** A message queued again, when nothing else is queued, is sent again exactly if it has no receipt. */
  lemma RequeuedIsSentIffNoReceipt(s: Outbox, id: string, text: string, target: Target, replies: nat -> Reply)
    requires s.flush.None? && s.items == [] && replies(0).ok
    ensures var after := FlushAll(Enqueue(s, id, text, target), replies);
            && after.items == []
            && after.deliveries == s.deliveries +
                 if id in s.receipts then [] else [Delivery(id, text, target, s.clock + replies(0).elapsed, |s.accepted|)]
  {
    hide Receipts;
    var begun := BeginFlush(Enqueue(s, id, text, target));
    assert Current(begun).id == id;
    assert Without(begun.items, id) == [];
    var step := FlushStep(begun, replies(0));
    assert Drain(begun, replies) == Drain(step, replies);
    assert Drain(step, replies) == step.(flush := None);
  }

  /** A message that is not an egress event never has a receipt; an egress event has one for 30 days. */
  lemma WhoHasReceipts(actions: seq<Action>, d: Delivery)
    requires Execute(actions).Some? && d in Execute(actions).value.deliveries
    ensures var s := Execute(actions).value;
            if "max-egress-" <= d.id then s.clock - d.at < 30 * 86400 ==> d.id in s.receipts
            else d.id !in s.receipts
  {
    hide Execute;
    AlwaysSafe(actions);
  }
}
