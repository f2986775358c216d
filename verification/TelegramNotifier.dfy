/** The notifier that owns the outbox (src/adapters/tg/notifier.py, src/runtime/health/outbox.py). */
module Notifier {
  import opened Wrappers
  import opened AlertOutbox

  class TelegramNotifier {
    const config: Config
    var items: seq<Message>
    var receipts: map<string, int>
    var clock: int
    // Histories, not part of the store.
    var accepted: seq<Accepted>
    var deliveries: seq<Delivery>

    constructor (config: Config)
      ensures this.config == config && View() == EMPTY
    {
      this.config := config;
      items, receipts, clock, accepted, deliveries := [], map[], 0, [], [];
    }

    ghost function View(): Outbox
      reads this
    {
      Outbox(items, receipts, None, clock, accepted, deliveries)
    }

    method QueueMessage(id: string, text: string, target: Target)
      modifies this
      ensures View() == Enqueue(old(View()), id, text, target)
    {
      for i := 0 to |items|
        invariant View() == old(View())
        invariant forall j :: 0 <= j < i ==> items[j].id != id
      {
        if items[i].id == id {
          assert items[i] in items;
          return;
        }
      }
      items := items + [Message(id, text, target, 0, "", |accepted|)];
      accepted := accepted + [Accepted(id, text, target)];
    }

    method AcknowledgeMessage(id: string)
      modifies this
      ensures View() == Acknowledge(old(View()), id)
    {
      if Tracked(id) {
        receipts := map k | k in receipts && receipts[k] > clock - RECEIPT_TTL :: receipts[k];
        receipts := receipts[id := clock];
      }
      items := Without(items, id);
    }

    /** Delivers what it can, in order; a target that fails keeps its later messages waiting. */
    method FlushOutbox(replies: nat -> Reply) returns (delivered: nat)
      modifies this
      ensures View() == FlushAll(old(View()), replies)
      ensures delivered == |deliveries| - |old(deliveries)|
    {
      hide Drain, Replaced, Acknowledge;
      delivered := 0;
      var snapshot, index, remaining, blocked := items, 0, [], {};
      ghost var sent, known := [], [];
      ghost var start := BeginFlush(View());
      ghost var s := start;
      while index < |snapshot|
        invariant index <= |snapshot|
        invariant s == View().(flush := Some(Flush(snapshot, index, blocked, sent, known, remaining)))
        invariant Drain(s, replies) == Drain(start, replies)
        invariant |deliveries| == |old(deliveries)| + delivered
      {
        var item, reply := snapshot[index], replies(index);
        clock := clock + reply.elapsed;
        DrainStep(s, replies);
        s := FlushStep(s, reply);
        if index >= LIMIT {
          remaining, index := remaining + snapshot[index..], |snapshot|;
        } else if item.target in blocked {
          remaining, index := remaining + [item], index + 1;
        } else if item.id in receipts {
          KeepsHistory(View(), item.id);
          AcknowledgeMessage(item.id);
          known, index := known + [item], index + 1;
        } else if reply.ok {
          KeepsHistory(View(), item.id);
          AcknowledgeMessage(item.id);
          deliveries := deliveries + [Delivery(item.id, item.text, item.target, clock, item.ticket)];
          sent, index, delivered := sent + [item], index + 1, delivered + 1;
        } else {
          item := item.(attempts := item.attempts + 1, lastError := reply.error);
          items := Replaced(items, item);
          remaining, blocked, index := remaining + [item], blocked + {item.target}, index + 1;
        }
      }
      DrainDone(s, replies);
    }

    /** Sends an egress event to the targets of its audience; None is the error for an unknown audience. */
    method SendEvent(text: string, audience: string, event: string, before: nat -> Reply, after: nat -> Reply)
      returns (sent: Option<bool>)
      modifies this
      ensures View() == Notify(old(View()), config, text, audience, event, before, after)
      ensures sent == if audience in {"ops", "owner", "both"} then Some(true) else None
    {
      var _ := FlushOutbox(before);
      if audience !in {"ops", "owner", "both"} {
        return None;
      }
      var targets := Targets(config, audience);
      ghost var flushed := View();
      var i := 0;
      while i < |targets|
        invariant 0 <= i <= |targets|
        invariant QueueEvent(View(), event, text, targets[i..]) == QueueEvent(flushed, event, text, targets)
      {
        var id := event + "-" + targets[i].0;
        if id !in receipts {
          QueueMessage(id, text, targets[i].1);
        }
        assert targets[i..][1..] == targets[i + 1..];
        i := i + 1;
      }
      var _ := FlushOutbox(after);
      return Some(true);
    }
  }

  lemma DrainStep(s: Outbox, replies: nat -> Reply)
    requires Flushing(s)
    ensures FlushStep(s, replies(s.flush.value.index)).flush.Some?
    ensures Drain(s, replies) == Drain(FlushStep(s, replies(s.flush.value.index)), replies)
  {
    hide Without, Receipts, Replaced;
  }

  lemma DrainDone(s: Outbox, replies: nat -> Reply)
    requires s.flush.Some? && !Flushing(s)
    ensures Drain(s, replies) == s.(flush := None)
  {
  }

  lemma KeepsHistory(s: Outbox, id: string)
    ensures Acknowledge(s, id).accepted == s.accepted && Acknowledge(s, id).deliveries == s.deliveries
    ensures Acknowledge(s, id).clock == s.clock && Acknowledge(s, id).flush == s.flush
    ensures forall f, ds :: Acknowledge(s.(flush := f, deliveries := ds), id) == Acknowledge(s, id).(flush := f, deliveries := ds)
  {
  }
}
