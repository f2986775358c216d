/**
 What the three operations that send media parts do send, record and settle.
 */
module MediaEffects {
  import opened Wrappers
  import opened Rates
  import opened MessageIds
  import opened MediaLedger

  // --- what is known to be delivered ---

  /** A part counts as delivered under its own key, or under the reference it shares with a part of the same message and kind. */
  lemma KnownByKeyOrReference(ledger: Ledger, m: Message, a: Attachment, i: nat)
    ensures AttachmentDelivered(ledger, m, a, i) <==>
            && Canonical(m.id, m.status).Some?
            && var base := Canonical(m.id, m.status).value;
               var index := if a.index.Some? then a.index.value else i;
               || Key(m.chat, base, index, PartKind(a.kind)) in ledger
               || (&& a.reference.kind.Some? && a.reference.kind.value != "" && a.reference.id.Some?
                   && exists k :: k in ledger && k.chat == m.chat && k.base == base && k.kind == PartKind(a.kind)
                                  && ledger[k].reference == a.reference)
  {
  }

  /** Whatever is not delivered is up for sending, in order, and nothing else is. */
  lemma {:induction false} UndeliveredExactly(ledger: Ledger, m: Message, i: nat, j: nat)
    requires i <= j < |m.attachments| && !AttachmentDelivered(ledger, m, m.attachments[j], j)
    ensures (PartIndex(m.attachments[j], j), m.attachments[j]) in Undelivered(ledger, m, i)
    decreases |m.attachments| - i
  {
    hide AttachmentDelivered;
    if i < j {
      UndeliveredExactly(ledger, m, i + 1, j);
    }
  }

  lemma {:induction false} UndeliveredComesFrom(ledger: Ledger, m: Message, i: nat, k: nat) returns (j: nat)
    requires k < |Undelivered(ledger, m, i)|
    ensures i <= j < |m.attachments|
            && !AttachmentDelivered(ledger, m, m.attachments[j], j)
    ensures Undelivered(ledger, m, i)[k] == (PartIndex(m.attachments[j], j), m.attachments[j])
    decreases |m.attachments| - i
  {
    hide AttachmentDelivered;
    if !AttachmentDelivered(ledger, m, m.attachments[i], i) && k == 0 {
      j := i;
    } else {
      j := UndeliveredComesFrom(ledger, m, i + 1, if AttachmentDelivered(ledger, m, m.attachments[i], i) then k else k - 1);
    }
  }

  // --- forwarding ---

  /** What forwarding sends for one part. */
  function Forwarded(call: nat, m: Message, part: (int, Attachment), reply: Reply): Send {
    var key := PartKey(m, part.1, part.0);
    Send(call, key, PartReference(part.1), PostedId(reply), IsPosted(reply),
         IsPosted(reply) && key.Some? && !part.1.tooLarge && part.1.kind in {"photo", "video", "audio", "document"})
  }

  /** The sends of a call, from the i-th part on: one for each part whose file is there, in order, up to a death. */
  function ForwardedFrom(call: nat, m: Message, parts: seq<(int, Attachment)>, i: nat, replies: nat -> Reply): seq<Send>
    decreases |parts| - i
  {
    if i >= |parts| then []
    else if !parts[i].1.present then ForwardedFrom(call, m, parts, i + 1, replies)
    else [Forwarded(call, m, parts[i], replies(i))]
         + if replies(i).Died? then [] else ForwardedFrom(call, m, parts, i + 1, replies)
  }

  lemma {:induction false} ForwardSends(s: Bridge, m: Message, parts: seq<(int, Attachment)>, i: nat, replies: nat -> Reply)
    ensures ForwardFrom(s, m, parts, i, replies).sends == s.sends + ForwardedFrom(s.calls, m, parts, i, replies)
    decreases |parts| - i
  {
    hide PartKey, PartReference, Recorded;
    if i < |parts| {
      if !parts[i].1.present {
        ForwardSends(s, m, parts, i + 1, replies);
      } else {
        var after := ForwardPart(s, m, parts[i].0, parts[i].1, replies(i));
        assert after.sends == s.sends + [Forwarded(s.calls, m, parts[i], replies(i))];
        if !replies(i).Died? {
          ForwardSends(after, m, parts, i + 1, replies);
        }
      }
    }
  }

  lemma {:induction false} ForwardedHas(call: nat, m: Message, parts: seq<(int, Attachment)>, i: nat, k: nat, replies: nat -> Reply)
    requires i <= k < |parts| && parts[k].1.present
    requires forall j: nat :: i <= j < k && parts[j].1.present ==> !replies(j).Died?
    ensures Forwarded(call, m, parts[k], replies(k)) in ForwardedFrom(call, m, parts, i, replies)
    decreases k - i
  {
    hide Forwarded;
    if i < k {
      ForwardedHas(call, m, parts, i + 1, k, replies);
    } else {
      assert ForwardedFrom(call, m, parts, i, replies)[0] == Forwarded(call, m, parts[k], replies(k));
    }
  }

  /** A send of this part of the message in this call, with what became of it. */
  ghost predicate SentIn(s: Bridge, after: Bridge, m: Message, part: (int, Attachment), reply: Reply, recorded: bool) {
    exists n :: |s.sends| <= n < |after.sends| && after.sends[n].call == s.calls && IsOf(after.sends[n], m, part)
                && after.sends[n].delivered == IsPosted(reply)
                && after.sends[n].id == PostedId(reply)
                && after.sends[n].recorded == recorded
  }

  /** Forwarding sends every undelivered part whose file is there and that no earlier death cuts off, and records posted media. */
  lemma ForwardReaches(s: Bridge, m: Message, replies: nat -> Reply, k: nat)
    requires var parts := Undelivered(s.ledger, m, 0);
             && k < |parts| && parts[k].1.present
             && forall j: nat :: j < k && parts[j].1.present ==> !replies(j).Died?
    ensures var part := Undelivered(s.ledger, m, 0)[k];
            var after := Forward(s, m, replies);
            var key := PartKey(m, part.1, part.0);
            var recorded := IsPosted(replies(k)) && key.Some? && !part.1.tooLarge
                            && part.1.kind in {"photo", "video", "audio", "document"};
            && SentIn(s, after, m, part, replies(k), recorded)
            && (recorded ==> key.value in after.ledger)
  {
    hide PartKey, Forward, Forwarded;
    var parts := Undelivered(s.ledger, m, 0);
    ForwardIsFrom(s, m, replies);
    ForwardSends(s, m, parts, 0, replies);
    ForwardedHas(s.calls, m, parts, 0, k, replies);
    var sent := ForwardedFrom(s.calls, m, parts, 0, replies);
    var n :| 0 <= n < |sent| && sent[n] == Forwarded(s.calls, m, parts[k], replies(k));
    var after := Forward(s, m, replies);
    assert after.sends[|s.sends| + n] == sent[n];
    ForwardedShows(s.calls, m, parts[k], replies(k));
    ForwardCareful(s, m, replies, |s.sends| + n);
  }

  lemma ForwardIsFrom(s: Bridge, m: Message, replies: nat -> Reply)
    ensures Forward(s, m, replies) == ForwardFrom(s, m, Undelivered(s.ledger, m, 0), 0, replies)
  {
  }

  lemma ForwardedShows(call: nat, m: Message, part: (int, Attachment), reply: Reply)
    ensures var e := Forwarded(call, m, part, reply);
            && e.call == call
            && IsOf(e, m, part)
            && e.delivered == IsPosted(reply)
            && e.id == PostedId(reply)
            && e.recorded == (IsPosted(reply) && PartKey(m, part.1, part.0).Some? && !part.1.tooLarge
                              && part.1.kind in {"photo", "video", "audio", "document"})
  {
  }

  /** What a call says it recorded is in the ledger. */
  lemma ForwardCareful(s: Bridge, m: Message, replies: nat -> Reply, n: nat)
    requires |s.sends| <= n < |Forward(s, m, replies).sends|
    ensures var e := Forward(s, m, replies).sends[n]; e.recorded ==> e.key.Some? && e.key.value in Forward(s, m, replies).ledger
  {
    hide Forward, IsDelivered;
    ApplyKeeps(s, Forwarding(m, replies));
  }

  /** In a call that is not cut short, every attachment that is not delivered and whose file is there is sent. */
  lemma ForwardSendsAttachments(s: Bridge, m: Message, replies: nat -> Reply, j: nat)
    requires forall n :: !replies(n).Died?
    requires j < |m.attachments| && m.attachments[j].present && !AttachmentDelivered(s.ledger, m, m.attachments[j], j)
    ensures var a := m.attachments[j];
            var after := Forward(s, m, replies);
            exists n :: |s.sends| <= n < |after.sends| && IsOf(after.sends[n], m, (PartIndex(a, j), a))
  {
    hide Forward, AttachmentDelivered, IsOf, PartKey;
    UndeliveredExactly(s.ledger, m, 0, j);
    var parts := Undelivered(s.ledger, m, 0);
    var k :| 0 <= k < |parts| && parts[k] == (PartIndex(m.attachments[j], j), m.attachments[j]);
    ForwardReaches(s, m, replies, k);
  }

  // --- recovering ---

  /** An unfinished download of the part, under the id of the message or the canonical one. */
  predicate Awaited(s: Bridge, m: Message, index: int, kind: string) {
    exists slot :: slot in s.jobs && s.jobs[slot].status.Active? && slot.chat == m.chat && slot.index == index
                   && slot.kind == PartKind(kind)
                   && ((slot.id == m.id && m.id != "") || Canonical(m.id, m.status) == Some(slot.id))
  }

  /** A recovery goes ahead exactly if something is undelivered, the message has a place to go, and a part of it is missing for good reason. */
  lemma RecoversIff(s: Bridge, m: Message, latest: Option<Entry>, routed: bool)
    ensures var parts := Undelivered(s.ledger, m, 0);
            MayRecover(s, m, latest, routed) <==>
            && parts != [] && routed
            && (|| (latest.Some? && latest.value.status == "partial" && "attachment_download_failed:" <= latest.value.error)
                || exists i :: 0 <= i < |parts| && Awaited(s, m, parts[i].0, parts[i].1.kind))
  {
    var parts := Undelivered(s.ledger, m, 0);
    forall i | 0 <= i < |parts|
      ensures IsPending(s.jobs, m, parts[i].0, parts[i].1.kind) <==> Awaited(s, m, parts[i].0, parts[i].1.kind)
    {
      PendingIsAwaited(s, m, parts[i].0, parts[i].1.kind);
    }
    hide IsPending, Awaited;
  }

  lemma PendingIsAwaited(s: Bridge, m: Message, index: int, kind: string)
    ensures IsPending(s.jobs, m, index, kind) <==> Awaited(s, m, index, kind)
  {
    hide Canonical, PartKind;
    var own := Slot(m.chat, m.id, index, PartKind(kind));
    if m.id != "" && IsActive(s.jobs, own) {
      assert own in s.jobs;
    }
    if Canonical(m.id, m.status).Some? && IsActive(s.jobs, Slot(m.chat, Canonical(m.id, m.status).value, index, PartKind(kind))) {
      assert Slot(m.chat, Canonical(m.id, m.status).value, index, PartKind(kind)) in s.jobs;
    }
  }

  /** No download of the part is left unfinished, and none that was finished before is started again. */
  ghost predicate Settled(jobs: map<Slot, Job>, m: Message, index: int, kind: string) {
    && !IsActive(jobs, Slot(m.chat, m.id, index, PartKind(kind)))
    && (Canonical(m.id, m.status).Some? ==> !IsActive(jobs, Slot(m.chat, Canonical(m.id, m.status).value, index, PartKind(kind))))
  }

  lemma SettleOnly(jobs: map<Slot, Job>, slot: Slot, tgMsgId: nat)
    ensures var after := Settle(jobs, slot, tgMsgId);
            && !IsActive(after, slot)
            && (forall other :: IsActive(after, other) ==> IsActive(jobs, other))
            && (IsActive(jobs, slot) ==>
                  slot in after && after[slot] == jobs[slot].(status := Done(tgMsgId), attempts := jobs[slot].attempts + 1))
            && (forall other :: other in jobs && other != slot ==> other in after && after[other] == jobs[other])
  {
  }

  /** A download that was settled in between is done, with one attempt more. */
  ghost predicate SettledOnce(jobs: map<Slot, Job>, after: map<Slot, Job>) {
    forall slot :: IsActive(jobs, slot) && !IsActive(after, slot) ==>
      slot in after && after[slot].status.Done?
      && after[slot] == jobs[slot].(status := after[slot].status, attempts := jobs[slot].attempts + 1)
  }

  /** A job under way or over stays what it is, unless it is settled. */
  ghost predicate OnlySettles(jobs: map<Slot, Job>, after: map<Slot, Job>) {
    && SettledOnce(jobs, after)
    && (forall slot :: slot in jobs && (IsActive(after, slot) || !IsActive(jobs, slot)) ==>
          slot in after && after[slot] == jobs[slot])
    && (forall slot :: IsActive(after, slot) ==> IsActive(jobs, slot))
  }

  lemma SettlesInTurn(jobs: map<Slot, Job>, middle: map<Slot, Job>, after: map<Slot, Job>)
    requires OnlySettles(jobs, middle) && OnlySettles(middle, after)
    ensures OnlySettles(jobs, after)
  {
  }

  lemma SettleSettles(jobs: map<Slot, Job>, slot: Slot, tgMsgId: nat)
    ensures OnlySettles(jobs, Settle(jobs, slot, tgMsgId))
  {
  }

  lemma {:induction false} RecordFromSettles(s: Bridge, m: Message, parts: seq<(int, Attachment)>, i: nat, replies: nat -> Reply)
    requires i <= |parts| && forall j :: i <= j < |parts| ==> IsPosted(replies(j))
    ensures var after := RecordFrom(s, m, parts, i, replies);
            && (forall j :: i <= j < |parts| ==> Settled(after.jobs, m, parts[j].0, parts[j].1.kind))
            && OnlySettles(s.jobs, after.jobs)
            && (forall slot :: IsActive(after.jobs, slot) ==> IsActive(s.jobs, slot))
    decreases |parts| - i
  {
    hide PartKey, PartReference, Recorded, Settle, Canonical, PartKind, IsActive, RecordOne;
    if i == |parts| {
      SettlesNothing(s.jobs);
    }
    hide OnlySettles;
    if i < |parts| {
      var (index, a) := parts[i];
      var next := RecordOne(s, m, index, a, replies(i).id);
      RecordOneSettles(s, m, index, a, replies(i).id);
      RecordFromSettles(next, m, parts, i + 1, replies);
      SettlesInTurn(s.jobs, next.jobs, RecordFrom(s, m, parts, i, replies).jobs);
    }
  }

  lemma SettlesNothing(jobs: map<Slot, Job>)
    ensures OnlySettles(jobs, jobs)
  {
  }

  lemma RecordOneSettles(s: Bridge, m: Message, index: int, a: Attachment, tgMsgId: nat)
    ensures var after := RecordOne(s, m, index, a, tgMsgId);
            && Settled(after.jobs, m, index, a.kind)
            && (forall slot :: IsActive(after.jobs, slot) ==> IsActive(s.jobs, slot))
            && OnlySettles(s.jobs, after.jobs)
  {
    hide PartKey, PartReference, Recorded, Settle, Canonical, PartKind, IsActive, OnlySettles;
    var own := Slot(m.chat, m.id, index, PartKind(a.kind));
    SettleOnly(s.jobs, own, tgMsgId);
    SettleSettles(s.jobs, own, tgMsgId);
    if Canonical(m.id, m.status).Some? {
      var other := Slot(m.chat, Canonical(m.id, m.status).value, index, PartKind(a.kind));
      SettleOnly(Settle(s.jobs, own, tgMsgId), other, tgMsgId);
      SettleSettles(Settle(s.jobs, own, tgMsgId), other, tgMsgId);
      SettlesInTurn(s.jobs, Settle(s.jobs, own, tgMsgId), Settle(Settle(s.jobs, own, tgMsgId), other, tgMsgId));
    }
  }

  /** A complete recovery leaves no download of its parts unfinished, and counts the attempt. */
  lemma RecoverSettles(s: Bridge, m: Message, latest: Option<Entry>, replies: nat -> Reply)
    requires MayRecover(s, m, latest, true)
    requires var parts := Undelivered(s.ledger, m, 0); forall j :: 0 <= j < |parts| ==> parts[j].1.present && IsPosted(replies(j))
    ensures var parts := Undelivered(s.ledger, m, 0);
            var after := Recover(s, m, latest, true, replies);
            && (forall j :: 0 <= j < |parts| ==> Settled(after.jobs, m, parts[j].0, parts[j].1.kind))
            && OnlySettles(s.jobs, after.jobs)
  {
    hide MayRecover, RecordFrom, SendsFrom, PostedFrom, Settled, OnlySettles;
    var parts := Undelivered(s.ledger, m, 0);
    CompleteMeansAll(parts, 0, replies);
    RecordFromSettles(s.(sends := s.sends + SendsFrom(s.calls, m, parts, 0, replies, true)), m, parts, 0, replies);
  }

  // --- references ---

  /** A row that is there keeps its Telegram message and its reference, and takes a reference it lacks; other rows stay. */
  lemma RecordedRow(ledger: Ledger, key: Key, tgMsgId: nat, reference: Reference)
    requires tgMsgId != 0
    ensures var after := Recorded(ledger, Some(key), tgMsgId, reference);
            && after.Keys == ledger.Keys + {key}
            && (forall k :: k in ledger && k != key ==> after[k] == ledger[k])
            && after[key].tgMsgId == (if key in ledger then ledger[key].tgMsgId else tgMsgId)
            && after[key].reference.kind ==
                 (if key in ledger && ledger[key].reference.kind.Some? then ledger[key].reference.kind else reference.kind)
            && after[key].reference.id ==
                 (if key in ledger && ledger[key].reference.id.Some? then ledger[key].reference.id else reference.id)
  {
  }

  /** No row keeps half a reference. */
  ghost predicate Whole(ledger: Ledger) {
    forall k :: k in ledger ==> (ledger[k].reference.kind.Some? <==> ledger[k].reference.id.Some?)
  }

  lemma RecordedWhole(ledger: Ledger, key: Option<Key>, tgMsgId: nat, reference: Reference)
    requires Whole(ledger) && (reference.kind.Some? <==> reference.id.Some?)
    ensures Whole(Recorded(ledger, key, tgMsgId, reference))
  {
  }

  lemma {:induction false} ForwardWhole(s: Bridge, m: Message, parts: seq<(int, Attachment)>, i: nat, replies: nat -> Reply)
    requires Whole(s.ledger)
    ensures Whole(ForwardFrom(s, m, parts, i, replies).ledger)
    decreases |parts| - i
  {
    hide Whole, Recorded, PartKey;
    if i < |parts| {
      var (index, a) := parts[i];
      RecordedWhole(s.ledger, PartKey(m, a, index), PostedId(replies(i)), PartReference(a));
      ForwardWhole(if a.present then ForwardPart(s, m, index, a, replies(i)) else s, m, parts, i + 1, replies);
    }
  }

  lemma {:induction false} RecordWhole(s: Bridge, m: Message, parts: seq<(int, Attachment)>, i: nat, replies: nat -> Reply)
    requires Whole(s.ledger)
    ensures Whole(RecordFrom(s, m, parts, i, replies).ledger)
    decreases |parts| - i
  {
    hide Whole, Recorded, PartKey, Settle, Canonical;
    if i < |parts| && replies(i).Posted? {
      var (index, a) := parts[i];
      RecordedWhole(s.ledger, PartKey(m, a, index), replies(i).id, PartReference(a));
      RecordWhole(RecordOne(s, m, index, a, replies(i).id), m, parts, i + 1, replies);
    }
  }

  /** A part's reference is stored whole or not at all, over all runs. */
  lemma {:induction false} ReferencesAreWhole(actions: seq<Action>)
    ensures Whole(Execute(actions).ledger)
  {
    if actions != [] {
      ReferencesAreWhole(actions[..|actions| - 1]);
      ApplyWhole(Execute(actions[..|actions| - 1]), actions[|actions| - 1]);
      hide Whole, Apply;
    }
  }

  lemma ApplyWhole(s: Bridge, a: Action)
    requires Whole(s.ledger)
    ensures Whole(Apply(s, a).ledger)
  {
    hide Whole, Recorded, JobKey, JobResolved, ResolvedId, MayRecover, SendsFrom, ForwardFrom, RecordFrom, Undelivered, Retried;
    match a
    case Forwarding(m, replies) => ForwardWhole(s, m, Undelivered(s.ledger, m, 0), 0, replies);
    case Recovering(m, latest, routed, replies) =>
      var parts := Undelivered(s.ledger, m, 0);
      RecordWhole(s.(sends := s.sends + SendsFrom(s.calls, m, parts, 0, replies, true)), m, parts, 0, replies);
    case Queueing(slot, job) =>
    case Beginning(slot, log, now) =>
    case Finishing(log, fetch, reply, now) =>
      if s.working.Some? && s.working.value.slot in s.jobs {
        var Work(slot, job) := s.working.value;
        RecordedWhole(s.ledger, JobKey(slot), PostedId(reply), JobReference(job));
        FinishWhole(s, log, fetch, reply, now);
      }
  }

  lemma FinishWhole(s: Bridge, log: Log, fetch: Fetch, reply: Reply, now: int)
    requires s.working.Some? && s.working.value.slot in s.jobs
    ensures var Work(slot, job) := s.working.value;
            FinishJob(s, log, fetch, reply, now).ledger
            in {s.ledger, Recorded(s.ledger, JobKey(slot), PostedId(reply), JobReference(job))}
  {
    hide Recorded, JobKey, JobResolved, ResolvedId;
  }

  // --- downloads ---

  /** The ledger knows the part of the job, or knows nothing of its message while the delivery log calls it delivered. */
  predicate Resolved(ledger: Ledger, slot: Slot, job: Job, log: Log) {
    var base := Canonical(slot.id, "");
    || (&& base.Some?
        && (|| Key(slot.chat, base.value, slot.index, PartKind(slot.kind)) in ledger
            || (job.refId != "" && job.refKind != "" &&
                exists k :: k in ledger && k.chat == slot.chat && k.base == base.value && k.kind == PartKind(slot.kind)
                            && ledger[k].reference == Reference(Some(job.refKind), Some(job.refId)))))
    || (&& !(base.Some? && exists k :: k in ledger && k.chat == slot.chat && k.base == base.value)
        && (SaysDelivered(log.own) || (EditBase(slot.id, "").Some? && SaysDelivered(log.base))))
  }

  predicate SaysDelivered(e: Option<Entry>) {
    && e.Some? && e.value.status == "delivered"
    && (|| e.value.error == "" || e.value.error == "late_media_recovered" || e.value.error == "manual_photo_recovery"
        || e.value.error == "manual_video_recovery" || e.value.error == "manual_media_recovery")
  }

  lemma ResolvedIff(ledger: Ledger, slot: Slot, job: Job, log: Log)
    ensures JobResolved(ledger, slot, job, log.own, log.base) <==> Resolved(ledger, slot, job, log)
  {
    hide Canonical, PartKind, EditBase;
  }

  /** The Telegram message of a resolved part: the one in its own row, else the one found by reference, else unknown. */
  predicate Names(ledger: Ledger, slot: Slot, job: Job, log: Log, id: nat) {
    var base := Canonical(slot.id, "");
    if base.Some? && Key(slot.chat, base.value, slot.index, PartKind(slot.kind)) in ledger then
      id == ledger[Key(slot.chat, base.value, slot.index, PartKind(slot.kind))].tgMsgId
    else if base.Some? && job.refId != "" && job.refKind != "" &&
            exists k :: k in ledger && k.chat == slot.chat && k.base == base.value && k.kind == PartKind(slot.kind)
                        && ledger[k].reference == Reference(Some(job.refKind), Some(job.refId))
    then id == log.referenced
    else id == 0
  }

  lemma ResolvedNames(ledger: Ledger, slot: Slot, job: Job, log: Log)
    ensures Names(ledger, slot, job, log, ResolvedId(ledger, slot, job, log.referenced))
  {
    hide Canonical, PartKind;
  }

  /** A job ends with the status given, one more attempt counted, and the worker free. */
  ghost predicate Ends(s: Bridge, after: Bridge, slot: Slot, status: Status) {
    && after.working.None?
    && slot in s.jobs
    && slot in after.jobs
    && after.jobs[slot].status == status
    && after.jobs[slot].attempts == s.jobs[slot].attempts + 1
    && (forall other :: other != slot ==> (other in after.jobs <==> other in s.jobs))
    && (forall other :: other in s.jobs && other != slot ==> after.jobs[other] == s.jobs[other])
  }

  /** A retry waits three minutes for a video, which fails for good the sixth time, and otherwise a minute, doubled each time. */
  ghost predicate Retries(s: Bridge, after: Bridge, work: Work, error: string, now: int) {
    if work.slot.kind == "video" && work.job.attempts >= 5 then
      Ends(s, after, work.slot, Failed("video_retry_exhausted:" + error))
    else
      && Ends(s, after, work.slot, Active)
      && after.jobs[work.slot].nextAttempt
         == now + if work.slot.kind == "video" then 180 else 60 * Power(if work.job.attempts < 8 then work.job.attempts else 8)
  }

  lemma RetriedRetries(s: Bridge, work: Work, error: string, now: int)
    requires work.slot in s.jobs
    ensures Retries(s, Retried(s, work, error, now), work, error, now)
  {
    PowersBelow(if work.job.attempts < 8 then work.job.attempts else 8);
    hide Power;
  }

  lemma PowersBelow(n: nat)
    requires n <= 8
    ensures 60 * Power(n) < 21600
  {
    PowerGrows(n, 8);
    assert Power(4) == 16;
  }

  /**
   The worker, when it is free, takes up a due job that is not resolved and can be downloaded; other due jobs come to their end,
   and the rest is left alone.
   */
  lemma DueJobTakenUp(s: Bridge, slot: Slot, log: Log, now: int)
    requires slot in s.jobs
    ensures var after := BeginJob(s, slot, log, now);
            var job := s.jobs[slot];
            var stable := job.refId != "" &&
                          (|| (slot.kind == "video" && job.refKind == "video_id")
                           || (slot.kind == "audio" && (job.refKind == "audio_id" || job.refKind == "file_id"))
                           || (slot.kind == "photo" && job.refKind == "file_id")
                           || job.refKind == "cached_payload");
            if s.working.Some? || !job.status.Active? || job.nextAttempt > now then after == s
            else if Resolved(s.ledger, slot, job, log) then
              exists id :: Names(s.ledger, slot, job, log, id) && Ends(s, after, slot, Done(id))
            else if job.refKind == "late_duplicate" then Ends(s, after, slot, Failed("late_media_not_recovered"))
            else if !stable then Ends(s, after, slot, Failed("missing_stable_media_reference"))
            else after == s.(working := Some(Work(slot, job)))
  {
    hide JobResolved, Resolved, ResolvedId, Names;
    ResolvedIff(s.ledger, slot, s.jobs[slot], log);
    ResolvedNames(s.ledger, slot, s.jobs[slot], log);
    var after := BeginJob(s, slot, log, now);
    if s.working.None? && s.jobs[slot].status.Active? && s.jobs[slot].nextAttempt <= now && Resolved(s.ledger, slot, s.jobs[slot], log) {
      assert Ends(s, after, slot, Done(ResolvedId(s.ledger, slot, s.jobs[slot], log.referenced)));
    }
  }

  /**
   After a download that brought a file of fit size, the part is sent exactly if it is not resolved by then; a posted part ends the
   job and is recorded under its key, one that is not posted is tried again.
   */
  lemma DownloadIsSent(s: Bridge, log: Log, reply: Reply, now: int)
    requires s.working.Some? && s.working.value.slot in s.jobs
    ensures var after := FinishJob(s, log, Got(false), reply, now);
            var Work(slot, job) := s.working.value;
            if Resolved(s.ledger, slot, job, log) then
              after.sends == s.sends && after.ledger == s.ledger && exists id :: Names(s.ledger, slot, job, log, id) && Ends(s, after, slot, Done(id))
            else
              && |after.sends| == |s.sends| + 1
              && s.sends <= after.sends
              && var e := after.sends[|s.sends|];
                 && e.call == s.calls
                 && e.key == JobKey(slot)
                 && e.delivered == IsPosted(reply)
                 && e.id == PostedId(reply)
                 && e.recorded == (IsPosted(reply) && JobKey(slot).Some?)
                 && (e.recorded ==> JobKey(slot).value in after.ledger)
                 && (if reply.Died? then after.working.None? && after.jobs == s.jobs
                     else if IsPosted(reply) then Ends(s, after, slot, Done(reply.id))
                     else Retries(s, after, s.working.value, "tg_send_failed", now))
  {
    hide JobResolved, Resolved, ResolvedId, Names, Retries, Retried, JobKey, Recorded, JobReference;
    var Work(slot, job) := s.working.value;
    ResolvedNames(s.ledger, slot, job, log);
    ResolvedIff(s.ledger, slot, job, log);
    var after := FinishJob(s, log, Got(false), reply, now);
    if Resolved(s.ledger, slot, job, log) {
      assert Ends(s, after, slot, Done(ResolvedId(s.ledger, slot, job, log.referenced)));
    } else {
      SaveGrows(s.ledger, JobKey(slot), PostedId(reply), JobReference(job));
      var e := Send(s.calls, JobKey(slot), JobReference(job), PostedId(reply), IsPosted(reply), IsPosted(reply) && JobKey(slot).Some?);
      var sent := s.(sends := s.sends + [e]);
      RetriedSends(sent, s.working.value, "tg_send_failed", now, s);
      assert after.sends == sent.sends;
    }
  }

  /** A file that is too large is not sent as a part. */
  lemma TooLargeIsNotSent(s: Bridge, log: Log, reply: Reply, now: int)
    requires s.working.Some? && s.working.value.slot in s.jobs
    ensures var after := FinishJob(s, log, Got(true), reply, now);
            var Work(slot, job) := s.working.value;
            && after.sends == s.sends && after.ledger == s.ledger
            && (if Resolved(s.ledger, slot, job, log) then exists id :: Names(s.ledger, slot, job, log, id) && Ends(s, after, slot, Done(id))
                else Ends(s, after, slot, Failed("file_too_large")))
  {
    hide JobResolved, Resolved, ResolvedId, Names;
    var Work(slot, job) := s.working.value;
    ResolvedNames(s.ledger, slot, job, log);
    ResolvedIff(s.ledger, slot, job, log);
    if Resolved(s.ledger, slot, job, log) {
      assert Ends(s, FinishJob(s, log, Got(true), reply, now), slot, Done(ResolvedId(s.ledger, slot, job, log.referenced)));
    }
  }

  lemma RetriedSends(sent: Bridge, work: Work, error: string, now: int, s: Bridge)
    requires work.slot in s.jobs && sent.jobs == s.jobs
    ensures var after := Retried(sent, work, error, now);
            after.ledger == sent.ledger
            && after.sends == sent.sends
            && Retries(s, after, work, error, now)
  {
    hide RetryDelay;
    RetriedSendsNothing(sent, work, error, now);
    RetriedRetries(sent, work, error, now);
  }

  /** A download that brought nothing is tried again, unless it needed the cache and the cache has lost it. */
  lemma NothingDownloaded(s: Bridge, log: Log, cacheMiss: bool, reply: Reply, now: int)
    requires s.working.Some? && s.working.value.slot in s.jobs
    ensures var after := FinishJob(s, log, Nothing(cacheMiss), reply, now);
            var Work(slot, job) := s.working.value;
            && after.sends == s.sends && after.ledger == s.ledger
            && (if cacheMiss && job.refKind == "cached_payload" && job.refId != "" then
                  Ends(s, after, slot, Failed("media_recovery_cache_miss"))
                else Retries(s, after, s.working.value, "download_failed", now))
            && (var crashed := FinishJob(s, log, Crashed, reply, now);
                crashed.sends == s.sends
                && crashed.ledger == s.ledger
                && Retries(s, crashed, s.working.value, "download_exception", now))
  {
    hide Retries, Retried;
    RetriedSends(s, s.working.value, "download_failed", now, s);
    RetriedSends(s, s.working.value, "download_exception", now, s);
  }
}
