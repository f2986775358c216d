/** The handlers that send media parts and write the ledger (src/bridge/forwarding.py, src/bridge/media_retry.py). */
module MediaBridges {
  import opened Wrappers
  import opened MessageIds
  import opened MediaLedger

  class MediaBridge {
    var ledger: Ledger
    var jobs: map<Slot, Job>
    var working: Option<Work>
    ghost var calls: nat
    ghost var sends: seq<Send>

    constructor ()
      ensures View() == EMPTY
    {
      ledger, jobs, working, calls, sends := map[], map[], None, 0, [];
    }

    ghost function View(): Bridge
      reads this
    {
      Bridge(ledger, jobs, working, calls, sends)
    }

    method UndeliveredAttachments(m: Message) returns (parts: seq<(int, Attachment)>)
      ensures parts == Undelivered(ledger, m, 0)
    {
      hide Undelivered, AttachmentDelivered;
      parts := [];
      for i := 0 to |m.attachments|
        invariant parts + Undelivered(ledger, m, i) == Undelivered(ledger, m, 0)
      {
        UndeliveredStep(ledger, m, i, parts);
        if !AttachmentDelivered(ledger, m, m.attachments[i], i) {
          parts := parts + [(PartIndex(m.attachments[i], i), m.attachments[i])];
        }
      }
      UndeliveredEnd(ledger, m);
    }

    /** Sends what is not delivered yet, recording each part as soon as it is sent. */
    method ForwardToTelegram(m: Message, replies: nat -> Reply)
      modifies this
      ensures View() == Forward(old(View()), m, replies)
    {
      var parts := UndeliveredAttachments(m);
      var i := 0;
      while i < |parts|
        invariant ForwardFrom(View(), m, parts, i, replies) == Forward(old(View()), m, replies)
      {
        hide PartKey, Recorded;
        var (index, a) := parts[i];
        if a.present {
          var reply, key := replies(i), PartKey(m, a, index);
          var recorded := IsPosted(reply) && Recordable(a);
          sends := sends + [Send(calls, key, PartReference(a), PostedId(reply), IsPosted(reply), recorded && key.Some?)];
          if recorded {
            ledger := Recorded(ledger, key, reply.id, PartReference(a));
          }
          if reply.Died? {
            working := None;
            return;
          }
        }
        i := i + 1;
      }
    }

    /** Writes one recovered part to the ledger and settles its pending download. */
    method RecordPart(m: Message, index: int, a: Attachment, tgMsgId: nat)
      modifies this
      ensures View() == RecordOne(old(View()), m, index, a, tgMsgId)
    {
      ledger := Recorded(ledger, PartKey(m, a, index), tgMsgId, PartReference(a));
      jobs := Settle(jobs, Slot(m.chat, m.id, index, PartKind(a.kind)), tgMsgId);
      var base := Canonical(m.id, m.status);
      if base.Some? {
        jobs := Settle(jobs, Slot(m.chat, base.value, index, PartKind(a.kind)), tgMsgId);
      }
    }

    /** Sends the late parts of a message seen before; true if all of them were sent and recorded. */
    method RecoverLateMedia(m: Message, latest: Option<Entry>, routed: bool, replies: nat -> Reply) returns (recovered: bool)
      modifies this
      ensures View() == Recover(old(View()), m, latest, routed, replies)
      ensures recovered == (MayRecover(old(View()), m, latest, routed) &&
                            var parts := Undelivered(old(ledger), m, 0);
                            forall j :: 0 <= j < |parts| ==> parts[j].1.present && IsPosted(replies(j)))
    {
      hide IsRecoveryCandidate, IsPending, RecordFrom, RecordOne, PostedFrom, SendsFrom, DiesFrom, Undelivered;
      var parts := UndeliveredAttachments(m);
      if parts == [] {
        return false;
      }
      if !IsRecoveryCandidate(latest) {
        var pending := false;
        for k := 0 to |parts|
          invariant View() == old(View())
          invariant pending <==> exists j :: 0 <= j < k && IsPending(jobs, m, parts[j].0, parts[j].1.kind)
        {
          pending := pending || IsPending(jobs, m, parts[k].0, parts[k].1.kind);
        }
        if !pending {
          return false;
        }
      }
      if !routed {
        return false;
      }
      var records, died := SendParts(parts, replies);
      CompleteMeansAll(parts, 0, replies);
      recovered := |records| == |parts|;
      sends := sends + SendsFrom(calls, m, parts, 0, replies, recovered);
      if died {
        working := None;
      } else if recovered {
        ghost var sent := View();
        for k := 0 to |records|
          invariant RecordFrom(View(), m, parts, k, replies) == RecordFrom(sent, m, parts, 0, replies)
        {
          RecordFromStep(View(), m, parts, k, replies);
          RecordPart(m, records[k].0, records[k].1, records[k].2);
        }
        RecordFromEnd(View(), m, parts, |parts|, replies);
      }
    }

    /** Posts the parts in turn, keeping those that were posted. */
    method SendParts(parts: seq<(int, Attachment)>, replies: nat -> Reply)
      returns (records: seq<(int, Attachment, nat)>, died: bool)
      ensures |records| == PostedFrom(parts, 0, replies) && died == DiesFrom(parts, 0, replies)
      ensures |records| == |parts| ==> forall k :: 0 <= k < |parts| ==>
                IsPosted(replies(k)) && records[k] == (parts[k].0, parts[k].1, replies(k).id)
    {
      records, died := [], false;
      var i := 0;
      while i < |parts|
        invariant i <= |parts| && |records| <= i
        invariant |records| + PostedFrom(parts, i, replies) == PostedFrom(parts, 0, replies)
        invariant DiesFrom(parts, i, replies) == DiesFrom(parts, 0, replies)
        invariant |records| == i ==> forall k :: 0 <= k < i ==>
                    IsPosted(replies(k)) && records[k] == (parts[k].0, parts[k].1, replies(k).id)
      {
        if parts[i].1.present {
          if replies(i).Died? {
            died := true;
            return;
          }
          if IsPosted(replies(i)) {
            records := records + [(parts[i].0, parts[i].1, replies(i).id)];
          }
        }
        i := i + 1;
      }
    }

    method TakeUpJob(slot: Slot, log: Log, now: int)
      requires slot in jobs
      modifies this
      ensures View() == BeginJob(old(View()), slot, log, now)
    {
      hide JobResolved, IsStable, IsCached, ResolvedId;
      var job := jobs[slot];
      if working.Some? || !job.status.Active? || job.nextAttempt > now {
        return;
      }
      if JobResolved(ledger, slot, job, log.own, log.base) {
        MarkJob(slot, Done(ResolvedId(ledger, slot, job, log.referenced)));
      } else if job.refKind == LATE {
        MarkJob(slot, Failed("late_media_not_recovered"));
      } else if !IsStable(slot, job) && !IsCached(job) {
        MarkJob(slot, Failed("missing_stable_media_reference"));
      } else {
        working := Some(Work(slot, job));
      }
    }

    method MarkJob(slot: Slot, status: Status)
      requires slot in jobs
      modifies this
      ensures View() == Finished(old(View()), slot, status)
    {
      working := None;
      jobs := jobs[slot := jobs[slot].(status := status, attempts := jobs[slot].attempts + 1)];
    }

    method RetryJob(work: Work, error: string, now: int)
      requires work.slot in jobs
      modifies this
      ensures View() == Retried(old(View()), work, error, now)
    {
      var attempts := work.job.attempts + 1;
      if work.slot.kind == "video" && attempts >= MAX_VIDEO_ATTEMPTS {
        MarkJob(work.slot, Failed("video_retry_exhausted:" + error));
      } else {
        MarkJob(work.slot, Active);
        jobs := jobs[work.slot := jobs[work.slot].(nextAttempt := now + RetryDelay(work.slot.kind, attempts))];
      }
    }

    /** After the download: the ledger is asked again before anything is sent. */
    method CompleteJob(log: Log, fetch: Fetch, reply: Reply, now: int)
      requires working.Some? && working.value.slot in jobs
      modifies this
      ensures View() == FinishJob(old(View()), log, fetch, reply, now)
    {
      hide JobResolved, IsCached, ResolvedId, Retried, Recorded, JobKey;
      var work := working.value;
      var slot, job := work.slot, work.job;
      match fetch {
        case Crashed => RetryJob(work, "download_exception", now);
        case Nothing(cacheMiss) =>
          if IsCached(job) && cacheMiss {
            MarkJob(slot, Failed("media_recovery_cache_miss"));
          } else {
            RetryJob(work, "download_failed", now);
          }
        case Got(tooLarge) =>
          if JobResolved(ledger, slot, job, log.own, log.base) {
            MarkJob(slot, Done(ResolvedId(ledger, slot, job, log.referenced)));
          } else if tooLarge {
            MarkJob(slot, Failed("file_too_large"));
          } else {
            var key := JobKey(slot);
            sends := sends + [Send(calls, key, JobReference(job), PostedId(reply), IsPosted(reply), IsPosted(reply) && key.Some?)];
            if reply.Died? {
              working := None;
            } else if !IsPosted(reply) {
              RetryJob(work, "tg_send_failed", now);
            } else {
              ledger := Recorded(ledger, key, reply.id, JobReference(job));
              MarkJob(slot, Done(reply.id));
            }
          }
      }
    }
  }

  lemma UndeliveredStep(ledger: Ledger, m: Message, i: nat, before: seq<(int, Attachment)>)
    requires i < |m.attachments|
    ensures before + Undelivered(ledger, m, i)
         == (if AttachmentDelivered(ledger, m, m.attachments[i], i) then before
             else before + [(PartIndex(m.attachments[i], i), m.attachments[i])]) + Undelivered(ledger, m, i + 1)
  {
    hide AttachmentDelivered;
  }

  lemma UndeliveredEnd(ledger: Ledger, m: Message)
    ensures Undelivered(ledger, m, |m.attachments|) == []
  {
  }

  lemma RecordFromStep(s: Bridge, m: Message, parts: seq<(int, Attachment)>, k: nat, replies: nat -> Reply)
    requires k < |parts| && replies(k).Posted?
    ensures RecordFrom(s, m, parts, k, replies)
         == RecordFrom(RecordOne(s, m, parts[k].0, parts[k].1, replies(k).id), m, parts, k + 1, replies)
  {
  }

  lemma RecordFromEnd(s: Bridge, m: Message, parts: seq<(int, Attachment)>, k: nat, replies: nat -> Reply)
    requires k >= |parts|
    ensures RecordFrom(s, m, parts, k, replies) == s
  {
  }
}
