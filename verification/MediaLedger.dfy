/** The ledger of delivered media parts, and the three operations that send parts. */
module MediaLedger {
  import opened Wrappers
  import opened MessageIds
  import opened Rates

  // src/bridge/forwarding.py, src/bridge/media_retry.py and src/db/repos/delivered_media.py.
  // The process may die after any send, before it is recorded.

  /** The unique key of a ledger row. */
  datatype Key = Key(chat: string, base: string, index: int, kind: string)

  datatype Reference = Reference(kind: Option<string>, id: Option<string>)

  datatype Row = Row(tgMsgId: nat, reference: Reference)

  type Ledger = map<Key, Row>

  /** A downloaded attachment; `present` and `tooLarge` describe its file. */
  datatype Attachment = Attachment(kind: string, index: Option<int>, reference: Reference, present: bool, tooLarge: bool)

  datatype Message = Message(chat: string, id: string, status: string, attachments: seq<Attachment>)

  /** The unique key of a pending download. */
  datatype Slot = Slot(chat: string, id: string, index: int, kind: string)

  datatype Status = Active | Done(tgMsgId: nat) | Failed(error: string)

  datatype Job = Job(refKind: string, refId: string, attempts: nat, status: Status, nextAttempt: int)

  /** A download the worker has begun, with the job as it was then. */
  datatype Work = Work(slot: Slot, job: Job)

  /** A message Telegram was asked to post for a part. */
  datatype Send = Send(call: nat, key: Option<Key>, reference: Reference, id: nat, delivered: bool, recorded: bool)

  /** What became of a send; after Died nothing more of the call happens. */
  datatype Reply = Posted(id: nat) | Refused | Died

  /** The latest entry of the delivery log for a message. */
  datatype Entry = Entry(status: string, error: string)

  /** `calls` counts calls; `sends` is the history of what they sent. */
  datatype Bridge = Bridge(ledger: Ledger, jobs: map<Slot, Job>, working: Option<Work>, calls: nat, sends: seq<Send>)

  const EMPTY := Bridge(map[], map[], None, 0, [])

  // --- ledger ---

  function Coalesce<T>(a: Option<T>, b: Option<T>): Option<T> {
    if a.Some? then a else b
  }

  /** An existing row keeps what it has and takes only what it lacks. */
  function Save(ledger: Ledger, key: Key, row: Row): Ledger {
    if key in ledger then
      var was := ledger[key];
      ledger[key := was.(reference := Reference(Coalesce(was.reference.kind, row.reference.kind),
                                                Coalesce(was.reference.id, row.reference.id)))]
    else ledger[key := row]
  }

  predicate HasReference(ledger: Ledger, chat: string, base: string, kind: string, reference: Reference) {
    reference.kind.Some?
    && reference.kind.value != ""
    && reference.id.Some? &&
    exists k :: k in ledger && k.chat == chat && k.base == base && k.kind == kind && ledger[k].reference == reference
  }

  /** Whether a part is known to be delivered, under its own key or under its reference. */
  predicate IsDelivered(ledger: Ledger, key: Key, reference: Reference) {
    key in ledger || HasReference(ledger, key.chat, key.base, key.kind, reference)
  }

  function PartIndex(a: Attachment, fallback: int): int {
    if a.index.Some? then a.index.value else fallback
  }

  /** Half a reference is none. */
  function PartReference(a: Attachment): Reference {
    if a.reference.kind.Some? && a.reference.kind.value != "" && a.reference.id.Some? then a.reference else Reference(None, None)
  }

  function PartKey(m: Message, a: Attachment, fallback: int): Option<Key> {
    match Canonical(m.id, m.status)
    case None => None
    case Some(base) => Some(Key(m.chat, base, PartIndex(a, fallback), PartKind(a.kind)))
  }

  predicate AttachmentDelivered(ledger: Ledger, m: Message, a: Attachment, fallback: int) {
    var key := PartKey(m, a, fallback);
    key.Some? && IsDelivered(ledger, key.value, PartReference(a))
  }

  /** The attachments from the i-th on that are not delivered, with their part indexes. */
  function Undelivered(ledger: Ledger, m: Message, i: nat): seq<(int, Attachment)>
    decreases |m.attachments| - i
  {
    if i >= |m.attachments| then []
    else
      (if AttachmentDelivered(ledger, m, m.attachments[i], i) then []
       else [(PartIndex(m.attachments[i], i), m.attachments[i])])
      + Undelivered(ledger, m, i + 1)
  }

  function Recorded(ledger: Ledger, key: Option<Key>, tgMsgId: nat, reference: Reference): Ledger {
    if key.None? || tgMsgId == 0 then ledger else Save(ledger, key.value, Row(tgMsgId, reference))
  }

  predicate IsPosted(reply: Reply) {
    reply.Posted? && reply.id != 0
  }

  function PostedId(reply: Reply): nat {
    if reply.Posted? then reply.id else 0
  }

  // --- forwarding a message ---

  /** Only the media itself is recorded, not a note that it is too large or unsupported. */
  predicate Recordable(a: Attachment) {
    !a.tooLarge
    && a.kind in {"photo", "video", "audio", "document"}
  }

  function ForwardPart(s: Bridge, m: Message, index: int, a: Attachment, reply: Reply): Bridge {
    var key := PartKey(m, a, index);
    if IsPosted(reply) && Recordable(a) then
      s.(ledger := Recorded(s.ledger, key, reply.id, PartReference(a)),
         sends := s.sends + [Send(s.calls, key, PartReference(a), reply.id, true, key.Some?)])
    else
      s.(sends := s.sends + [Send(s.calls, key, PartReference(a), PostedId(reply), IsPosted(reply), false)])
  }

  function ForwardFrom(s: Bridge, m: Message, parts: seq<(int, Attachment)>, i: nat, replies: nat -> Reply): Bridge
    decreases |parts| - i
  {
    if i >= |parts| then s
    else if !parts[i].1.present then ForwardFrom(s, m, parts, i + 1, replies)
    else
      var after := ForwardPart(s, m, parts[i].0, parts[i].1, replies(i));
      if replies(i).Died? then after.(working := None) else ForwardFrom(after, m, parts, i + 1, replies)
  }

  function Forward(s: Bridge, m: Message, replies: nat -> Reply): Bridge {
    ForwardFrom(s, m, Undelivered(s.ledger, m, 0), 0, replies)
  }

  // --- recovering late media of a message seen before ---

  predicate StartsWith(s: string, prefix: string) {
    prefix <= s
  }

  predicate IsRecoveryCandidate(latest: Option<Entry>) {
    latest.Some?
    && latest.value.status == "partial"
    && StartsWith(latest.value.error, "attachment_download_failed:")
  }

  /** The id a pending download is kept under is that of the message or its canonical id. */
  predicate IsPending(jobs: map<Slot, Job>, m: Message, index: int, kind: string) {
    || (m.id != "" && IsActive(jobs, Slot(m.chat, m.id, index, PartKind(kind))))
    || (Canonical(m.id, m.status).Some?
        && IsActive(jobs, Slot(m.chat, Canonical(m.id, m.status).value, index, PartKind(kind))))
  }

  predicate IsActive(jobs: map<Slot, Job>, slot: Slot) {
    slot in jobs && jobs[slot].status.Active?
  }

  predicate MayRecover(s: Bridge, m: Message, latest: Option<Entry>, routed: bool) {
    var parts := Undelivered(s.ledger, m, 0);
    parts != [] && routed
    && (IsRecoveryCandidate(latest) || exists i :: 0 <= i < |parts| && IsPending(s.jobs, m, parts[i].0, parts[i].1.kind))
  }

  /** How many of the parts from the i-th on are posted before the process dies, if it does. */
  function PostedFrom(parts: seq<(int, Attachment)>, i: nat, replies: nat -> Reply): nat
    decreases |parts| - i
  {
    if i >= |parts| then 0
    else if !parts[i].1.present then PostedFrom(parts, i + 1, replies)
    else if replies(i).Died? then 0
    else (if IsPosted(replies(i)) then 1 else 0) + PostedFrom(parts, i + 1, replies)
  }

  function SendsFrom(call: nat, m: Message, parts: seq<(int, Attachment)>, i: nat, replies: nat -> Reply, recorded: bool): seq<Send>
    decreases |parts| - i
  {
    if i >= |parts| then []
    else if !parts[i].1.present then SendsFrom(call, m, parts, i + 1, replies, recorded)
    else
      var key := PartKey(m, parts[i].1, parts[i].0);
      [Send(call, key, PartReference(parts[i].1), PostedId(replies(i)), IsPosted(replies(i)), recorded && key.Some?)]
      + if replies(i).Died? then [] else SendsFrom(call, m, parts, i + 1, replies, recorded)
  }

  predicate DiesFrom(parts: seq<(int, Attachment)>, i: nat, replies: nat -> Reply)
    decreases |parts| - i
  {
    i < |parts| && ((parts[i].1.present && replies(i).Died?) || DiesFrom(parts, i + 1, replies))
  }

  function Settle(jobs: map<Slot, Job>, slot: Slot, tgMsgId: nat): map<Slot, Job> {
    if IsActive(jobs, slot) then jobs[slot := jobs[slot].(status := Done(tgMsgId), attempts := jobs[slot].attempts + 1)] else jobs
  }

  /** Records one part, and settles its pending download under either id. */
  function RecordOne(s: Bridge, m: Message, index: int, a: Attachment, tgMsgId: nat): Bridge {
    var kind := PartKind(a.kind);
    var base := Canonical(m.id, m.status);
    var jobs := Settle(s.jobs, Slot(m.chat, m.id, index, kind), tgMsgId);
    s.(ledger := Recorded(s.ledger, PartKey(m, a, index), tgMsgId, PartReference(a)),
       jobs := if base.Some? then Settle(jobs, Slot(m.chat, base.value, index, kind), tgMsgId) else jobs)
  }

  /** Records the parts from the i-th on, all of them posted, and settles their pending downloads. */
  function RecordFrom(s: Bridge, m: Message, parts: seq<(int, Attachment)>, i: nat, replies: nat -> Reply): Bridge
    decreases |parts| - i
  {
    if i >= |parts| then s
    else if !replies(i).Posted? then s
    else RecordFrom(RecordOne(s, m, parts[i].0, parts[i].1, replies(i).id), m, parts, i + 1, replies)
  }

  /** Late parts are recorded all together, or not at all if one of them could not be sent. */
  function Recover(s: Bridge, m: Message, latest: Option<Entry>, routed: bool, replies: nat -> Reply): Bridge {
    if !MayRecover(s, m, latest, routed) then s
    else
      var parts := Undelivered(s.ledger, m, 0);
      var complete := PostedFrom(parts, 0, replies) == |parts|;
      var sent := s.(sends := s.sends + SendsFrom(s.calls, m, parts, 0, replies, complete));
      if DiesFrom(parts, 0, replies) then sent.(working := None)
      else if complete then RecordFrom(sent, m, parts, 0, replies)
      else sent
  }

  // --- pending downloads ---

  const MAX_VIDEO_ATTEMPTS := 6
  const VIDEO_INTERVAL := 180
  const LATE := "late_duplicate"
  const CACHED := "cached_payload"

  function RetryDelay(kind: string, attempts: nat): nat {
    if kind == "video" then VIDEO_INTERVAL
    else
      var exponent := if attempts <= 1 then 0 else if attempts - 1 > 8 then 8 else attempts - 1;
      var delay := 60 * Power(exponent);
      if delay < 6 * 3600 then delay else 6 * 3600
  }

  predicate IsResolved(latest: Option<Entry>) {
    latest.Some? && latest.value.status == "delivered"
    && latest.value.error in {"", "late_media_recovered", "manual_photo_recovery", "manual_video_recovery", "manual_media_recovery"}
  }

  function JobKey(slot: Slot): Option<Key> {
    match Canonical(slot.id, "")
    case None => None
    case Some(base) => Some(Key(slot.chat, base, slot.index, PartKind(slot.kind)))
  }

  /** A job without a reference id has no reference. */
  function JobReference(job: Job): Reference {
    if job.refId != "" then Reference(Some(job.refKind), Some(job.refId)) else Reference(None, None)
  }

  predicate JobDelivered(ledger: Ledger, slot: Slot, job: Job) {
    JobKey(slot).Some?
    && IsDelivered(ledger, JobKey(slot).value, JobReference(job))
  }

  predicate HasParts(ledger: Ledger, chat: string, base: string) {
    exists k :: k in ledger && k.chat == chat && k.base == base
  }

  /** The delivery log counts only while the ledger knows nothing of the message. */
  predicate JobResolved(ledger: Ledger, slot: Slot, job: Job, latest: Option<Entry>, latestBase: Option<Entry>) {
    || JobDelivered(ledger, slot, job)
    || (!(Canonical(slot.id, "").Some? && HasParts(ledger, slot.chat, Canonical(slot.id, "").value))
        && (IsResolved(latest) || (EditBase(slot.id, "").Some? && IsResolved(latestBase))))
  }

  /** The Telegram message of a resolved job: of its own row, of a row with its reference, or unknown. */
  function ResolvedId(ledger: Ledger, slot: Slot, job: Job, referenced: nat): nat {
    if !JobDelivered(ledger, slot, job) then 0
    else if JobKey(slot).value in ledger then ledger[JobKey(slot).value].tgMsgId
    else referenced
  }

  predicate IsStable(slot: Slot, job: Job) {
    job.refId != "" &&
    (|| (slot.kind == "video" && job.refKind == "video_id")
     || (slot.kind == "audio" && job.refKind in {"audio_id", "file_id"})
     || (slot.kind == "photo" && job.refKind == "file_id"))
  }

  predicate IsCached(job: Job) {
    job.refId != "" && job.refKind == CACHED
  }

  /** The job as it is now gets the status; a retry makes it active even if another call had settled it. */
  function Finished(s: Bridge, slot: Slot, status: Status): Bridge
    requires slot in s.jobs
  {
    var job := s.jobs[slot];
    s.(working := None, jobs := s.jobs[slot := job.(status := status, attempts := job.attempts + 1)])
  }

  function Retried(s: Bridge, work: Work, error: string, now: int): Bridge
    requires work.slot in s.jobs
  {
    var slot, attempts := work.slot, work.job.attempts + 1;
    if slot.kind == "video" && attempts >= MAX_VIDEO_ATTEMPTS then
      Finished(s, slot, Failed("video_retry_exhausted:" + error))
    else
      var after := Finished(s, slot, Active);
      after.(jobs := after.jobs[slot := after.jobs[slot].(nextAttempt := now + RetryDelay(slot.kind, attempts))])
  }

  /** The worker takes up a due job and begins its download, unless the job has come to an end. */
  function BeginJob(s: Bridge, slot: Slot, log: Log, now: int): Bridge
    requires slot in s.jobs
  {
    var job := s.jobs[slot];
    if s.working.Some? || !job.status.Active? || job.nextAttempt > now then s
    else if JobResolved(s.ledger, slot, job, log.own, log.base) then
      Finished(s, slot, Done(ResolvedId(s.ledger, slot, job, log.referenced)))
    else if job.refKind == LATE then Finished(s, slot, Failed("late_media_not_recovered"))
    else if !IsStable(slot, job) && !IsCached(job) then Finished(s, slot, Failed("missing_stable_media_reference"))
    else s.(working := Some(Work(slot, job)))
  }

  /** What a download brings. */
  datatype Fetch = Crashed | Nothing(cacheMiss: bool) | Got(tooLarge: bool)

  /** What the worker reads elsewhere: the delivery log, and the row found by reference. */
  datatype Log = Log(own: Option<Entry>, base: Option<Entry>, referenced: nat)

  /** The download is over; other calls may have sent the part in the meantime. */
  function FinishJob(s: Bridge, log: Log, fetch: Fetch, reply: Reply, now: int): Bridge
    requires s.working.Some? && s.working.value.slot in s.jobs
  {
    var Work(slot, job) := s.working.value;
    match fetch
    case Crashed => Retried(s, s.working.value, "download_exception", now)
    case Nothing(cacheMiss) =>
      if IsCached(job) && cacheMiss then Finished(s, slot, Failed("media_recovery_cache_miss"))
      else Retried(s, s.working.value, "download_failed", now)
    case Got(tooLarge) =>
      if JobResolved(s.ledger, slot, job, log.own, log.base) then
        Finished(s, slot, Done(ResolvedId(s.ledger, slot, job, log.referenced)))
      else if tooLarge then Finished(s, slot, Failed("file_too_large"))
      else SendJob(s, reply, now)
  }

  function SendJob(s: Bridge, reply: Reply, now: int): Bridge
    requires s.working.Some? && s.working.value.slot in s.jobs
  {
    var Work(slot, job) := s.working.value;
    var key := JobKey(slot);
    var sent := s.(sends := s.sends + [Send(s.calls, key, JobReference(job), PostedId(reply), IsPosted(reply), IsPosted(reply) && key.Some?)]);
    if reply.Died? then sent.(working := None)
    else if !IsPosted(reply) then Retried(sent, s.working.value, "tg_send_failed", now)
    else Finished(sent.(ledger := Recorded(s.ledger, key, reply.id, JobReference(job))), slot, Done(reply.id))
  }

  // --- runs ---

  datatype Action =
    | Forwarding(message: Message, replies: nat -> Reply)
    | Recovering(message: Message, latest: Option<Entry>, routed: bool, replies: nat -> Reply)
    | Queueing(slot: Slot, job: Job)
    | Beginning(slot: Slot, log: Log, now: int)
    | Finishing(log: Log, fetch: Fetch, reply: Reply, now: int)

  function Apply(s: Bridge, a: Action): Bridge {
    match a
    case Forwarding(m, replies) => Forward(s, m, replies)
    case Recovering(m, latest, routed, replies) => Recover(s, m, latest, routed, replies)
    case Queueing(slot, job) => s.(jobs := s.jobs[slot := job])
    case Beginning(slot, log, now) => if slot in s.jobs then BeginJob(s, slot, log, now) else s
    case Finishing(log, fetch, reply, now) =>
      if s.working.Some? && s.working.value.slot in s.jobs then FinishJob(s, log, fetch, reply, now) else s
  }

  /** Calls interleave with downloads, but not with each other. */
  function Execute(actions: seq<Action>): Bridge {
    if actions == [] then EMPTY
    else
      var s := Apply(Execute(actions[..|actions| - 1]), actions[|actions| - 1]);
      s.(calls := s.calls + 1)
  }

  // --- what every call keeps ---

  ghost predicate IsRecorded(sends: seq<Send>, key: Key) {
    exists i :: 0 <= i < |sends| && sends[i].recorded && sends[i].key == Some(key)
  }

  /** The send that put the row into the ledger. */
  ghost predicate IsRecordedAs(sends: seq<Send>, key: Key, id: nat) {
    exists i :: 0 <= i < |sends| && sends[i].recorded && sends[i].key == Some(key) && sends[i].id == id
  }

  /** A row keeps its message and what it knows of its reference. */
  predicate RowKept(row: Row, later: Row) {
    && later.tgMsgId == row.tgMsgId
    && (row.reference.kind.Some? ==> later.reference.kind == row.reference.kind)
    && (row.reference.id.Some? ==> later.reference.id == row.reference.id)
  }

  /** Nothing that was known to be delivered when the call began is sent, and what is recorded is in the ledger. */
  ghost predicate New(s: Bridge, ledger: Ledger, e: Send) {
    && e.call == s.calls
    && (e.recorded ==> e.delivered && e.key.Some?)
    && (e.key.Some? ==> !IsDelivered(s.ledger, e.key.value, e.reference) && (e.recorded ==> e.key.value in ledger))
  }

  ghost predicate Grown(s: Bridge, after: Bridge) {
    && after.calls == s.calls && s.sends <= after.sends
    && (forall k :: k in s.ledger ==> k in after.ledger && RowKept(s.ledger[k], after.ledger[k]))
  }

  ghost predicate Justified(s: Bridge, after: Bridge) {
    forall k :: k in after.ledger && k !in s.ledger ==> IsRecordedAs(after.sends, k, after.ledger[k].tgMsgId)
  }

  ghost predicate Careful(s: Bridge, after: Bridge) {
    && Grown(s, after) && Justified(s, after)
    && (forall i :: |s.sends| <= i < |after.sends| ==> New(s, after.ledger, after.sends[i]))
  }

  /** None of the parts was known to be delivered. */
  ghost predicate Unknown(ledger: Ledger, m: Message, parts: seq<(int, Attachment)>) {
    forall i :: 0 <= i < |parts| ==>
      parts[i].0 == PartIndex(parts[i].1, parts[i].0)
      && !AttachmentDelivered(ledger, m, parts[i].1, parts[i].0)
  }

  lemma {:induction false} UndeliveredAreUnknown(ledger: Ledger, m: Message, i: nat)
    ensures Unknown(ledger, m, Undelivered(ledger, m, i))
    decreases |m.attachments| - i
  {
    hide AttachmentDelivered;
    if i < |m.attachments| {
      UndeliveredAreUnknown(ledger, m, i + 1);
      SameKey(ledger, m, m.attachments[i], i);
    }
  }

  lemma SameKey(ledger: Ledger, m: Message, a: Attachment, fallback: int)
    ensures PartKey(m, a, PartIndex(a, fallback)) == PartKey(m, a, fallback)
    ensures AttachmentDelivered(ledger, m, a, PartIndex(a, fallback)) == AttachmentDelivered(ledger, m, a, fallback)
  {
  }

  lemma SaveGrows(ledger: Ledger, key: Option<Key>, tgMsgId: nat, reference: Reference)
    ensures var after := Recorded(ledger, key, tgMsgId, reference);
            && (forall k :: k in ledger ==> k in after && RowKept(ledger[k], after[k]))
            && (forall k :: k in after && k !in ledger ==> key == Some(k) && after[k] == Row(tgMsgId, reference))
            && (key.Some? && tgMsgId != 0 ==> key.value in after)
  {
  }

  /** One more send, recorded or not, is as careful as those before it. */
  lemma SendKeeps(s: Bridge, before: Bridge, after: Bridge, e: Send)
    requires Careful(s, before) && Grown(before, after) && after.sends == before.sends + [e]
    requires New(s, after.ledger, e)
    requires forall k :: k in after.ledger && k !in before.ledger ==> e.recorded && e.key == Some(k) && e.id == after.ledger[k].tgMsgId
    ensures Careful(s, after)
  {
    hide IsDelivered;
    forall k | k in after.ledger && k !in s.ledger
      ensures IsRecordedAs(after.sends, k, after.ledger[k].tgMsgId)
    {
      if k in before.ledger {
        var i :| 0 <= i < |before.sends| && before.sends[i].recorded && before.sends[i].key == Some(k)
                 && before.sends[i].id == before.ledger[k].tgMsgId;
        assert after.sends[i] == before.sends[i];
      } else {
        assert after.sends[|before.sends|] == e;
      }
    }
  }

  lemma ForwardPartKeeps(s: Bridge, before: Bridge, m: Message, index: int, a: Attachment, reply: Reply)
    requires Careful(s, before) && !AttachmentDelivered(s.ledger, m, a, index)
    ensures Careful(s, ForwardPart(before, m, index, a, reply))
  {
    hide IsDelivered, Recorded, PartKey, Careful, Canonical;
    var after := ForwardPart(before, m, index, a, reply);
    SaveGrows(before.ledger, PartKey(m, a, index), if IsPosted(reply) then reply.id else 0, PartReference(a));
    CarefulCalls(s, before);
    SendKeeps(s, before, after, after.sends[|before.sends|]);
  }

  lemma CarefulCalls(s: Bridge, after: Bridge)
    requires Careful(s, after)
    ensures after.calls == s.calls
  {
  }

  lemma {:induction false} ForwardFromKeeps(s: Bridge, before: Bridge, m: Message, parts: seq<(int, Attachment)>, i: nat,
                                            replies: nat -> Reply)
    requires Careful(s, before) && Unknown(s.ledger, m, parts)
    ensures Careful(s, ForwardFrom(before, m, parts, i, replies))
    decreases |parts| - i
  {
    hide AttachmentDelivered, ForwardPart, New, IsRecordedAs;
    if i < |parts| {
      if !parts[i].1.present {
        ForwardFromKeeps(s, before, m, parts, i + 1, replies);
      } else {
        ForwardPartKeeps(s, before, m, parts[i].0, parts[i].1, replies(i));
        if !replies(i).Died? {
          ForwardFromKeeps(s, ForwardPart(before, m, parts[i].0, parts[i].1, replies(i)), m, parts, i + 1, replies);
        }
      }
    }
  }

  /** The attempt to send one part during a recovery. */
  function Attempt(call: nat, m: Message, part: (int, Attachment), reply: Reply, recorded: bool): Send {
    var key := PartKey(m, part.1, part.0);
    Send(call, key, PartReference(part.1), PostedId(reply), IsPosted(reply), recorded && key.Some?)
  }

  /** Either every part is posted and the process lives on, or the recovery is incomplete. */
  lemma {:induction false} CompleteMeansAll(parts: seq<(int, Attachment)>, i: nat, replies: nat -> Reply)
    requires i <= |parts|
    ensures PostedFrom(parts, i, replies) <= |parts| - i
    ensures PostedFrom(parts, i, replies) == |parts| - i <==>
            forall j :: i <= j < |parts| ==> parts[j].1.present && IsPosted(replies(j))
    ensures PostedFrom(parts, i, replies) == |parts| - i ==> !DiesFrom(parts, i, replies)
    decreases |parts| - i
  {
    if i < |parts| {
      CompleteMeansAll(parts, i + 1, replies);
    }
  }

  ghost predicate IsAttempt(e: Send, call: nat, m: Message, parts: seq<(int, Attachment)>, replies: nat -> Reply, recorded: bool) {
    exists j :: 0 <= j < |parts| && e == Attempt(call, m, parts[j], replies(j), recorded)
  }

  lemma {:induction false} SendsAreAttempts(call: nat, m: Message, parts: seq<(int, Attachment)>, i: nat, replies: nat -> Reply,
                                            recorded: bool)
    ensures forall e :: e in SendsFrom(call, m, parts, i, replies, recorded) ==> IsAttempt(e, call, m, parts, replies, recorded)
    decreases |parts| - i
  {
    hide IsAttempt, PartKey, PartReference, IsPosted;
    if i < |parts| {
      SendsAreAttempts(call, m, parts, i + 1, replies, recorded);
      ThisAttempt(call, m, parts, i, replies, recorded);
    }
  }

  lemma ThisAttempt(call: nat, m: Message, parts: seq<(int, Attachment)>, i: nat, replies: nat -> Reply, recorded: bool)
    requires i < |parts|
    ensures IsAttempt(Attempt(call, m, parts[i], replies(i), recorded), call, m, parts, replies, recorded)
  {
  }

  /** In a complete recovery every part is sent, in order. */
  lemma {:induction false} CompleteSends(call: nat, m: Message, parts: seq<(int, Attachment)>, i: nat, replies: nat -> Reply)
    requires i <= |parts|
    requires forall j :: i <= j < |parts| ==> parts[j].1.present && IsPosted(replies(j))
    ensures var sends := SendsFrom(call, m, parts, i, replies, true);
            |sends| == |parts| - i &&
            forall j :: i <= j < |parts| ==> sends[j - i] == Attempt(call, m, parts[j], replies(j), true)
    decreases |parts| - i
  {
    hide PartKey, PartReference;
    if i < |parts| {
      CompleteSends(call, m, parts, i + 1, replies);
    }
  }

  /** Recording puts the keys of the parts into the ledger, and no others. */
  lemma {:induction false} RecordFromRecords(s: Bridge, m: Message, parts: seq<(int, Attachment)>, i: nat, replies: nat -> Reply)
    requires i <= |parts| && forall j :: i <= j < |parts| ==> IsPosted(replies(j))
    ensures var after := RecordFrom(s, m, parts, i, replies);
            && Grown(s, after)
            && after.sends == s.sends
            && after.working == s.working
            && (forall j :: i <= j < |parts| && PartKey(m, parts[j].1, parts[j].0).Some? ==>
                  PartKey(m, parts[j].1, parts[j].0).value in after.ledger)
            && (forall k :: k in after.ledger && k !in s.ledger ==>
                  exists j :: i <= j < |parts| && PartKey(m, parts[j].1, parts[j].0) == Some(k) && after.ledger[k].tgMsgId == PostedId(replies(j)))
    decreases |parts| - i
  {
    hide PartKey, PartReference, Recorded, Settle, Canonical, PartKind;
    if i < |parts| {
      var (index, a) := parts[i];
      SaveGrows(s.ledger, PartKey(m, a, index), replies(i).id, PartReference(a));
      var next := RecordOne(s, m, index, a, replies(i).id);
      RecordFromRecords(next, m, parts, i + 1, replies);
    }
  }

  lemma RecoverIncompleteKeeps(s: Bridge, m: Message, parts: seq<(int, Attachment)>, replies: nat -> Reply)
    requires Unknown(s.ledger, m, parts)
    ensures Careful(s, s.(sends := s.sends + SendsFrom(s.calls, m, parts, 0, replies, false)))
  {
    hide PartKey, PartReference, IsDelivered;
    var sends := SendsFrom(s.calls, m, parts, 0, replies, false);
    SendsAreAttempts(s.calls, m, parts, 0, replies, false);
    forall e | e in sends
      ensures New(s, s.ledger, e)
    {
      var j :| 0 <= j < |parts| && e == Attempt(s.calls, m, parts[j], replies(j), false);
      assert !AttachmentDelivered(s.ledger, m, parts[j].1, parts[j].0);
    }
  }

  lemma RecoverCompleteKeeps(s: Bridge, m: Message, parts: seq<(int, Attachment)>, replies: nat -> Reply)
    requires Unknown(s.ledger, m, parts) && PostedFrom(parts, 0, replies) == |parts|
    ensures Careful(s, RecordFrom(s.(sends := s.sends + SendsFrom(s.calls, m, parts, 0, replies, true)), m, parts, 0, replies))
  {
    hide PartKey, PartReference, IsDelivered, RecordFrom;
    var sends := SendsFrom(s.calls, m, parts, 0, replies, true);
    var sent := s.(sends := s.sends + sends);
    var after := RecordFrom(sent, m, parts, 0, replies);
    CompleteMeansAll(parts, 0, replies);
    CompleteSends(s.calls, m, parts, 0, replies);
    RecordFromRecords(sent, m, parts, 0, replies);
    forall k | k in after.ledger && k !in s.ledger
      ensures IsRecordedAs(after.sends, k, after.ledger[k].tgMsgId)
    {
      var j :| 0 <= j < |parts| && PartKey(m, parts[j].1, parts[j].0) == Some(k) && after.ledger[k].tgMsgId == PostedId(replies(j));
      assert after.sends[|s.sends| + j] == sends[j - 0];
    }
    forall i | |s.sends| <= i < |after.sends|
      ensures New(s, after.ledger, after.sends[i])
    {
      var j := i - |s.sends|;
      assert after.sends[i] == sends[j - 0] == Attempt(s.calls, m, parts[j], replies(j), true);
      assert !AttachmentDelivered(s.ledger, m, parts[j].1, parts[j].0);
    }
  }

  lemma RecoverKeeps(s: Bridge, m: Message, latest: Option<Entry>, routed: bool, replies: nat -> Reply)
    ensures Careful(s, Recover(s, m, latest, routed, replies))
  {
    hide MayRecover, Unknown, RecordFrom, SendsFrom, PostedFrom;
    var parts := Undelivered(s.ledger, m, 0);
    UndeliveredAreUnknown(s.ledger, m, 0);
    CompleteMeansAll(parts, 0, replies);
    if PostedFrom(parts, 0, replies) == |parts| {
      RecoverCompleteKeeps(s, m, parts, replies);
    } else {
      RecoverIncompleteKeeps(s, m, parts, replies);
    }
  }

  // --- the worker ---

  lemma SendJobKeeps(s: Bridge, reply: Reply, now: int)
    requires s.working.Some? && s.working.value.slot in s.jobs
    requires JobKey(s.working.value.slot).Some? ==> !JobDelivered(s.ledger, s.working.value.slot, s.working.value.job)
    ensures Careful(s, SendJob(s, reply, now))
  {
    hide IsDelivered, Recorded, JobKey, Canonical, Retried, Careful;
    var Work(slot, job) := s.working.value;
    var sent := s.(sends := s.sends + [Send(s.calls, JobKey(slot), JobReference(job), PostedId(reply), IsPosted(reply), IsPosted(reply) && JobKey(slot).Some?)]);
    SaveGrows(s.ledger, JobKey(slot), if IsPosted(reply) then reply.id else 0, JobReference(job));
    RetriedSendsNothing(sent, s.working.value, "tg_send_failed", now);
    NothingKeeps(s, s);
    SendKeeps(s, s, SendJob(s, reply, now), sent.sends[|s.sends|]);
  }

  lemma RetriedSendsNothing(s: Bridge, work: Work, error: string, now: int)
    requires work.slot in s.jobs
    ensures var after := Retried(s, work, error, now);
            after.ledger == s.ledger
            && after.sends == s.sends
            && after.calls == s.calls
  {
    hide RetryDelay;
  }

  lemma FinishJobKeeps(s: Bridge, log: Log, fetch: Fetch, reply: Reply, now: int)
    requires s.working.Some? && s.working.value.slot in s.jobs
    ensures Careful(s, FinishJob(s, log, fetch, reply, now))
  {
    hide JobDelivered, ResolvedId, IsCached, HasParts, EditBase, Retried, SendJob, Careful;
    var after := FinishJob(s, log, fetch, reply, now);
    RetriedSendsNothing(s, s.working.value, "download_exception", now);
    RetriedSendsNothing(s, s.working.value, "download_failed", now);
    if fetch == Got(false) && !JobDelivered(s.ledger, s.working.value.slot, s.working.value.job) {
      SendJobKeeps(s, reply, now);
    }
    if after.ledger == s.ledger && after.sends == s.sends && after.calls == s.calls {
      NothingKeeps(s, after);
    }
  }

  lemma ApplyKeeps(s: Bridge, a: Action)
    ensures Careful(s, Apply(s, a))
  {
    hide Careful, ForwardFrom, Recover, BeginJob, FinishJob;
    match a {
      case Forwarding(m, replies) =>
        UndeliveredAreUnknown(s.ledger, m, 0);
        NothingKeeps(s, s);
        ForwardFromKeeps(s, s, m, Undelivered(s.ledger, m, 0), 0, replies);
      case Recovering(m, latest, routed, replies) => RecoverKeeps(s, m, latest, routed, replies);
      case Queueing(slot, job) => NothingKeeps(s, Apply(s, a));
      case Beginning(slot, log, now) =>
        if slot in s.jobs {
          BeginSendsNothing(s, slot, log, now);
        }
        NothingKeeps(s, Apply(s, a));
      case Finishing(log, fetch, reply, now) =>
        if s.working.Some? && s.working.value.slot in s.jobs {
          FinishJobKeeps(s, log, fetch, reply, now);
        } else {
          NothingKeeps(s, s);
        }
    }
  }

  lemma BeginSendsNothing(s: Bridge, slot: Slot, log: Log, now: int)
    requires slot in s.jobs
    ensures var after := BeginJob(s, slot, log, now);
            after.ledger == s.ledger
            && after.sends == s.sends
            && after.calls == s.calls
  {
    hide JobResolved, IsStable, IsCached;
  }

  lemma NothingKeeps(s: Bridge, after: Bridge)
    requires after.ledger == s.ledger && after.sends == s.sends && after.calls == s.calls
    ensures Careful(s, after)
  {
  }

  // --- invariants of a run ---

  ghost predicate Remembered(s: Bridge) {
    && (forall i :: 0 <= i < |s.sends| ==>
          var e := s.sends[i];
          e.call < s.calls && (e.recorded ==> e.delivered && e.key.Some? && e.key.value in s.ledger))
    && (forall k :: k in s.ledger ==> IsRecordedAs(s.sends, k, s.ledger[k].tgMsgId))
  }

  ghost predicate NeverAgain(sends: seq<Send>) {
    forall i, j :: 0 <= i < j < |sends| && sends[i].recorded && sends[j].key == sends[i].key ==> sends[j].call == sends[i].call
  }

  lemma CarefulKeeps(s: Bridge, after: Bridge)
    requires Remembered(s) && NeverAgain(s.sends) && Careful(s, after)
    ensures Remembered(after.(calls := after.calls + 1))
            && NeverAgain(after.sends)
  {
    hide HasReference;
    assert forall i :: 0 <= i < |s.sends| ==> after.sends[i] == s.sends[i];
    forall k | k in after.ledger
      ensures IsRecordedAs(after.sends, k, after.ledger[k].tgMsgId)
    {
      if k in s.ledger {
        var i :| 0 <= i < |s.sends| && s.sends[i].recorded && s.sends[i].key == Some(k)
                 && s.sends[i].id == s.ledger[k].tgMsgId;
        assert after.sends[i].recorded;
      }
    }
  }

  lemma {:induction false} AlwaysRemembered(actions: seq<Action>)
    ensures Remembered(Execute(actions))
            && NeverAgain(Execute(actions).sends)
  {
    hide Apply, Careful, Remembered, NeverAgain;
    if actions == [] {
      EmptyRemembered();
    } else {
      AlwaysRemembered(actions[..|actions| - 1]);
      ApplyKeeps(Execute(actions[..|actions| - 1]), actions[|actions| - 1]);
      CarefulKeeps(Execute(actions[..|actions| - 1]), Apply(Execute(actions[..|actions| - 1]), actions[|actions| - 1]));
    }
  }

  lemma EmptyRemembered()
    ensures Remembered(EMPTY) && NeverAgain(EMPTY.sends)
  {
  }

  // --- main results ---

  /** No call sends a part that was in the ledger, under its key or its reference, when the call began. */
  lemma NothingKnownIsSent(s: Bridge, a: Action, i: nat)
    requires |s.sends| <= i < |Apply(s, a).sends| && Apply(s, a).sends[i].key.Some?
    ensures s.sends <= Apply(s, a).sends
    ensures var e := Apply(s, a).sends[i]; !IsDelivered(s.ledger, e.key.value, e.reference)
  {
    hide Apply, IsDelivered;
    ApplyKeeps(s, a);
  }

  /** Once a send of a part is recorded, no later call sends that part again, deaths of the process included. */
  lemma RecordedIsNeverSentAgain(actions: seq<Action>, i: nat, j: nat)
    requires i < j < |Execute(actions).sends|
    requires var sends := Execute(actions).sends; sends[i].recorded && sends[i].key == sends[j].key
    ensures var sends := Execute(actions).sends; sends[i].call == sends[j].call
  {
    hide Execute;
    AlwaysRemembered(actions);
  }

  /** The ledger holds the parts whose sends were recorded, and no others. */
  lemma LedgerIsWhatWasRecorded(actions: seq<Action>, key: Key)
    ensures key in Execute(actions).ledger <==> IsRecorded(Execute(actions).sends, key)
    ensures key in Execute(actions).ledger ==> IsRecordedAs(Execute(actions).sends, key, Execute(actions).ledger[key].tgMsgId)
  {
    hide Execute;
    AlwaysRemembered(actions);
  }

  /** A recovery records every part it found undelivered, if all of them could be posted, and otherwise none. */
  lemma RecoverAllOrNothing(s: Bridge, m: Message, latest: Option<Entry>, replies: nat -> Reply)
    requires MayRecover(s, m, latest, true)
    ensures var parts := Undelivered(s.ledger, m, 0);
            var after := Recover(s, m, latest, true, replies);
            if forall j :: 0 <= j < |parts| ==> parts[j].1.present && IsPosted(replies(j)) then
              forall j :: 0 <= j < |parts| && PartKey(m, parts[j].1, parts[j].0).Some? ==>
                PartKey(m, parts[j].1, parts[j].0).value in after.ledger
            else after.ledger == s.ledger && after.jobs == s.jobs
  {
    hide MayRecover, RecordFrom, SendsFrom, PartKey, PostedFrom;
    var parts := Undelivered(s.ledger, m, 0);
    CompleteMeansAll(parts, 0, replies);
    if PostedFrom(parts, 0, replies) == |parts| {
      RecordFromRecords(s.(sends := s.sends + SendsFrom(s.calls, m, parts, 0, replies, true)), m, parts, 0, replies);
    }
  }

  /** A message whose parts are all in the ledger is not sent again as an edited variant, by either path. */
  lemma EditedVariantSendsNothing(s: Bridge, m: Message, suffix: string, edited: string, latest: Option<Entry>, routed: bool,
                                  replies: nat -> Reply)
    requires m.id != "" && Strip(m.id) == m.id && !IsVariant(m.id) && IsSuffix(suffix)
    requires forall i :: 0 <= i < |m.attachments| ==>
               PartKey(m, m.attachments[i], i).Some? && PartKey(m, m.attachments[i], i).value in s.ledger
    ensures var variant := m.(id := m.id + suffix, status := edited);
            Forward(s, variant, replies) == s
            && Recover(s, variant, latest, routed, replies) == s
  {
    hide Canonical, IsVariant, Strip;
    var variant := m.(id := m.id + suffix, status := edited);
    EditedSharesBase(m.id, suffix, m.status, edited);
    AllDelivered(s.ledger, variant, 0);
  }

  lemma {:induction false} AllDelivered(ledger: Ledger, m: Message, i: nat)
    requires forall j :: 0 <= j < |m.attachments| ==> AttachmentDelivered(ledger, m, m.attachments[j], j)
    ensures Undelivered(ledger, m, i) == []
    decreases |m.attachments| - i
  {
    hide AttachmentDelivered;
    if i < |m.attachments| {
      AllDelivered(ledger, m, i + 1);
    }
  }

  // --- repeated recoveries ---

  /** A send of this part of the message. */
  predicate IsOf(e: Send, m: Message, part: (int, Attachment)) {
    e.key == PartKey(m, part.1, part.0)
    && e.reference == PartReference(part.1)
  }

  /** The recovery gets as far as the i-th part and posts it. */
  predicate Posts(parts: seq<(int, Attachment)>, i: nat, replies: nat -> Reply) {
    && i < |parts| && parts[i].1.present && IsPosted(replies(i))
    && forall j: nat :: j < i && parts[j].1.present ==> !replies(j).Died?
  }

  lemma {:induction false} ReachedIsSent(call: nat, m: Message, parts: seq<(int, Attachment)>, i: nat, k: nat, replies: nat -> Reply,
                                         recorded: bool)
    requires i <= k < |parts| && parts[k].1.present
    requires forall j: nat :: i <= j < k && parts[j].1.present ==> !replies(j).Died?
    ensures Attempt(call, m, parts[k], replies(k), recorded) in SendsFrom(call, m, parts, i, replies, recorded)
    decreases k - i
  {
    hide PartKey, PartReference, IsPosted;
    if i < k {
      ReachedIsSent(call, m, parts, i + 1, k, replies, recorded);
    } else {
      assert SendsFrom(call, m, parts, i, replies, recorded)[0] == Attempt(call, m, parts[k], replies(k), recorded);
    }
  }

  lemma RecoverSends(s: Bridge, m: Message, latest: Option<Entry>, replies: nat -> Reply)
    requires MayRecover(s, m, latest, true)
    ensures var parts := Undelivered(s.ledger, m, 0);
            Recover(s, m, latest, true, replies).sends ==
            s.sends + SendsFrom(s.calls, m, parts, 0, replies, PostedFrom(parts, 0, replies) == |parts|)
  {
    hide MayRecover, SendsFrom, PostedFrom, RecordFrom;
    var parts := Undelivered(s.ledger, m, 0);
    CompleteMeansAll(parts, 0, replies);
    if PostedFrom(parts, 0, replies) == |parts| {
      RecordFromRecords(s.(sends := s.sends + SendsFrom(s.calls, m, parts, 0, replies, true)), m, parts, 0, replies);
    }
  }

  /** A recovery sends every part it reaches. */
  lemma RecoverReaches(s: Bridge, m: Message, latest: Option<Entry>, replies: nat -> Reply, k: nat)
    requires MayRecover(s, m, latest, true)
    requires var parts := Undelivered(s.ledger, m, 0);
             && k < |parts| && parts[k].1.present
             && forall j: nat :: j < k && parts[j].1.present ==> !replies(j).Died?
    ensures var parts := Undelivered(s.ledger, m, 0);
            var after := Recover(s, m, latest, true, replies);
            exists n :: |s.sends| <= n < |after.sends| && after.sends[n].call == s.calls && IsOf(after.sends[n], m, parts[k])
                        && after.sends[n].delivered == IsPosted(replies(k))
  {
    hide MayRecover, SendsFrom, PostedFrom, PartKey, Recover, IsPosted;
    var parts := Undelivered(s.ledger, m, 0);
    var complete := PostedFrom(parts, 0, replies) == |parts|;
    RecoverSends(s, m, latest, replies);
    ReachedIsSent(s.calls, m, parts, 0, k, replies, complete);
    var sent := SendsFrom(s.calls, m, parts, 0, replies, complete);
    var n :| 0 <= n < |sent| && sent[n] == Attempt(s.calls, m, parts[k], replies(k), complete);
    assert (s.sends + sent)[|s.sends| + n] == sent[n];
  }

  /** A recovery that posts any part but not every part, and is repeated, posts that part twice. */
  lemma IncompleteRecoverySendsAgain(s: Bridge, m: Message, latest: Option<Entry>, replies: nat -> Reply, i: nat, j: nat)
    requires MayRecover(s, m, latest, true)
    requires var parts := Undelivered(s.ledger, m, 0);
             Posts(parts, i, replies) && j < |parts| && !(parts[j].1.present && IsPosted(replies(j)))
    ensures var part := Undelivered(s.ledger, m, 0)[i];
            var once := Recover(s, m, latest, true, replies).(calls := s.calls + 1);
            var twice := Recover(once, m, latest, true, replies);
            && once.ledger == s.ledger
            && s.sends <= once.sends <= twice.sends
            && (exists n :: |s.sends| <= n < |once.sends| && once.sends[n].delivered && IsOf(once.sends[n], m, part))
            && (exists n :: |once.sends| <= n < |twice.sends| && twice.sends[n].delivered && IsOf(twice.sends[n], m, part))
  {
    hide Recover, IsRecoveryCandidate, IsPending, PartKey;
    var once := Recover(s, m, latest, true, replies).(calls := s.calls + 1);
    RecoverAllOrNothing(s, m, latest, replies);
    RecoverReaches(s, m, latest, replies, i);
    RecoverReaches(once, m, latest, replies, i);
    RecoverSends(s, m, latest, replies);
    RecoverSends(once, m, latest, replies);
  }

  lemma {:induction false} KeylessUndelivered(ledger: Ledger, other: Ledger, m: Message, i: nat)
    requires Canonical(m.id, m.status).None?
    ensures Undelivered(ledger, m, i) == Undelivered(other, m, i)
    decreases |m.attachments| - i
  {
    hide Canonical;
    if i < |m.attachments| {
      KeylessUndelivered(ledger, other, m, i + 1);
    }
  }

  /**
   A part that a recovery posted is sent again, when the recovery is repeated, if and only if some other part was not posted or
   the part has no key to be recorded under.
   */
  lemma RepeatSendsAgainIff(s: Bridge, m: Message, latest: Option<Entry>, replies: nat -> Reply, again: nat -> Reply, i: nat)
    requires MayRecover(s, m, latest, true) && IsRecoveryCandidate(latest)
    requires Posts(Undelivered(s.ledger, m, 0), i, replies) && forall n :: !again(n).Died?
    ensures var parts := Undelivered(s.ledger, m, 0);
            var once := Recover(s, m, latest, true, replies).(calls := s.calls + 1);
            var twice := Recover(once, m, latest, true, again);
            (exists n :: |once.sends| <= n < |twice.sends| && IsOf(twice.sends[n], m, parts[i])) <==>
            (PartKey(m, parts[i].1, parts[i].0).None? || exists j :: 0 <= j < |parts| && !(parts[j].1.present && IsPosted(replies(j))))
  {
    hide Recover, IsRecoveryCandidate, IsPending, IsOf, IsPosted, Canonical;
    var parts := Undelivered(s.ledger, m, 0);
    var once := Recover(s, m, latest, true, replies).(calls := s.calls + 1);
    RecoverAllOrNothing(s, m, latest, replies);
    if exists j :: 0 <= j < |parts| && !(parts[j].1.present && IsPosted(replies(j))) {
      RecoverReaches(once, m, latest, again, i);
    } else if PartKey(m, parts[i].1, parts[i].0).None? {
      KeylessUndelivered(s.ledger, once.ledger, m, 0);
      RecoverReaches(once, m, latest, again, i);
    } else {
      RecordedIsNotRepeated(once, m, latest, again, parts[i]);
    }
  }

  lemma RecordedIsNotRepeated(s: Bridge, m: Message, latest: Option<Entry>, replies: nat -> Reply, part: (int, Attachment))
    requires PartKey(m, part.1, part.0).Some? && PartKey(m, part.1, part.0).value in s.ledger
    ensures var after := Recover(s, m, latest, true, replies);
            forall n :: |s.sends| <= n < |after.sends| ==> !IsOf(after.sends[n], m, part)
  {
    hide Recover, PartKey, HasReference;
    RecoverKeeps(s, m, latest, true, replies);
  }
}
