/** Durable retries for voice messages that arrived empty (src/adapters/max/voice_recovery.py). */
module VoiceRetry {
  import opened Wrappers
  import opened Rates

  // One worker of one process takes the due entries one after another; handlers add and remove entries at any time, also
  // while it waits.

  const FIRST_WAIT := 180
  const BASE := 60
  const MAX_DELAY := 21600

  type Key = (string, string)

  /** Where the worker was when an entry was added: elsewhere, about to take its key, or at the k-th attempt under its key. */
  datatype Origin = Fresh | Read | Trying(attempts: nat)

  /**
   A message waiting to be recovered. `tries` are the times of its attempts so far, `raised` says how many of them raised
   an error.
   */
  datatype Entry = Entry(created: int, attempts: nat, nextAttempt: int, tries: seq<int>, origin: Origin, raised: nat)

  /** The attempt under way. */
  datatype Attempt = Attempt(key: Key, attempts: nat)

  /** A recovered message is handled, or its handler raises an error. */
  datatype Outcome = Recovered(handled: bool) | NotFound | Raised

  /** `due` is what the worker still has to take in this round, `past` the entries that are gone. */
  datatype Queue = Queue(pending: map<Key, Entry>, due: seq<Key>, attempt: Option<Attempt>, clock: int, past: seq<Entry>)

  const EMPTY := Queue(map[], [], None, 0, [])

  function Delay(attempts: int): int {
    var exponent := if attempts - 1 < 0 then 0 else if attempts - 1 > 12 then 12 else attempts - 1;
    var delay := BASE * Power(exponent);
    if delay < MAX_DELAY then delay else MAX_DELAY
  }

  function OriginOf(s: Queue, key: Key): Origin {
    if s.attempt.Some? && s.attempt.value.key == key then Trying(s.attempt.value.attempts)
    else if key in s.due then Read
    else Fresh
  }

  /** A message that is pending already keeps its schedule. */
  function Remember(s: Queue, key: Key): Queue {
    if key in s.pending then s
    else s.(pending := s.pending[key := Entry(s.clock, 0, s.clock + FIRST_WAIT, [], OriginOf(s, key), 0)])
  }

  function Forget(s: Queue, key: Key): Queue {
    if key in s.pending then s.(pending := s.pending - {key}, past := s.past + [s.pending[key]]) else s
  }

  /** All keys due now, each once, in whatever order the entries are kept. */
  ghost predicate IsDueList(s: Queue, keys: seq<Key>) {
    && (forall k :: k in keys <==> k in s.pending && s.pending[k].nextAttempt <= s.clock)
    && (forall i, j :: 0 <= i < j < |keys| ==> keys[i] != keys[j])
  }

  /** Takes the next key of the round; an entry that is gone by now is passed over. */
  function BeginAttempt(s: Queue): Queue
    requires s.due != []
  {
    var key, next := s.due[0], s.(due := s.due[1..]);
    if key !in s.pending then next
    else
      var entry := s.pending[key];
      var attempts := entry.attempts + 1;
      next.(pending := s.pending[key := entry.(attempts := attempts, tries := entry.tries + [s.clock])],
            attempt := Some(Attempt(key, attempts)))
  }

  /** The history of an entry whose attempt raised an error; one added during the attempt has none of its own. */
  function AfterError(e: Entry): Entry {
    if e.attempts > 0 then e.(raised := e.raised + 1) else e
  }

  /** The entry found under the key now is rescheduled, even if it replaced the one the attempt was for; an error ends the round. */
  function EndAttempt(s: Queue, outcome: Outcome): Queue
    requires s.attempt.Some?
  {
    var Attempt(key, attempts) := s.attempt.value;
    var next := s.(attempt := None);
    match outcome
    case Recovered(handled) => Forget(if handled then next else next.(due := []), key)
    case NotFound =>
      if key in s.pending then next.(pending := s.pending[key := s.pending[key].(nextAttempt := s.clock + Delay(attempts))])
      else next
    case Raised =>
      next.(due := [], pending := if key in s.pending then s.pending[key := AfterError(s.pending[key])] else s.pending)
  }

  datatype Action =
    | Pass(elapsed: nat)
    | Remembering(key: Key)
    | Forgetting(key: Key)
    | Loading(keys: seq<Key>)
    | Beginning
    | Ending(outcome: Outcome)

  ghost predicate Enabled(s: Queue, a: Action) {
    match a
    case Pass(_) => true
    case Remembering(_) => true
    case Forgetting(_) => true
    case Loading(keys) => s.due == [] && s.attempt.None? && IsDueList(s, keys)
    case Beginning => s.due != [] && s.attempt.None?
    case Ending(_) => s.attempt.Some?
  }

  function Apply(s: Queue, a: Action): Queue
    requires Enabled(s, a)
  {
    match a
    case Pass(elapsed) => s.(clock := s.clock + elapsed)
    case Remembering(key) => Remember(s, key)
    case Forgetting(key) => Forget(s, key)
    case Loading(keys) => s.(due := keys)
    case Beginning => BeginAttempt(s)
    case Ending(outcome) => EndAttempt(s, outcome)
  }

  ghost function Execute(actions: seq<Action>): Option<Queue> {
    if actions == [] then Some(EMPTY)
    else
      match Execute(actions[..|actions| - 1])
      case None => None
      case Some(s) => if Enabled(s, actions[|actions| - 1]) then Some(Apply(s, actions[|actions| - 1])) else None
  }

  // --- the schedule ---

  /** The least time that n attempts in a row, none of which raises an error, take up. */
  function Span(n: nat): int {
    if n == 0 then 0 else Span(n - 1) + Delay(n)
  }

  /** The least time to the first attempt. */
  function First(origin: Origin): int {
    match origin
    case Fresh => FIRST_WAIT
    case Read => 0
    case Trying(attempts) => if Delay(attempts) < FIRST_WAIT then Delay(attempts) else FIRST_WAIT
  }

  lemma PowersOfTwo()
    ensures Power(8) == 256 && Power(9) == 512
    ensures forall n: nat :: n >= 9 ==> Power(n) >= 512
  {
    assert Power(4) == 16;
    forall n: nat | n >= 9
      ensures Power(n) >= 512
    {
      PowerGrows(9, n);
    }
  }

  /** The doubling stops at the tenth delay. */
  lemma DelayValue(n: nat)
    requires n >= 1
    ensures Delay(n) == if n <= 9 then BASE * Power(n - 1) else MAX_DELAY
  {
    PowersOfTwo();
    if n <= 9 {
      PowerGrows(n - 1, 8);
    }
  }

  lemma DelayGrows(m: nat, n: nat)
    requires 1 <= m <= n
    ensures 0 < Delay(m) <= Delay(n)
  {
    DelayValue(m);
    DelayValue(n);
    if n <= 9 {
      PowerGrows(m - 1, n - 1);
    } else if m <= 9 {
      PowersOfTwo();
      PowerGrows(m - 1, 8);
    }
  }

  lemma {:induction false} SpanGrows(m: nat, n: nat)
    requires m <= n
    ensures 0 <= Span(m) <= Span(n)
  {
    if n > 0 {
      DelayGrows(n, n);
      if m < n {
        SpanGrows(m, n - 1);
      } else {
        SpanGrows(m - 1, n - 1);
      }
    }
  }

  /** The delays double through the ninth and are even from there. */
  lemma {:induction false} SpanClosedForm(n: nat)
    ensures n <= 9 ==> Span(n) == BASE * (Power(n) - 1)
    ensures n >= 9 ==> Span(n) == BASE * 511 + MAX_DELAY * (n - 9)
  {
    if n > 0 {
      SpanClosedForm(n - 1);
      DelayValue(n);
      PowersOfTwo();
    }
  }

  // --- invariants ---

  function Minus(n: nat, raised: nat): nat {
    if n < raised then 0 else n - raised
  }

  /** Every attempt so far came no earlier than the schedule allows, an attempt that raised an error costing one delay. */
  ghost predicate Paced(e: Entry) {
    forall n :: 0 <= n < |e.tries| ==> e.tries[n] >= e.created + First(e.origin) + Span(Minus(n, e.raised))
  }

  predicate IsOwn(s: Queue, key: Key, e: Entry) {
    s.attempt.Some?
    && s.attempt.value.key == key
    && e.attempts > 0
  }

  ghost predicate Kept(s: Queue, key: Key, e: Entry) {
    && Paced(e) && e.attempts == |e.tries| && e.created <= s.clock
    && (if IsOwn(s, key, e) then
          && e.attempts == s.attempt.value.attempts
          && e.tries[|e.tries| - 1] <= s.clock
          && e.raised < |e.tries|
          && e.nextAttempt >= e.created + First(e.origin) + Span(|e.tries| - 1 - e.raised)
        else
          && e.raised <= |e.tries|
          && e.nextAttempt >= e.created + First(e.origin) + Span(|e.tries| - e.raised)
          && (key in s.due ==> e.nextAttempt <= s.clock || (e.origin.Read? && e.tries == []))
          && (s.attempt.Some? && s.attempt.value.key == key ==> e.origin == Trying(s.attempt.value.attempts)))
  }

  ghost predicate Safe(s: Queue) {
    && (forall k :: k in s.pending ==> Kept(s, k, s.pending[k]))
    && (forall e :: e in s.past ==> Paced(e))
    && (forall i, j :: 0 <= i < j < |s.due| ==> s.due[i] != s.due[j])
    && (s.attempt.Some? ==> s.attempt.value.key !in s.due && s.attempt.value.attempts > 0)
  }

  /** An attempt that starts when it may keeps the entry paced. */
  lemma TriedPaced(e: Entry, now: int)
    requires Paced(e) && e.raised <= |e.tries| && now >= e.created + First(e.origin) + Span(|e.tries| - e.raised)
    ensures Paced(e.(attempts := e.attempts + 1, tries := e.tries + [now]))
  {
    hide Span, First;
  }

  lemma BeginKeeps(s: Queue)
    requires Safe(s) && s.due != [] && s.attempt.None?
    ensures Safe(BeginAttempt(s))
  {
    hide Paced;
    var key, after := s.due[0], BeginAttempt(s);
    assert forall i :: 0 <= i < |after.due| ==> after.due[i] == s.due[i + 1];
    if key in s.pending {
      assert Kept(s, key, s.pending[key]);
      TriedPaced(s.pending[key], s.clock);
      hide Span, First;
    }
  }

  /** The delay after an attempt is at least the one its place in the schedule asks for. */
  lemma Rescheduled(e: Entry, now: int)
    requires Paced(e) && e.raised < |e.tries| && e.tries[|e.tries| - 1] <= now
    ensures now + Delay(|e.tries|) >= e.created + First(e.origin) + Span(|e.tries| - e.raised)
  {
    hide First, Delay;
    DelayGrows(|e.tries| - e.raised, |e.tries|);
  }

  lemma ErrorPaced(e: Entry)
    requires Paced(e)
    ensures Paced(AfterError(e))
  {
    hide First;
    forall n | 0 <= n < |e.tries|
      ensures e.tries[n] >= e.created + First(e.origin) + Span(Minus(n, e.raised + 1))
    {
      SpanGrows(Minus(n, e.raised + 1), Minus(n, e.raised));
    }
  }

  lemma EndKeeps(s: Queue, outcome: Outcome)
    requires Safe(s) && s.attempt.Some?
    ensures Safe(EndAttempt(s, outcome))
  {
    hide Paced, Delay;
    var Attempt(key, attempts) := s.attempt.value;
    if key in s.pending {
      var e := s.pending[key];
      assert Kept(s, key, e);
      ErrorPaced(e);
      SamePace(e, s.clock + Delay(attempts));
      if IsOwn(s, key, e) {
        Rescheduled(e, s.clock);
      }
      hide Span;
    }
  }

  lemma SamePace(e: Entry, nextAttempt: int)
    requires Paced(e)
    ensures Paced(e.(nextAttempt := nextAttempt))
  {
  }

  lemma RememberKeeps(s: Queue, key: Key)
    requires Safe(s)
    ensures Safe(Remember(s, key))
  {
    if s.attempt.Some? {
      DelayGrows(s.attempt.value.attempts, s.attempt.value.attempts);
    }
    hide Delay;
  }

  lemma StepKeeps(s: Queue, a: Action)
    requires Safe(s) && Enabled(s, a)
    ensures Safe(Apply(s, a))
  {
    hide BeginAttempt, EndAttempt, Remember, Span, First, Paced;
    match a {
      case Beginning => BeginKeeps(s);
      case Ending(outcome) => EndKeeps(s, outcome);
      case Remembering(key) => RememberKeeps(s, key);
      case Forgetting(key) =>
      case Loading(keys) =>
      case Pass(elapsed) =>
    }
  }

  lemma {:induction false} AlwaysSafe(actions: seq<Action>)
    requires Execute(actions).Some?
    ensures Safe(Execute(actions).value)
  {
    hide Safe, Apply, Enabled;
    if actions == [] {
      EmptySafe();
    } else {
      AlwaysSafe(actions[..|actions| - 1]);
      StepKeeps(Execute(actions[..|actions| - 1]).value, actions[|actions| - 1]);
    }
  }

  lemma EmptySafe()
    ensures Safe(EMPTY)
  {
  }

  // --- main results ---

  /** An entry of a run, waiting or gone. */
  ghost predicate Known(s: Queue, e: Entry) {
    e in s.past || e in s.pending.Values
  }

  /** The retries of every entry follow the schedule from its first wait on, less one delay for each attempt that raised an error. */
  lemma RetriesArePaced(actions: seq<Action>, e: Entry, n: nat)
    requires Execute(actions).Some? && Known(Execute(actions).value, e) && n < |e.tries|
    ensures var m := Minus(n, e.raised);
            && (m <= 9 ==> e.tries[n] - e.created >= First(e.origin) + 60 * (Power(m) - 1))
            && (m >= 9 ==> e.tries[n] - e.created >= First(e.origin) + 60 * 511 + 21600 * (m - 9))
  {
    hide Execute, Span, First;
    AlwaysSafe(actions);
    SpanClosedForm(Minus(n, e.raised));
    assert Paced(e);
  }

  /** In its first T seconds an entry is tried at most 10 + T / 21600 times, and once more for each error. */
  lemma AttemptsInFirst(actions: seq<Action>, e: Entry, span: nat, n: nat)
    requires Execute(actions).Some? && Known(Execute(actions).value, e)
    requires n < |e.tries| && e.tries[n] <= e.created + span
    ensures n + 1 <= 10 + e.raised + span / 21600
  {
    hide Execute, Power;
    RetriesArePaced(actions, e, n);
    FirstIsNotNegative(e.origin);
    hide First;
    if Minus(n, e.raised) >= 9 {
      assert 21600 * (n - e.raised - 9) <= span;
    }
  }

  lemma FirstIsNotNegative(origin: Origin)
    ensures 0 <= First(origin)
  {
  }

  /** The schedule of an entry that nothing disturbs. */
  ghost predicate OnSchedule(e: Entry) {
    forall n :: 0 <= n < |e.tries| ==> e.tries[n] - e.created >= 180 + Span(n)
  }

  /** What can bring an entry's attempts forward. */
  predicate Disturbed(e: Entry) {
    e.raised > 0 || e.origin.Read? || (e.origin.Trying? && e.origin.attempts <= 2)
  }

  lemma UndisturbedOnSchedule(actions: seq<Action>, e: Entry)
    requires Execute(actions).Some? && Known(Execute(actions).value, e) && !Disturbed(e)
    ensures OnSchedule(e)
  {
    hide Execute, Span;
    AlwaysSafe(actions);
    assert Paced(e);
    if e.origin.Trying? {
      DelayGrows(3, e.origin.attempts);
      assert Delay(3) == 240 by {
        assert Power(2) == 4;
      }
    }
  }

  // --- recovered messages ---

  /** The key is neither pending nor under way. */
  predicate Gone(s: Queue, key: Key) {
    key !in s.pending
    && (s.attempt.Some? ==> s.attempt.value.key != key)
  }

  /**
   A recovered message leaves the queue before it is handled: its entry is closed with the attempts it has had, and every other
   entry stays as it is. An error of the handler only ends the round.
   */
  lemma RecoveredLeaves(actions: seq<Action>, handled: bool)
    requires Execute(actions).Some? && Execute(actions).value.attempt.Some?
    ensures var s := Execute(actions).value;
            var key := s.attempt.value.key;
            var done := Execute(actions + [Ending(Recovered(handled))]);
            && done.Some?
            && var after := done.value;
               && Gone(after, key)
               && after.attempt.None?
               && after.due == (if handled then s.due else [])
               && after.past == s.past + (if key in s.pending then [s.pending[key]] else [])
               && after.pending.Keys == s.pending.Keys - {key}
               && forall k :: k in after.pending ==> after.pending[k] == s.pending[k]
  {
    hide Execute;
    Next(actions, Ending(Recovered(handled)));
  }

  /** A key that is gone stays away, and what is closed stays closed, until the message is remembered again. */
  lemma {:induction false} StaysAway(actions: seq<Action>, more: seq<Action>, key: Key)
    requires Execute(actions).Some? && Gone(Execute(actions).value, key)
    requires Execute(actions + more).Some? && Remembering(key) !in more
    ensures Gone(Execute(actions + more).value, key)
            && Execute(actions).value.past <= Execute(actions + more).value.past
    decreases |more|
  {
    if more == [] {
      assert actions + more == actions;
    } else {
      var init := more[..|more| - 1];
      assert (actions + more)[..|actions + more| - 1] == actions + init;
      assert (actions + more)[|actions + more| - 1] == more[|more| - 1];
      StaysAway(actions, init, key);
      hide Execute, Enabled;
      StepStaysAway(Execute(actions + init).value, more[|more| - 1], key);
    }
  }

  lemma StepStaysAway(s: Queue, a: Action, key: Key)
    requires Enabled(s, a) && Gone(s, key) && a != Remembering(key)
    ensures Gone(Apply(s, a), key) && s.past <= Apply(s, a).past
  {
    hide Delay;
  }

  /** A round takes its keys in order: each that still has an entry is attempted now, which is counted first. */
  lemma BeginningDecides(actions: seq<Action>)
    requires Execute(actions).Some? && Enabled(Execute(actions).value, Beginning)
    ensures var s := Execute(actions).value;
            var key := s.due[0];
            var done := Execute(actions + [Beginning]);
            && done.Some?
            && var after := done.value;
               && after.due == s.due[1..]
               && after.clock == s.clock
               && after.past == s.past
               && after.pending.Keys == s.pending.Keys
               && (forall k :: k in s.pending && k != key ==> after.pending[k] == s.pending[k])
               && if key in s.pending then
                    && after.attempt == Some(Attempt(key, s.pending[key].attempts + 1))
                    && after.pending[key] == s.pending[key].(attempts := s.pending[key].attempts + 1,
                                                             tries := s.pending[key].tries + [s.clock])
                  else after.attempt.None?
  {
    hide Execute;
    Next(actions, Beginning);
  }

  /** After an attempt that found nothing the entry waits a minute, doubled each time up to six hours; an error ends the round. */
  lemma EndingDecides(actions: seq<Action>, outcome: Outcome)
    requires Execute(actions).Some? && Execute(actions).value.attempt.Some? && !outcome.Recovered?
    ensures var s := Execute(actions).value;
            var Attempt(key, k) := s.attempt.value;
            var done := Execute(actions + [Ending(outcome)]);
            && done.Some? && k > 0
            && var after := done.value;
               && after.attempt.None?
               && after.clock == s.clock
               && after.past == s.past
               && after.due == (if outcome.Raised? then [] else s.due)
               && after.pending.Keys == s.pending.Keys
               && (forall j :: j in s.pending && j != key ==> after.pending[j] == s.pending[j])
               && (key in s.pending ==>
                     && after.pending[key].tries == s.pending[key].tries
                     && after.pending[key].attempts == s.pending[key].attempts
                     && after.pending[key].nextAttempt ==
                        if outcome.Raised? then s.pending[key].nextAttempt
                        else s.clock + if k <= 9 then 60 * Power(k - 1) else 21600)
  {
    hide Execute, Delay;
    Next(actions, Ending(outcome));
    AlwaysSafe(actions);
    var k := Execute(actions).value.attempt.value.attempts;
    assert k > 0;
    DelayValue(k);
  }

  /** After an attempt has recovered a message, none is made under its key until the message is remembered again. */
  lemma NotTriedAfterRecovery(actions: seq<Action>, handled: bool, more: seq<Action>)
    requires Execute(actions).Some? && Execute(actions).value.attempt.Some?
    requires Execute(actions + [Ending(Recovered(handled))] + more).Some?
    requires Remembering(Execute(actions).value.attempt.value.key) !in more
    ensures var s := Execute(actions).value;
            var key := s.attempt.value.key;
            var after := Execute(actions + [Ending(Recovered(handled))] + more).value;
            && Gone(after, key)
            && (key in s.pending ==> s.pending[key] in after.past)
  {
    hide Execute, Gone;
    RecoveredLeaves(actions, handled);
    var s := Execute(actions).value;
    var key := s.attempt.value.key;
    var done := actions + [Ending(Recovered(handled))];
    StaysAway(done, more, key);
    if key in s.pending {
      assert Execute(done).value.past[|s.past|] == s.pending[key];
      assert Execute(done + more).value.past[|s.past|] == s.pending[key];
    }
  }

  // --- runs that leave the schedule ---

  /** Nothing is pending but `e`, and the worker has `due` to take and `attempt` under way. */
  ghost predicate Here(actions: seq<Action>, key: Key, e: Entry, due: seq<Key>, attempt: Option<Attempt>, clock: int) {
    && Execute(actions).Some?
    && Execute(actions).value == Queue(map[key := e], due, attempt, clock, Execute(actions).value.past)
  }

  lemma Next(actions: seq<Action>, a: Action)
    requires Execute(actions).Some? && Enabled(Execute(actions).value, a)
    ensures Execute(actions + [a]) == Some(Apply(Execute(actions).value, a))
  {
    assert (actions + [a])[..|actions|] == actions;
  }

  /** The key comes due and its attempt begins. */
  lemma Tried(actions: seq<Action>, key: Key, e: Entry, clock: int, elapsed: nat) returns (more: seq<Action>)
    requires Here(actions, key, e, [], None, clock) && e.nextAttempt <= clock + elapsed
    ensures Here(more, key, e.(attempts := e.attempts + 1, tries := e.tries + [clock + elapsed]), [],
                 Some(Attempt(key, e.attempts + 1)), clock + elapsed)
  {
    more := ReadAt(actions, key, e, clock, elapsed);
    hide Execute;
    Next(more, Beginning);
    more := more + [Beginning];
  }

  lemma ReadAt(actions: seq<Action>, key: Key, e: Entry, clock: int, elapsed: nat) returns (more: seq<Action>)
    requires Here(actions, key, e, [], None, clock) && e.nextAttempt <= clock + elapsed
    ensures Here(more, key, e, [key], None, clock + elapsed)
  {
    hide Execute;
    Next(actions, Pass(elapsed));
    more := actions + [Pass(elapsed)];
    Next(more, Loading([key]));
    more := more + [Loading([key])];
  }

  /** The entry is dropped and its message comes again. */
  lemma Replaced(actions: seq<Action>, key: Key, e: Entry, due: seq<Key>, attempt: Option<Attempt>, clock: int)
    returns (more: seq<Action>)
    requires Here(actions, key, e, due, attempt, clock)
    ensures Here(more, key, Entry(clock, 0, clock + FIRST_WAIT, [], OriginOf(Execute(actions).value, key), 0), due, attempt, clock)
  {
    hide Execute;
    Next(actions, Forgetting(key));
    more := actions + [Forgetting(key)];
    Next(more, Remembering(key));
    more := more + [Remembering(key)];
  }

  lemma Ended(actions: seq<Action>, key: Key, e: Entry, k: nat, clock: int, outcome: Outcome) returns (more: seq<Action>)
    requires Here(actions, key, e, [], Some(Attempt(key, k)), clock) && !outcome.Recovered?
    ensures Here(more, key, if outcome.NotFound? then e.(nextAttempt := clock + Delay(k)) else AfterError(e), [], None, clock)
  {
    hide Execute, Delay;
    Next(actions, Ending(outcome));
    more := actions + [Ending(outcome)];
  }

  lemma Added(key: Key) returns (actions: seq<Action>)
    ensures Here(actions, key, Entry(0, 0, FIRST_WAIT, [], Fresh, 0), [], None, 0)
  {
    assert Execute([]) == Some(EMPTY);
    Next([], Remembering(key));
    actions := [] + [Remembering(key)];
  }

  /** The first k attempts find nothing, and the k-th is still under way. */
  lemma {:induction false} UnderWay(key: Key, k: nat) returns (actions: seq<Action>, e: Entry, clock: int)
    requires k > 0
    ensures Here(actions, key, e, [], Some(Attempt(key, k)), clock)
            && e.attempts == k
            && e.nextAttempt <= clock
  {
    hide Here, Delay;
    if k == 1 {
      actions := Added(key);
      e, clock := Entry(0, 0, FIRST_WAIT, [], Fresh, 0), 0;
    } else {
      actions, e, clock := UnderWay(key, k - 1);
      actions := Ended(actions, key, e, k - 1, clock, NotFound);
      e := e.(nextAttempt := clock + Delay(k - 1));
    }
    var elapsed := if e.nextAttempt <= clock then 0 else e.nextAttempt - clock;
    actions := Tried(actions, key, e, clock, elapsed);
    clock := clock + elapsed;
    e := e.(attempts := e.attempts + 1, tries := e.tries + [clock]);
  }

  /** An entry added while the worker is about to take its key is tried at once. */
  lemma ReplacementIsTriedAtOnce(key: Key) returns (actions: seq<Action>, e: Entry)
    ensures Execute(actions).Some?
            && Known(Execute(actions).value, e)
    ensures e.origin.Read?
            && e.raised == 0
            && e.tries == [e.created]
            && !OnSchedule(e)
  {
    actions := Added(key);
    actions := ReadAt(actions, key, Entry(0, 0, FIRST_WAIT, [], Fresh, 0), 0, FIRST_WAIT);
    actions := Replaced(actions, key, Entry(0, 0, FIRST_WAIT, [], Fresh, 0), [key], None, FIRST_WAIT);
    hide Execute;
    Next(actions, Beginning);
    actions := actions + [Beginning];
    e := Execute(actions).value.pending[key];
    assert e.tries[0] - e.created < FIRST_WAIT + Span(0);
  }

  /** An entry added during the k-th attempt under its key can be first tried after the delay of that attempt, whatever it is. */
  lemma ReplacementInAttempt(key: Key, k: nat) returns (actions: seq<Action>, e: Entry)
    requires k > 0
    ensures Execute(actions).Some?
            && Known(Execute(actions).value, e)
    ensures e.origin == Trying(k)
            && e.raised == 0
            && e.tries == [e.created + Delay(k)]
    ensures OnSchedule(e) <==> k >= 3
  {
    hide Delay;
    var was, clock;
    actions, was, clock := UnderWay(key, k);
    actions := Replaced(actions, key, was, [], Some(Attempt(key, k)), clock);
    e := Entry(clock, 0, clock + FIRST_WAIT, [], Trying(k), 0);
    actions := Ended(actions, key, e, k, clock, NotFound);
    e := e.(nextAttempt := clock + Delay(k));
    DelayGrows(k, k);
    actions := Tried(actions, key, e, clock, Delay(k));
    e := e.(attempts := 1, tries := [clock + Delay(k)]);
    assert e == Execute(actions).value.pending[key];
    FirstDelays(k);
    assert Span(0) == 0;
  }

  lemma FirstDelays(k: nat)
    requires k > 0
    ensures Delay(k) >= FIRST_WAIT <==> k >= 3
  {
    assert Power(1) == 2 && Power(2) == 4;
    if k >= 3 {
      DelayGrows(3, k);
    }
  }

  /** The first `raised` attempts raised errors, all at the same time, at which the next is under way. */
  lemma {:induction false} AfterErrors(key: Key, raised: nat) returns (actions: seq<Action>, e: Entry)
    ensures Here(actions, key, e, [], Some(Attempt(key, raised + 1)), FIRST_WAIT)
    ensures e == Entry(0, raised + 1, FIRST_WAIT, e.tries, Fresh, raised)
    ensures |e.tries| == raised + 1 && forall n :: 0 <= n < |e.tries| ==> e.tries[n] == FIRST_WAIT
  {
    hide Here;
    if raised == 0 {
      actions := Added(key);
      e := Entry(0, 0, FIRST_WAIT, [], Fresh, 0);
      actions := Tried(actions, key, e, 0, FIRST_WAIT);
    } else {
      actions, e := AfterErrors(key, raised - 1);
      actions := Ended(actions, key, e, raised, FIRST_WAIT, Raised);
      e := e.(raised := raised);
      actions := Tried(actions, key, e, FIRST_WAIT, 0);
    }
    e := e.(attempts := raised + 1, tries := e.tries + [FIRST_WAIT]);
  }

  /** However many errors there are, the attempts that raise them can all come at once. */
  lemma RaisedIsTriedAtOnce(key: Key, raised: nat) returns (actions: seq<Action>, e: Entry)
    requires raised > 0
    ensures Execute(actions).Some?
            && Known(Execute(actions).value, e)
    ensures e.origin.Fresh?
            && e.raised == raised
            && |e.tries| == raised + 1
            && !OnSchedule(e)
    ensures forall n :: 0 <= n < |e.tries| ==> e.tries[n] == e.created + FIRST_WAIT
  {
    actions, e := AfterErrors(key, raised);
    assert e == Execute(actions).value.pending[key];
    assert Span(1) == 60;
    assert e.tries[1] - e.created < FIRST_WAIT + Span(1);
  }

  // --- the adapter's own form ---

  class VoiceRecovery {
    var pending: map<Key, Entry>
    var due: seq<Key>
    var attempt: Option<Attempt>
    var clock: int
    var past: seq<Entry>

    ghost function View(): Queue
      reads this
    {
      Queue(pending, due, attempt, clock, past)
    }

    constructor ()
      ensures View() == EMPTY
    {
      pending, due, attempt, clock, past := map[], [], None, 0, [];
    }

    method RememberPending(key: Key)
      modifies this
      ensures View() == Remember(old(View()), key)
    {
      if key !in pending {
        pending := pending[key := Entry(clock, 0, clock + FIRST_WAIT, [], OriginOf(Queue(pending, due, attempt, clock, past), key), 0)];
      }
    }

    method ForgetPending(key: Key)
      modifies this
      ensures View() == Forget(old(View()), key)
    {
      if key in pending {
        past := past + [pending[key]];
        pending := pending - {key};
      }
    }

    /** Reads the entries that are due now. */
    method LoadDue()
      requires due == [] && attempt.None?
      modifies this
      ensures Enabled(old(View()), Loading(due))
      ensures View() == Apply(old(View()), Loading(due))
    {
      var keys, left := [], pending.Keys;
      while left != {}
        invariant left <= pending.Keys
        invariant forall k :: k in keys <==> k in pending && k !in left && pending[k].nextAttempt <= clock
        invariant forall i, j :: 0 <= i < j < |keys| ==> keys[i] != keys[j]
        decreases |left|
      {
        var k :| k in left;
        if pending[k].nextAttempt <= clock {
          keys := keys + [k];
        }
        left := left - {k};
      }
      due := keys;
    }

    method StartAttempt()
      requires due != [] && attempt.None?
      modifies this
      ensures View() == BeginAttempt(old(View()))
    {
      var key := due[0];
      due := due[1..];
      if key in pending {
        var attempts := pending[key].attempts + 1;
        pending := pending[key := pending[key].(attempts := attempts, tries := pending[key].tries + [clock])];
        attempt := Some(Attempt(key, attempts));
      }
    }

    method FinishAttempt(outcome: Outcome)
      requires attempt.Some?
      modifies this
      ensures View() == EndAttempt(old(View()), outcome)
    {
      var Attempt(key, attempts) := attempt.value;
      attempt := None;
      match outcome {
        case Recovered(handled) =>
          ForgetPending(key);
          if !handled {
            due := [];
          }
        case NotFound =>
          if key in pending {
            pending := pending[key := pending[key].(nextAttempt := clock + Delay(attempts))];
          }
        case Raised =>
          due := [];
          if key in pending {
            pending := pending[key := AfterError(pending[key])];
          }
      }
    }
  }
}
