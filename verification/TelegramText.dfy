/**
 Splitting long texts for Telegram without losing a character, and sending the pieces
 (`split_telegram_text`, `send_text` and the caption path of src/adapters/tg/adapter.py).
 */
module TelegramText {
  import opened Wrappers
  import Rates

  const TEXT_LIMIT: nat := 4096
  const CAPTION_LIMIT: nat := 1024

  predicate IsBreak(c: char) {
    c == '\n' || c == ' '
  }

  /** The last newline or space of `text[1..hi]`, or 0 if there is none. */
  function LastBreak(text: string, hi: nat): (k: nat)
    requires hi <= |text|
    ensures k == 0 || (1 <= k < hi && IsBreak(text[k]))
    ensures forall i :: 1 <= i < hi && k < i ==> !IsBreak(text[i])
  {
    if hi <= 1 then 0 else if IsBreak(text[hi - 1]) then hi - 1 else LastBreak(text, hi - 1)
  }

  /** Where the first part of an overlong text ends: after its last break, or at the limit. */
  function Cut(text: string, limit: nat): (cut: nat)
    requires 1 <= limit < |text|
    ensures 1 <= cut <= limit
  {
    var k := LastBreak(text, limit);
    if k > 0 then k + 1 else limit
  }

  function Split(text: string, limit: nat): (parts: seq<string>)
    requires 1 <= limit
    ensures parts != []
    decreases |text|
  {
    if |text| <= limit then [text] else [text[..Cut(text, limit)]] + Split(text[Cut(text, limit)..], limit)
  }

  lemma ShortIsWhole(text: string, limit: nat)
    requires 1 <= limit
    ensures |text| <= limit <==> |Split(text, limit)| == 1
  {
  }

  function Join(parts: seq<string>): string {
    if parts == [] then "" else parts[0] + Join(parts[1..])
  }

  lemma {:induction false} JoinAppend(a: seq<string>, b: seq<string>)
    ensures Join(a + b) == Join(a) + Join(b)
  {
    if a == [] {
      assert a + b == b;
    } else {
      assert (a + b)[1..] == a[1..] + b;
      assert Join(a + b) == a[0] + Join(a[1..] + b);
      JoinAppend(a[1..], b);
    }
  }

  /** Nothing is lost or reordered, and no part is over the limit or needlessly empty. */
  lemma {:induction false} SplitIsLossless(text: string, limit: nat)
    requires 1 <= limit
    ensures var parts := Split(text, limit);
            && Join(parts) == text
            && (forall i :: 0 <= i < |parts| ==> |parts[i]| <= limit)
            && (text != "" ==> forall i :: 0 <= i < |parts| ==> parts[i] != "")
    decreases |text|
  {
    if |text| <= limit {
      assert Join([text]) == text;
    } else {
      SplitIsLossless(text[Cut(text, limit)..], limit);
    }
  }

  /** What a break cut leaves starts with no break before the place where the limit was. */
  lemma NextCutReachesLimit(text: string, limit: nat)
    requires 1 <= limit < |text|
    ensures var cut := Cut(text, limit);
            var rest := text[cut..];
            |rest| <= limit || cut + Cut(rest, limit) > limit
  {
    var cut := Cut(text, limit);
    var rest := text[cut..];
    if limit < |rest| {
      var k := LastBreak(rest, limit);
      assert k > 0 ==> rest[k] == text[cut + k];
    }
  }

  /** Any two neighbouring parts together exceed the limit. */
  lemma {:induction false} NeighboursExceedLimit(text: string, limit: nat, i: nat)
    requires 1 <= limit && i + 1 < |Split(text, limit)|
    ensures |Split(text, limit)[i]| + |Split(text, limit)[i + 1]| > limit
    decreases |text|
  {
    var rest := text[Cut(text, limit)..];
    if i == 0 {
      NextCutReachesLimit(text, limit);
    } else {
      NeighboursExceedLimit(rest, limit, i - 1);
    }
  }

  /** A part other than the last ends in a break whenever its window of `limit` characters had one after its start. */
  lemma {:induction false} WordsAreKept(text: string, limit: nat, i: nat)
    requires 1 <= limit && i + 1 < |Split(text, limit)|
    ensures var parts := Split(text, limit);
            var start := |Join(parts[..i])|;
            && start + limit < |text| && parts[i] != ""
            && (parts[i][|parts[i]| - 1] in {'\n', ' '}
                || (|parts[i]| == limit && forall k :: start < k < start + limit ==> text[k] !in {'\n', ' '}))
    decreases |text|
  {
    var cut := Cut(text, limit);
    var parts := Split(text, limit);
    if i > 0 {
      WordsAreKept(text[cut..], limit, i - 1);
      assert parts[..i] == [text[..cut]] + parts[1..][..i - 1];
    }
  }

  lemma {:induction false} PairsExceed(parts: seq<string>, limit: nat)
    requires forall i :: 0 <= i && i + 1 < |parts| ==> |parts[i]| + |parts[i + 1]| > limit
    ensures |parts| / 2 * (limit + 1) <= |Join(parts)|
  {
    if 2 <= |parts| {
      PairsExceed(parts[2..], limit);
      assert parts[1..][1..] == parts[2..];
      var half, unit := (|parts| - 2) / 2, limit + 1;
      assert |parts| / 2 == half + 1;
      assert (half + 1) * unit == half * unit + unit;
    }
  }

  /** Greedy splitting needs at most about twice the least possible number of messages. */
  lemma PartsBound(text: string, limit: nat)
    requires 1 <= limit
    ensures |Split(text, limit)| <= 2 * (|text| / (limit + 1)) + 1
  {
    var parts := Split(text, limit);
    SplitIsLossless(text, limit);
    forall i | 0 <= i && i + 1 < |parts|
      ensures |parts[i]| + |parts[i + 1]| > limit
    {
      NeighboursExceedLimit(text, limit, i);
    }
    PairsExceed(parts, limit);
    Rates.DivideBound(|parts| / 2, limit + 1, |text|);
  }

  /** The loop of `split_telegram_text`. */
  method SplitTelegramText(text: string, limit: nat) returns (parts: seq<string>)
    requires 1 <= limit
    ensures parts == Split(text, limit)
  {
    if |text| <= limit {
      return [text];
    }
    parts := [];
    var remainder := text;
    while |remainder| > limit
      invariant parts + Split(remainder, limit) == Split(text, limit)
      decreases |remainder|
    {
      var boundary := LastBreak(remainder, limit);
      var cut := if boundary > 0 then boundary + 1 else limit;
      parts, remainder := parts + [remainder[..cut]], remainder[cut..];
    }
    parts := parts + [remainder];
  }

  // --- sending ---

  /** A message as Telegram gets it: text or a media file's caption, possibly a reply. */
  datatype Message = Message(media: bool, text: string, replyTo: Option<int>)

  /** The bot, as far as senders can tell: the n-th message gets an id or fails for good. */
  class Bot {
    const replies: nat -> Option<int>
    var calls: nat
    ghost var delivered: seq<Message>

    constructor (replies: nat -> Option<int>)
      ensures this.replies == replies && calls == 0 && delivered == []
    {
      this.replies, this.calls, this.delivered := replies, 0, [];
    }

    method Deliver(message: Message) returns (id: Option<int>)
      modifies this
      ensures id == replies(old(calls)) && calls == old(calls) + 1
      ensures delivered == if id.Some? then old(delivered) + [message] else old(delivered)
    {
      id := replies(calls);
      calls := calls + 1;
      if id.Some? {
        delivered := delivered + [message];
      }
    }
  }

  /** The messages for consecutive parts of a text; only the first of all is a reply. */
  function TextMessages(parts: seq<string>, replyTo: Option<int>): seq<Message> {
    seq(|parts|, i requires 0 <= i < |parts| => Message(false, parts[i], if i == 0 then replyTo else None))
  }

  function Texts(messages: seq<Message>): seq<string> {
    seq(|messages|, i requires 0 <= i < |messages| => messages[i].text)
  }

  /** The parts go out in order up to the first failure; the result is the first id if none failed. */
  method SendText(bot: Bot, text: string, replyTo: Option<int>) returns (first: Option<int>, ghost sent: nat)
    modifies bot
    ensures sent <= |Split(text, TEXT_LIMIT)|
    ensures bot.delivered == old(bot.delivered) + TextMessages(Split(text, TEXT_LIMIT)[..sent], replyTo)
    ensures first == if sent == |Split(text, TEXT_LIMIT)| then bot.replies(old(bot.calls)) else None
    ensures first.Some? <==> sent == |Split(text, TEXT_LIMIT)|
    ensures bot.calls == old(bot.calls) + sent + if first.Some? then 0 else 1
    ensures first.None? ==> bot.replies(bot.calls - 1).None?
    ensures forall i :: 0 <= i < sent ==>
              bot.delivered[|old(bot.delivered)| + i] == Message(false, Split(text, 4096)[i], if i == 0 then replyTo else None)
  {
    var parts := SplitTelegramText(text, TEXT_LIMIT);
    first, sent := None, 0;
    for index := 0 to |parts|
      invariant sent == index && bot.calls == old(bot.calls) + index
      invariant bot.delivered == old(bot.delivered) + TextMessages(parts[..index], replyTo)
      invariant first == if index == 0 then None else bot.replies(old(bot.calls))
      invariant index > 0 ==> first.Some?
    {
      var id := bot.Deliver(Message(false, parts[index], if index == 0 then replyTo else None));
      if id.None? {
        return None, index;
      }
      if first.None? {
        first := id;
      }
      sent := index + 1;
      assert TextMessages(parts[..index + 1], replyTo) ==
             TextMessages(parts[..index], replyTo) + [Message(false, parts[index], if index == 0 then replyTo else None)];
    }
    assert parts[..|parts|] == parts;
  }

  /** A media file with a long caption: the caption's first part on the file, the rest as texts after it. */
  method SendPhoto(bot: Bot, caption: string, replyTo: Option<int>) returns (id: Option<int>, ghost news: seq<Message>)
    modifies bot
    ensures bot.delivered == old(bot.delivered) + news
    ensures Join(Texts(news)) <= caption
    ensures id.Some? ==> Join(Texts(news)) == caption
    ensures news != [] ==> news[0].media && news[0].replyTo == replyTo && |news[0].text| <= 1024
    ensures forall i :: 0 < i < |news| ==> !news[i].media && |news[i].text| <= 4096 && news[i].replyTo.None?
    ensures id.None? ==> old(bot.calls) < bot.calls <= old(bot.calls) + |news| + 1 && bot.replies(bot.calls - 1).None?
    ensures id.Some? ==> id == bot.replies(old(bot.calls)) && bot.calls == old(bot.calls) + |news|
    ensures |caption| <= 1024 ==> |news| <= 1
  {
    hide Split, Join, Texts, TextMessages;
    var parts := SplitTelegramText(caption, CAPTION_LIMIT);
    SplitIsLossless(caption, CAPTION_LIMIT);
    news := [];
    NoNews();
    id := bot.Deliver(Message(true, parts[0], replyTo));
    if id.None? {
      return;
    }
    ghost var sent;
    var continued;
    continued, sent := SendContinuation(bot, caption);
    news := [Message(true, parts[0], replyTo)] + TextMessages(sent, None);
    PhotoNews(parts[0], replyTo, sent);
    if continued.None? {
      id := None;
    }
  }

  lemma PhotoNews(caption: string, replyTo: Option<int>, rest: seq<string>)
    ensures var news := [Message(true, caption, replyTo)] + TextMessages(rest, None);
            && |news| == 1 + |rest| && Join(Texts(news)) == caption + Join(rest)
            && forall i :: 0 < i < |news| ==> news[i] == Message(false, rest[i - 1], None)
  {
    var news := [Message(true, caption, replyTo)] + TextMessages(rest, None);
    assert Texts(news)[1..] == rest;
  }

  lemma NoNews()
    ensures Join(Texts([])) == ""
  {
  }

  /** What the first part of the caption left over, as plain texts. */
  method SendContinuation(bot: Bot, caption: string) returns (first: Option<int>, ghost sent: seq<string>)
    modifies bot
    ensures bot.delivered == old(bot.delivered) + TextMessages(sent, None)
    ensures Split(caption, CAPTION_LIMIT)[0] + Join(sent) <= caption
    ensures first.Some? ==> Split(caption, CAPTION_LIMIT)[0] + Join(sent) == caption
    ensures forall i :: 0 <= i < |sent| ==> |sent[i]| <= TEXT_LIMIT
    ensures bot.calls == old(bot.calls) + |sent| + if first.Some? then 0 else 1
    ensures first.None? ==> bot.replies(bot.calls - 1).None?
    ensures |caption| <= CAPTION_LIMIT ==> sent == []
  {
    hide Split;
    var parts := SplitTelegramText(caption, CAPTION_LIMIT);
    SplitIsLossless(caption, CAPTION_LIMIT);
    ShortIsWhole(caption, CAPTION_LIMIT);
    sent := [];
    if |parts| == 1 {
      return Some(0), [];
    }
    var rest := JoinParts(parts[1..]);
    ghost var count;
    first, count := SendText(bot, rest, None);
    ghost var all := Split(rest, TEXT_LIMIT);
    sent := all[..count];
    SplitIsLossless(rest, TEXT_LIMIT);
    JoinPrefix(all, count);
  }

  lemma JoinPrefix(parts: seq<string>, count: nat)
    requires count <= |parts|
    ensures Join(parts[..count]) <= Join(parts)
    ensures count == |parts| ==> Join(parts[..count]) == Join(parts)
  {
    JoinAppend(parts[..count], parts[count..]);
    assert parts == parts[..count] + parts[count..];
  }

  method JoinParts(parts: seq<string>) returns (text: string)
    ensures text == Join(parts)
  {
    text := "";
    for i := 0 to |parts|
      invariant text + Join(parts[i..]) == Join(parts)
    {
      text := text + parts[i];
      assert parts[i..][1..] == parts[i + 1..];
    }
    assert parts[|parts|..] == [];
  }
}
