/**
 * The chat transcript: `ChatMessage` records and the list operations the
 * session handlers apply to them. Two reserved ids mark placeholders:
 * "bot-thinking" (a reply is being produced) and "transcribing" (speech is
 * being transcribed).
 */
module Transcript {

  datatype Sender = User | Bot

  /** `ChatMessage`: `{id, sender, content}`. */
  datatype Message = Message(id: string, sender: Sender, content: string)

  const BotThinkingId: string := "bot-thinking"
  const TranscribingId: string := "transcribing"

  /** The placeholder shown while a reply is being produced. */
  const BotThinking: Message := Message(BotThinkingId, Bot, "Bot is thinking...")

  /** The placeholder shown while the user's speech is being transcribed. */
  const Transcribing: Message := Message(TranscribingId, User, "Transcribing...")

  /** How many messages carry `id`. */
  function CountId(ms: seq<Message>, id: string): nat {
    if |ms| == 0 then 0 else (if ms[0].id == id then 1 else 0) + CountId(ms[1..], id)
  }

  /** `ms.filter(msg => msg.id !== id)`: drops every message with `id`, keeping the others. */
  function RemoveId(ms: seq<Message>, id: string): (r: seq<Message>)
    ensures |r| == |ms| - CountId(ms, id)
    ensures CountId(r, id) == 0
    ensures forall m :: m in r <==> m in ms && m.id != id
  {
    if |ms| == 0 then []
    else if ms[0].id == id then RemoveId(ms[1..], id)
    else [ms[0]] + RemoveId(ms[1..], id)
  }

  /**
   * `ms.map(msg => msg.id === id ? {...msg, content} : msg)`: every message
   * with `id` gets the new content; ids, senders and order are kept.
   */
  function ReplaceContent(ms: seq<Message>, id: string, content: string): (r: seq<Message>)
    ensures |r| == |ms|
    ensures forall i :: 0 <= i < |ms| ==>
      r[i].id == ms[i].id && r[i].sender == ms[i].sender &&
      r[i].content == (if ms[i].id == id then content else ms[i].content)
  {
    if |ms| == 0 then []
    else [if ms[0].id == id then ms[0].(content := content) else ms[0]] + ReplaceContent(ms[1..], id, content)
  }

  /** A zero count means no message carries the id. */
  lemma {:induction false} CountIdZero(ms: seq<Message>, id: string)
    ensures CountId(ms, id) == 0 <==> forall i :: 0 <= i < |ms| ==> ms[i].id != id
    decreases |ms|
  {
    if |ms| > 0 {
      CountIdZero(ms[1..], id);
      assert forall i :: 1 <= i < |ms| ==> ms[i] == ms[1..][i - 1];
    }
  }

  /** Counting distributes over concatenation. */
  lemma {:induction false} CountIdAppend(a: seq<Message>, b: seq<Message>, id: string)
    ensures CountId(a + b, id) == CountId(a, id) + CountId(b, id)
    decreases |a|
  {
    if |a| > 0 {
      assert (a + b)[1..] == a[1..] + b;
      CountIdAppend(a[1..], b, id);
    } else {
      assert a + b == b;
    }
  }

  /** Appending one message raises the count of its own id by one and leaves every other id's count alone. */
  lemma CountIdSnoc(ms: seq<Message>, m: Message, id: string)
    ensures CountId(ms + [m], id) == CountId(ms, id) + (if m.id == id then 1 else 0)
  {
    CountIdAppend(ms, [m], id);
    assert [m][1..] == [];
  }

  /** Removal works piecewise: the filter keeps the relative order of the survivors. */
  lemma {:induction false} RemoveIdAppend(a: seq<Message>, b: seq<Message>, id: string)
    ensures RemoveId(a + b, id) == RemoveId(a, id) + RemoveId(b, id)
    decreases |a|
  {
    if |a| > 0 {
      assert (a + b)[0] == a[0];
      assert (a + b)[1..] == a[1..] + b;
      RemoveIdAppend(a[1..], b, id);
      if a[0].id != id {
        assert [a[0]] + (RemoveId(a[1..], id) + RemoveId(b, id)) == ([a[0]] + RemoveId(a[1..], id)) + RemoveId(b, id);
      }
    } else {
      assert a + b == b;
    }
  }

  /** A transcript without `id` is left exactly as it is. */
  lemma {:induction false} RemoveIdAbsent(ms: seq<Message>, id: string)
    requires CountId(ms, id) == 0
    ensures RemoveId(ms, id) == ms
    decreases |ms|
  {
    if |ms| > 0 {
      RemoveIdAbsent(ms[1..], id);
    }
  }

  /** Filtering twice is filtering once. */
  lemma RemoveIdIdempotent(ms: seq<Message>, id: string)
    ensures RemoveId(RemoveId(ms, id), id) == RemoveId(ms, id)
  {
    RemoveIdAbsent(RemoveId(ms, id), id);
  }

  /** Replacing content never adds or removes a message with a given id. */
  lemma {:induction false} ReplaceContentKeepsCounts(ms: seq<Message>, id: string, content: string, other: string)
    ensures CountId(ReplaceContent(ms, id, content), other) == CountId(ms, other)
    decreases |ms|
  {
    if |ms| > 0 {
      var r := ReplaceContent(ms, id, content);
      assert r[1..] == ReplaceContent(ms[1..], id, content);
      ReplaceContentKeepsCounts(ms[1..], id, content, other);
    }
  }
}
