/**
 * The conversation-history buffer of ChatGPT.py. The OpenAI request is not
 * modelled; its outcome is a parameter: `Some(text)` for a reply, `None` when
 * the request raised. Reading and base64-encoding an attached image is not
 * modelled either; an attached image arrives already encoded.
 */
module ChatBot {
  import opened Wrappers

  datatype Role = System | User | Assistant

  /** A message body: plain text, or the text plus an attached JPEG image. */
  datatype Content = Plain(text: string) | TextWithImage(text: string, imageBase64: string)

  datatype Message = Message(role: Role, content: Content)

  /** The user entry of the outgoing request. */
  function Request(message: string, image: Option<string>): Message {
    if image.Some? then Message(User, TextWithImage(message, image.value))
    else Message(User, Plain(message))
  }

  /** What `send_message` returns for a request outcome: the reply, or `""` on failure. */
  function ReplyText(response: Option<string>): string {
    if response.Some? then response.value else ""
  }

  /** The history after the trim of one call: the oldest entry goes when the history is longer than `n`. */
  function Trimmed(history: seq<Message>, n: nat): seq<Message> {
    if |history| > n then history[1..] else history
  }

  /**
   * The history after one call of `send_message`: at most one entry is lost,
   * and it is the oldest; a failed request adds nothing; a reply adds the
   * plain-text user message and then the reply at the end, so the history
   * grows by two, or by one when the trim took an entry.
   */
  function AfterCall(history: seq<Message>, n: nat, message: string, response: Option<string>): (after: seq<Message>)
    ensures var dropped := if |history| > n then 1 else 0;
      && |history| - dropped <= |after|
      && after[..|history| - dropped] == history[dropped..]
      && (response.None? ==> |after| == |history| - dropped)
      && (response.Some? ==>
            && |after| == |history| - dropped + 2
            && after[|after| - 2] == Message(User, Plain(message))
            && after[|after| - 1] == Message(Assistant, Plain(response.value)))
  {
    var kept := Trimmed(history, n);
    if response.None? then kept
    else kept + [Message(User, Plain(message)), Message(Assistant, Plain(response.value))]
  }

  /** The history after a series of calls, each a message and the outcome of its request. */
  function AfterCalls(history: seq<Message>, n: nat, calls: seq<(string, Option<string>)>): seq<Message>
    decreases |calls|
  {
    if calls == [] then history
    else AfterCalls(AfterCall(history, n, calls[0].0, calls[0].1), n, calls[1..])
  }

  /**
   * `n_memorise` does not bound the history: an answered call removes at
   * most one entry and adds two, so every answered call makes the history
   * longer by one or two entries.
   */
  lemma {:induction false} HistoryGrowth(history: seq<Message>, n: nat, calls: seq<(string, Option<string>)>)
    requires forall k :: 0 <= k < |calls| ==> calls[k].1.Some?
    ensures |history| + |calls| <= |AfterCalls(history, n, calls)| <= |history| + 2 * |calls|
    decreases |calls|
  {
    if calls != [] {
      var next := AfterCall(history, n, calls[0].0, calls[0].1);
      assert |history| + 1 <= |next| <= |history| + 2;
      HistoryGrowth(next, n, calls[1..]);
    }
  }

  class ChatGPT {
    /** `conversation_history`. */
    var history: seq<Message>
    /** `n_memorise`. */
    const memorise: nat

    /** A new client: the history is the one system entry holding `initPrompt`. */
    constructor(initPrompt: string, nMemorise: nat)
      ensures history == [Message(System, Plain(initPrompt))]
      ensures memorise == nMemorise
    {
      history := [Message(System, Plain(initPrompt))];
      memorise := nMemorise;
    }

    /**
     * `send_message`. `response` is the outcome of the request; `sent` is
     * the list of messages the request carries.
     */
    method SendMessage(message: string, image: Option<string>, response: Option<string>)
      returns (reply: string, sent: seq<Message>)
      modifies this
      ensures sent == old(history) + [Request(message, image)]
      ensures history == AfterCall(old(history), memorise, message, response)
      ensures reply == ReplyText(response)
    {
      sent := history + [Request(message, image)];
      if |history| > memorise {
        history := history[1..];
      }
      if response.None? {
        return "", sent;
      }
      reply := response.value;
      history := history + [Message(User, Plain(message))];
      history := history + [Message(Assistant, Plain(reply))];
    }
  }

  /**
   * With the default `n_memorise` of 1, the second answered call already
   * removes the system entry that holds the initial prompt.
   */
  method SystemPromptForgotten(initPrompt: string, first: string, second: string, r1: string, r2: string)
    returns (history: seq<Message>)
    ensures |history| == 4
    ensures forall k :: 0 <= k < |history| ==> history[k].role != System
  {
    var gpt := new ChatGPT(initPrompt, 1);
    var _, _ := gpt.SendMessage(first, None, Some(r1));
    var _, _ := gpt.SendMessage(second, None, Some(r2));
    history := gpt.history;
  }
}
