/**
 * The chat session: the module-level `conversationHistory` that `getAIResponse`
 * appends to, the message list it sends to the completion service, and
 * `getSupportiveResponse`, which asks for a reply and falls back to a canned line.
 * The completion service's answer is a parameter: `None` stands for every way the
 * request can fail (a thrown error, a non-OK status, a body without a message).
 */
module Chat {

  import opened Options
  import opened Text
  import opened Sampling
  import opened Messages
  import opened Replies

  /** The history is cut back to this many turns after a reply is stored. */
  const MaxHistory: int := 20

  /** This many of the latest turns are sent along with the system prompt. */
  const ContextWindow: int := 8

  const SystemPrompt: string :=
    "You are a supportive, caring friend who is having a conversation with someone who may be feeling down or depressed. You should:\n"
    + "        - Be empathetic and understanding\n"
    + "        - Ask follow-up questions to show you care\n"
    + "        - Provide emotional support and encouragement\n"
    + "        - Keep responses conversational and natural (not like quotes)\n"
    + "        - Be warm and genuine in your responses\n"
    + "        - Don't give medical advice, just emotional support\n"
    + "        - Respond like a real person having a conversation"

  /** The cut applied after a reply: `if (length > 20) history = history.slice(-20)`. */
  function Trim(h: seq<Turn>): (t: seq<Turn>)
    ensures |t| == Min(MaxHistory, |h|)
    ensures t == h[|h| - |t|..]
  {
    SliceLast(h, MaxHistory);
    if |h| > MaxHistory then SliceFrom(h, -MaxHistory) else h
  }

  /** The request's messages: the system prompt, then `history.slice(-8)`. */
  function Outgoing(prompt: string, h: seq<Turn>): (msgs: seq<Turn>)
    ensures |msgs| == 1 + Min(ContextWindow, |h|)
    ensures msgs[0] == Turn(System, prompt)
    ensures msgs[1..] == h[|h| - Min(ContextWindow, |h|)..]
  {
    SliceLast(h, ContextWindow);
    [Turn(System, prompt)] + SliceFrom(h, -ContextWindow)
  }

  /** At most nine messages go out, and all but the first come from the history. */
  lemma OutgoingIsBounded(prompt: string, h: seq<Turn>)
    ensures |Outgoing(prompt, h)| <= ContextWindow + 1
    ensures forall i :: 1 <= i < |Outgoing(prompt, h)| ==> Outgoing(prompt, h)[i] in h
  {
    var msgs := Outgoing(prompt, h);
    var cut := |h| - Min(ContextWindow, |h|);
    forall i | 1 <= i < |msgs|
      ensures msgs[i] in h
    {
      assert msgs[i] == h[cut + i - 1];
    }
  }

  /** A history of at most twenty turns is not cut. */
  lemma TrimShort(h: seq<Turn>)
    requires |h| <= MaxHistory
    ensures Trim(h) == h
  {
  }

  /** Cutting after storing an answer keeps that answer as the last turn. */
  lemma TrimKeepsAnswer(h: seq<Turn>, answer: Turn)
    ensures 1 <= |Trim(h + [answer])| <= MaxHistory
    ensures Trim(h + [answer])[|Trim(h + [answer])| - 1] == answer
  {
    var full := h + [answer];
    var t := Trim(full);
    assert t[|t| - 1] == full[|full| - |t| + |t| - 1];
  }

  /** Cutting keeps the exchange that was just stored at the end of the history. */
  lemma {:induction false} TrimKeepsLatest(h: seq<Turn>, question: Turn, answer: Turn)
    ensures 2 <= |Trim(h + [question, answer])| <= MaxHistory
    ensures Trim(h + [question, answer])[|Trim(h + [question, answer])| - 2..] == [question, answer]
  {
    var full := h + [question, answer];
    var t := Trim(full);
    var cut := |full| - |t|;
    assert full[cut..] == t;
    assert t[|t| - 2..] == full[|full| - 2..];
  }

  /** Only user and assistant turns are ever stored; the system prompt is not. */
  ghost predicate Conversational(h: seq<Turn>)
  {
    forall i :: 0 <= i < |h| ==> h[i].role != System
  }

  /** Storing a user or assistant turn keeps the history free of system turns. */
  lemma PushKeepsConversational(h: seq<Turn>, turn: Turn)
    requires Conversational(h) && turn.role != System
    ensures Conversational(h + [turn])
  {
    forall i | 0 <= i < |h| + 1
      ensures (h + [turn])[i].role != System
    {
      if i < |h| {
        assert (h + [turn])[i] == h[i];
      }
    }
  }

  /** Cutting the history keeps it free of system turns. */
  lemma TrimKeepsConversational(h: seq<Turn>)
    requires Conversational(h)
    ensures Conversational(Trim(h))
  {
    var t := Trim(h);
    var cut := |h| - |t|;
    forall i | 0 <= i < |t|
      ensures t[i].role != System
    {
      assert t[i] == h[cut + i];
    }
  }

  /** The message list holds exactly one system message, the first. */
  ghost predicate SystemOnlyFirst(msgs: seq<Turn>)
  {
    forall i :: 0 <= i < |msgs| ==> (msgs[i].role == System <==> i == 0)
  }

  /** A request built from a stored history holds exactly one system message, the first. */
  lemma OutgoingHasOneSystemMessage(prompt: string, h: seq<Turn>)
    requires Conversational(h)
    ensures SystemOnlyFirst(Outgoing(prompt, h))
  {
    var msgs := Outgoing(prompt, h);
    var cut := |h| - Min(ContextWindow, |h|);
    assert msgs[0].role == System;
    forall i | 0 <= i < |msgs|
      ensures msgs[i].role == System <==> i == 0
    {
      if i > 0 {
        assert msgs[i] == msgs[1..][i - 1] == h[cut + i - 1];
      }
    }
  }

  class ChatSession {

    /** `conversationHistory`. */
    var history: seq<Turn>

    /** The system prompt `getAIResponse` puts first in every request; it never changes. */
    const systemPrompt: string

    ghost predicate Valid()
      reads this
    {
      Conversational(history)
    }

    constructor ()
      ensures Valid() && history == [] && systemPrompt == SystemPrompt
    {
      history := [];
      systemPrompt := SystemPrompt;
    }

    /**
     * The part of `getAIResponse(message)` before it waits for the completion
     * service: the user turn is stored, and `sent` is the request's message list.
     */
    method BeginRequest(message: string) returns (sent: seq<Turn>)
      requires Valid()
      modifies this
      ensures Valid()
      ensures history == old(history) + [Turn(User, message)]
      ensures sent == Outgoing(systemPrompt, history)
      ensures SystemOnlyFirst(sent)
    {
      PushKeepsConversational(history, Turn(User, message));
      history := history + [Turn(User, message)];
      sent := Outgoing(systemPrompt, history);
      OutgoingHasOneSystemMessage(systemPrompt, history);
    }

    /**
     * The part of `getAIResponse` after the completion service has answered `remote`:
     * an answer is stored, and the history cut back to twenty turns; without one
     * nothing changes. Other sends may have stored their user turns in between.
     */
    method CompleteRequest(remote: Option<string>) returns (reply: Option<string>)
      requires Valid()
      modifies this
      ensures Valid()
      ensures reply == remote
      ensures remote.None? ==> history == old(history)
      ensures remote.Some? ==> history == Trim(old(history) + [Turn(Assistant, remote.value)])
      ensures remote.Some? ==> |history| <= MaxHistory && history[|history| - 1] == Turn(Assistant, remote.value)
    {
      match remote {
        case None =>
          reply := None;
        case Some(content) =>
          ghost var full := history + [Turn(Assistant, content)];
          PushKeepsConversational(history, Turn(Assistant, content));
          history := history + [Turn(Assistant, content)];
          if |history| > MaxHistory {
            history := SliceFrom(history, -MaxHistory);
          }
          assert history == Trim(full);
          TrimKeepsAnswer(old(history), Turn(Assistant, content));
          TrimKeepsConversational(full);
          reply := Some(content);
      }
    }

    /**
     * `getAIResponse(message)` when no other send intervenes: the user turn is always
     * stored; the answer and the cut back to twenty turns happen only when an answer
     * arrives, so failed requests make the history grow without bound.
     */
    method GetAIResponse(message: string, remote: Option<string>) returns (reply: Option<string>, sent: seq<Turn>)
      requires Valid()
      modifies this
      ensures Valid()
      ensures reply == remote
      ensures sent == Outgoing(systemPrompt, old(history) + [Turn(User, message)])
      ensures SystemOnlyFirst(sent)
      ensures remote.None? ==> history == old(history) + [Turn(User, message)]
      ensures remote.Some? ==>
        history == Trim(old(history) + [Turn(User, message), Turn(Assistant, remote.value)])
      ensures remote.Some? ==> |history| <= MaxHistory
      ensures remote.Some? ==> history[|history| - 2..] == [Turn(User, message), Turn(Assistant, remote.value)]
    {
      sent := BeginRequest(message);
      reply := CompleteRequest(remote);
      if remote.Some? {
        assert old(history) + [Turn(User, message)] + [Turn(Assistant, remote.value)]
            == old(history) + [Turn(User, message), Turn(Assistant, remote.value)];
        TrimKeepsLatest(old(history), Turn(User, message), Turn(Assistant, remote.value));
      }
    }

    /**
     * `getSupportiveResponse(message)` when no other send intervenes: the remote
     * answer when it is longer than ten characters, otherwise the line `r` picks from
     * the fallback pool of the message's context. The history changes as in `GetAIResponse`.
     */
    method GetSupportiveResponse(message: string, remote: Option<string>, r: real) returns (reply: string)
      requires Valid() && IsRandom(r)
      modifies this
      ensures Valid()
      ensures reply == SupportiveResponse(message, remote, r)
      ensures remote.None? ==> history == old(history) + [Turn(User, message)]
      ensures remote.Some? ==>
        history == Trim(old(history) + [Turn(User, message), Turn(Assistant, remote.value)])
    {
      var ai, _ := GetAIResponse(message, remote);
      reply := SupportiveResponse(message, ai, r);
    }
  }

  /** Two sends whose answers have not arrived yet: both user turns are stored, in order. */
  method SendTwice(session: ChatSession, u1: string, u2: string)
    requires session.Valid()
    modifies session
    ensures session.Valid()
    ensures session.history == old(session.history) + [Turn(User, u1), Turn(User, u2)]
  {
    ghost var start := session.history;
    var _ := session.BeginRequest(u1);
    var _ := session.BeginRequest(u2);
    assert start + [Turn(User, u1)] + [Turn(User, u2)] == start + [Turn(User, u1), Turn(User, u2)];
  }

  /**
   * Two sends overlap when the second is made before the first one's answer arrives:
   * the answer to the first then follows the second question, not its own.
   */
  method OverlappingRequests(u1: string, u2: string, a1: string) returns (stored: seq<Turn>)
    ensures stored == [Turn(User, u1), Turn(User, u2), Turn(Assistant, a1)]
  {
    var session := new ChatSession();
    SendTwice(session, u1, u2);
    ghost var full := session.history + [Turn(Assistant, a1)];
    assert full == [Turn(User, u1), Turn(User, u2), Turn(Assistant, a1)];
    TrimShort(full);
    var _ := session.CompleteRequest(Some(a1));
    stored := session.history;
  }

  /**
   * The twenty-turn cap is not an invariant: starting from an empty history,
   * `n` failed requests leave `n` stored turns, however large `n` is.
   */
  method FailedRequestsAccumulate(message: string, n: nat) returns (stored: nat)
    ensures stored == n
  {
    var session := new ChatSession();
    var i := 0;
    while i < n
      invariant 0 <= i <= n
      invariant session.Valid()
      invariant |session.history| == i
    {
      var _, _ := session.GetAIResponse(message, None);
      i := i + 1;
    }
    stored := |session.history|;
  }

}
