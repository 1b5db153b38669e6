/**
 * The locally produced chat replies: the canned fallback table used when the
 * completion service gives no usable answer (`getSupportiveResponse`), and the
 * rule-based reply generator `generateContextualResponse`.
 */
module Replies {

  import opened Options
  import opened Text
  import opened Sampling
  import opened Contexts
  import opened Messages

  const FallbackGreeting: seq<string> := [
    "Hi there! I'm so glad you're here. How are you feeling today?",
    "Hello! I'm here to listen and support you. What's on your mind?",
    "Hey! Thanks for reaching out. I'm here for you. How can I help?",
    "Hi! I'm really glad you're talking to me. What would you like to talk about?"
  ]

  const FallbackSad: seq<string> := [
    "I can hear that you're going through a really tough time. Your feelings are completely valid.",
    "It sounds like you're having a really hard day. I'm here with you through this.",
    "I understand you're feeling down. It's okay to feel this way, and you're not alone.",
    "I can sense you're struggling right now. Your pain is real, and so is your strength."
  ]

  const FallbackAnxious: seq<string> := [
    "I can hear the worry in your words. Let's take this one step at a time.",
    "It sounds like you're feeling really anxious. That's completely understandable.",
    "I can sense you're feeling overwhelmed. You don't have to handle everything at once.",
    "Your anxiety is real, but so is your ability to get through this moment."
  ]

  const FallbackGeneral: seq<string> := [
    "I'm really glad you're sharing this with me. It takes courage to open up.",
    "Thank you for trusting me with this. I'm here to listen and support you.",
    "I appreciate you telling me this. You're not alone in this conversation.",
    "I'm listening, and I care about what you're going through."
  ]

  /** `fallbackResponses[context]`: every context has its own non-empty pool. */
  function FallbackResponses(c: Context): (pool: seq<string>)
    ensures |pool| == 4
  {
    match c
    case Greeting => FallbackGreeting
    case Sad => FallbackSad
    case Anxious => FallbackAnxious
    case General => FallbackGeneral
  }

  /** Every canned fallback line is longer than ten characters. */
  lemma FallbacksAreLong(c: Context, i: nat)
    requires i < 4
    ensures |FallbackResponses(c)[i]| > 10
  {
  }

  /**
   * The reply `getSupportiveResponse` settles on once the completion service has
   * answered `ai`: that answer when it is present and longer than ten characters,
   * otherwise a line drawn by `r` from the pool of the message's context.
   */
  function SupportiveResponse(message: string, ai: Option<string>, r: real): (reply: string)
    requires IsRandom(r)
    ensures ai.Some? && |ai.value| > 10 ==> reply == ai.value
    ensures !(ai.Some? && |ai.value| > 10) ==> reply in FallbackResponses(DetectContext(message))
  {
    if ai.Some? && |ai.value| > 10 then ai.value
    else
      var pool := FallbackResponses(DetectContext(message));
      pool[PickIndex(r, |pool|)]
  }

  /**
   * The remote answer is passed on only when it is longer than ten characters:
   * a short answer can never come back, because no fallback line is that short.
   */
  lemma RemoteReplyOnlyWhenLong(message: string, text: string, r: real)
    requires IsRandom(r)
    ensures SupportiveResponse(message, Some(text), r) == text <==> |text| > 10
  {
    if |text| <= 10 {
      var c := DetectContext(message);
      FallbacksAreLong(c, PickIndex(r, 4));
    }
  }

  /** With no remote answer, every line of the context's pool is a possible reply. */
  lemma EveryFallbackReachable(message: string, i: nat)
    requires i < 4
    ensures IsRandom(i as real / 4.0)
    ensures SupportiveResponse(message, None, i as real / 4.0) == FallbackResponses(DetectContext(message))[i]
  {
    PickIndexReaches(4, i);
  }

  /** A reply that opens the same way for every conversation and asks a question that depends on it. */
  datatype Prompt = Prompt(opener: string, followUp: string, firstTime: string)

  function Ask(p: Prompt, isFollowUp: bool): string
  {
    p.opener + (if isFollowUp then p.followUp else p.firstTime)
  }

  const Greetings: seq<string> := [
    "Hi there! I'm so glad you're here. How are you feeling today?",
    "Hello! I'm here to listen and support you. What's on your mind?",
    "Hey! Thanks for reaching out. I'm here for you. How can I help?",
    "Hi! I'm really glad you're talking to me. What would you like to talk about?"
  ]

  const SadPrompts: seq<Prompt> := [
    Prompt("I can hear that you're going through a really tough time. Your feelings are completely valid. ",
           "What's been weighing on you most today?", "What's making you feel this way?"),
    Prompt("It sounds like you're having a really hard day. I'm here with you through this. ",
           "Is there something specific that's been bothering you?", "Would you like to tell me more about what's going on?"),
    Prompt("I understand you're feeling down. It's okay to feel this way, and you're not alone. ",
           "How long have you been feeling like this?", "What's been on your mind lately?"),
    Prompt("I can sense you're struggling right now. Your pain is real, and so is your strength. ",
           "What do you think might help you feel a little better?", "Is there anything that usually helps when you feel this way?")
  ]

  const AnxiousPrompts: seq<Prompt> := [
    Prompt("I can hear the worry in your words. Let's take this one step at a time. ",
           "What's making you feel most anxious right now?", "What's been causing you the most stress lately?"),
    Prompt("It sounds like you're feeling really anxious. That's completely understandable. ",
           "Have you tried any breathing exercises or relaxation techniques?", "What usually helps you when you feel overwhelmed?"),
    Prompt("I can sense you're feeling overwhelmed. You don't have to handle everything at once. ",
           "What's the most pressing thing on your mind right now?", "Would it help to talk through what's worrying you?"),
    Prompt("Your anxiety is real, but so is your ability to get through this moment. ",
           "What's one small thing you could do to help yourself right now?", "Is there something specific that's triggering these feelings?")
  ]

  const GeneralPrompts: seq<Prompt> := [
    Prompt("I'm really glad you're sharing this with me. ",
           "Tell me more about that.", "What's been on your mind lately?"),
    Prompt("Thank you for trusting me with this. I'm here to listen and support you. ",
           "How has that been affecting you?", "How are you feeling about everything?"),
    Prompt("I appreciate you telling me this. You're not alone in this conversation. ",
           "What do you think about that?", "What would you like to talk about?"),
    Prompt("I'm listening, and I care about what you're going through. ",
           "What's been the hardest part?", "How can I best support you right now?")
  ]

  const ThankReply: string :=
    "You're so welcome! I'm really glad I can be here for you. How are you feeling now?"
  const HelpReply: string :=
    "I'm here to help you figure things out. What's been on your mind? Sometimes just talking through things can help us see them more clearly."
  const TiredReply: string :=
    "It sounds like you're feeling really tired. That can make everything feel so much harder. Have you been able to get some rest? What's been keeping you up or draining your energy?"
  const AloneReply: string :=
    "I can hear that you're feeling alone right now. That's such a difficult feeling. You're not alone in this conversation though - I'm here with you. What's been making you feel most isolated?"

  /** The conversation counts as a follow-up once the history holds more than two turns. */
  function IsFollowUp(history: seq<Turn>): bool
  {
    |history| > 2
  }

  predicate SaysThanks(lower: string)
  {
    Includes(lower, "thank") || Includes(lower, "thanks")
  }

  predicate AsksForHelp(lower: string)
  {
    Includes(lower, "help") || Includes(lower, "don't know")
  }

  predicate FeelsTired(lower: string)
  {
    Includes(lower, "tired") || Includes(lower, "exhausted")
  }

  predicate FeelsAlone(lower: string)
  {
    Includes(lower, "alone") || Includes(lower, "lonely")
  }

  /** No canned general reply applies: the reply comes from the general pool. */
  predicate NoCannedTopic(lower: string)
  {
    !SaysThanks(lower) && !AsksForHelp(lower) && !FeelsTired(lower) && !FeelsAlone(lower)
  }

  /** `generateContextualResponse(message, context, history)`, with `r` standing for `Math.random()`. */
  function ContextualResponse(message: string, context: Context, history: seq<Turn>, r: real): (reply: string)
    requires IsRandom(r)
    ensures context == Greeting ==> reply in FallbackResponses(Greeting)
    ensures context != Greeting ==> reply !in FallbackResponses(Greeting)
  {
    assert Greetings == FallbackGreeting;
    var lower := ToLower(message);
    var followUp := IsFollowUp(history);
    match context
    case Greeting => Greetings[PickIndex(r, |Greetings|)]
    case Sad => Ask(SadPrompts[PickIndex(r, |SadPrompts|)], followUp)
    case Anxious => Ask(AnxiousPrompts[PickIndex(r, |AnxiousPrompts|)], followUp)
    case General =>
      if SaysThanks(lower) then ThankReply
      else if AsksForHelp(lower) then HelpReply
      else if FeelsTired(lower) then TiredReply
      else if FeelsAlone(lower) then AloneReply
      else Ask(GeneralPrompts[PickIndex(r, |GeneralPrompts|)], followUp)
  }

  /** The prompts whose question depends on the follow-up flag, for each non-greeting context. */
  function PromptsOf(c: Context): seq<Prompt>
  {
    match c
    case Greeting => []
    case Sad => SadPrompts
    case Anxious => AnxiousPrompts
    case General => GeneralPrompts
  }

  /** The reply is drawn from the pool of its context, unless a canned general topic applies. */
  lemma ContextualResponseInPool(message: string, context: Context, history: seq<Turn>, r: real)
    requires IsRandom(r)
    ensures var reply := ContextualResponse(message, context, history, r);
      if context == Greeting then reply in FallbackResponses(Greeting)
      else if context == General && !NoCannedTopic(ToLower(message)) then
        reply in [ThankReply, HelpReply, TiredReply, AloneReply]
      else exists i :: 0 <= i < 4 && reply == Ask(PromptsOf(context)[i], IsFollowUp(history))
  {
    var i := PickIndex(r, 4);
    if context == Greeting {
      assert Greetings == FallbackGreeting;
    } else if context != General || NoCannedTopic(ToLower(message)) {
      assert ContextualResponse(message, context, history, r) == Ask(PromptsOf(context)[i], IsFollowUp(history));
    }
  }

  /**
   * A sad or anxious reply starts with the very fallback line that the same draw
   * picks when the completion service fails, followed by a question.
   */
  lemma ContextualExtendsFallback(message: string, context: Context, history: seq<Turn>, r: real)
    requires IsRandom(r)
    requires context == Sad || context == Anxious
    ensures FallbackResponses(context)[PickIndex(r, 4)] + " " <= ContextualResponse(message, context, history, r)
  {
    var i := PickIndex(r, 4);
    var p := PromptsOf(context)[i];
    assert FallbackResponses(context)[i] + " " == p.opener by {
      assert FallbackSad[i] + " " == SadPrompts[i].opener;
      assert FallbackAnxious[i] + " " == AnxiousPrompts[i].opener;
    }
  }

  /** In every prompt the follow-up question differs from the first-time question. */
  lemma QuestionsDiffer(c: Context, i: nat)
    requires i < |PromptsOf(c)|
    ensures |PromptsOf(c)[i].followUp| != |PromptsOf(c)[i].firstTime|
  {
  }

  /**
   * Where the reply comes from a prompt pool, it depends on the history only
   * through the follow-up flag, and it does depend on it: two histories give the
   * same reply exactly when both or neither hold more than two turns.
   */
  lemma FollowUpDecidesQuestion(message: string, context: Context, h1: seq<Turn>, h2: seq<Turn>, r: real)
    requires IsRandom(r)
    requires context == Sad || context == Anxious || (context == General && NoCannedTopic(ToLower(message)))
    ensures ContextualResponse(message, context, h1, r) == ContextualResponse(message, context, h2, r)
            <==> (|h1| > 2 <==> |h2| > 2)
  {
    var i := PickIndex(r, 4);
    var p := PromptsOf(context)[i];
    assert ContextualResponse(message, context, h1, r) == Ask(p, IsFollowUp(h1));
    assert ContextualResponse(message, context, h2, r) == Ask(p, IsFollowUp(h2));
    QuestionsDiffer(context, i);
  }

  /** No reply drawn from a pool has the length of a canned general reply. */
  lemma PoolRepliesAreNotCanned(c: Context, i: nat, followUp: bool)
    requires c != Greeting && i < 4
    ensures Ask(PromptsOf(c)[i], followUp) !in [ThankReply, HelpReply, TiredReply, AloneReply]
  {
    var n := |Ask(PromptsOf(c)[i], followUp)|;
    assert n != |ThankReply| && n != |HelpReply| && n != |TiredReply| && n != |AloneReply|;
  }

  /**
   * The canned general replies are tried in order, thanks, help, tired, alone:
   * each is given exactly when the context is general, its keywords occur, and
   * the keywords of every earlier one do not.
   */
  lemma CannedRepliesInOrder(message: string, context: Context, history: seq<Turn>, r: real)
    requires IsRandom(r)
    ensures var reply := ContextualResponse(message, context, history, r);
      var lower := ToLower(message);
      && (reply == ThankReply <==> context == General && SaysThanks(lower))
      && (reply == HelpReply <==> context == General && !SaysThanks(lower) && AsksForHelp(lower))
      && (reply == TiredReply <==> context == General && !SaysThanks(lower) && !AsksForHelp(lower) && FeelsTired(lower))
      && (reply == AloneReply <==> context == General && !SaysThanks(lower) && !AsksForHelp(lower)
                                   && !FeelsTired(lower) && FeelsAlone(lower))
  {
    var reply := ContextualResponse(message, context, history, r);
    var i := PickIndex(r, 4);
    var canned := [ThankReply, HelpReply, TiredReply, AloneReply];
    if context == Greeting {
      assert reply in FallbackGreeting by { assert Greetings == FallbackGreeting; }
      assert forall g :: g in FallbackGreeting ==> |g| < |ThankReply|;
    } else if context != General || NoCannedTopic(ToLower(message)) {
      assert reply == Ask(PromptsOf(context)[i], IsFollowUp(history));
      PoolRepliesAreNotCanned(context, i, IsFollowUp(history));
    }
  }

  /** The separate "thanks" test never decides anything: every message containing "thanks" contains "thank". */
  lemma ThanksImpliesThank(lower: string)
    ensures SaysThanks(lower) <==> Includes(lower, "thank")
  {
    if Includes(lower, "thanks") {
      IncludesPrefix(lower, "thanks", "thank");
    }
  }

}
