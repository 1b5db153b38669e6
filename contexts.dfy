/**
 * The keyword classifier `detectContext`: the lower-cased message is searched for
 * the keywords of three categories in a fixed order (greeting, sad, anxious); the
 * first category with a keyword occurring anywhere in it wins, and `general` is
 * the answer when none does.
 */
module Contexts {

  import opened Text

  datatype Context = Greeting | Sad | Anxious | General

  /** One entry of the keyword table: a context and the keywords that select it. */
  datatype Category = Category(context: Context, keywords: seq<string>)

  const GreetingKeywords: seq<string> :=
    ["hi", "hello", "hey", "good morning", "good afternoon", "good evening"]

  const SadKeywords: seq<string> :=
    ["sad", "depressed", "down", "hopeless", "empty", "crying", "hurt", "broken", "terrible", "awful"]

  const AnxiousKeywords: seq<string> :=
    ["anxious", "anxiety", "worried", "nervous", "panic", "scared", "afraid", "overwhelmed", "stressed", "fear"]

  /** The table in the order in which the classifier visits it. */
  const ContextKeywords: seq<Category> :=
    [Category(Greeting, GreetingKeywords), Category(Sad, SadKeywords), Category(Anxious, AnxiousKeywords)]

  /** Some keyword of the list is a substring of `s`. */
  ghost predicate Mentions(s: string, keywords: seq<string>)
  {
    exists j :: 0 <= j < |keywords| && Includes(s, keywords[j])
  }

  /** `keywords.some(keyword => s.includes(keyword))`. */
  function AnyIncluded(s: string, keywords: seq<string>): (b: bool)
    ensures b <==> Mentions(s, keywords)
  {
    if keywords == [] then false
    else if Includes(s, keywords[0]) then true
    else
      var rest := AnyIncluded(s, keywords[1..]);
      assert forall j :: 1 <= j < |keywords| ==> keywords[j] == keywords[1..][j - 1];
      rest
  }

  /**
   * The position of the first category whose keywords occur in `s`,
   * or `|table|` when there is none.
   */
  function FirstMatch(s: string, table: seq<Category>): (k: nat)
    ensures k <= |table|
    ensures forall i :: 0 <= i < k ==> !Mentions(s, table[i].keywords)
    ensures k < |table| ==> Mentions(s, table[k].keywords)
  {
    if table == [] then 0
    else if AnyIncluded(s, table[0].keywords) then 0
    else
      var k := 1 + FirstMatch(s, table[1..]);
      assert forall i :: 1 <= i < |table| ==> table[i] == table[1..][i - 1];
      k
  }

  /** `detectContext(message)`. */
  function DetectContext(message: string): (c: Context)
    ensures var lower := ToLower(message);
      && (Mentions(lower, GreetingKeywords) ==> c == Greeting)
      && (!Mentions(lower, GreetingKeywords) && Mentions(lower, SadKeywords) ==> c == Sad)
      && (!Mentions(lower, GreetingKeywords) && !Mentions(lower, SadKeywords) && Mentions(lower, AnxiousKeywords)
          ==> c == Anxious)
      && (!Mentions(lower, GreetingKeywords) && !Mentions(lower, SadKeywords) && !Mentions(lower, AnxiousKeywords)
          ==> c == General)
  {
    var k := FirstMatch(ToLower(message), ContextKeywords);
    assert ContextKeywords[0].keywords == GreetingKeywords;
    assert ContextKeywords[1].keywords == SadKeywords;
    assert ContextKeywords[2].keywords == AnxiousKeywords;
    if k < |ContextKeywords| then ContextKeywords[k].context else General
  }

  /** Upper and lower case are not told apart: the message and its lower-cased form get one context. */
  lemma DetectContextIgnoresCase(message: string)
    ensures DetectContext(ToLower(message)) == DetectContext(message)
  {
    ToLowerIdempotent(message);
  }

  /** Two messages that agree up to case always get the same context. */
  lemma DetectContextSameUpToCase(m1: string, m2: string)
    requires ToLower(m1) == ToLower(m2)
    ensures DetectContext(m1) == DetectContext(m2)
  {
  }

  /** The answer is `General` exactly when no keyword of any category occurs in the lower-cased message. */
  lemma GeneralIffNoKeyword(message: string)
    ensures DetectContext(message) == General <==>
      forall i, j :: 0 <= i < |ContextKeywords| && 0 <= j < |ContextKeywords[i].keywords| ==>
        !Includes(ToLower(message), ContextKeywords[i].keywords[j])
  {
    var lower := ToLower(message);
    if DetectContext(message) == General {
      forall i, j | 0 <= i < |ContextKeywords| && 0 <= j < |ContextKeywords[i].keywords|
        ensures !Includes(lower, ContextKeywords[i].keywords[j])
      {
        assert !Mentions(lower, ContextKeywords[i].keywords);
      }
    } else {
      var i := FirstMatch(lower, ContextKeywords);
      assert i < |ContextKeywords|;
      var j :| 0 <= j < |ContextKeywords[i].keywords| && Includes(lower, ContextKeywords[i].keywords[j]);
    }
  }

  /** Matching is by substring: "this" counts as a greeting because it contains "hi". */
  lemma ThisIsAGreeting()
    ensures DetectContext("this") == Greeting
  {
    var lower := ToLower("this");
    assert lower == "this";
    assert OccursAt(lower, "hi", 1);
    IncludesIsSubstring(lower, "hi");
    assert Includes(lower, GreetingKeywords[0]);
  }

  /**
   * A greeting wins whatever surrounds it: once a message is a greeting, any text
   * added before or after it, sad or anxious keywords included, leaves it a greeting.
   */
  lemma GreetingWinsInAnyContext(pre: string, message: string, post: string)
    requires DetectContext(message) == Greeting
    ensures DetectContext(pre + message + post) == Greeting
  {
    var lower := ToLower(message);
    var j :| 0 <= j < |GreetingKeywords| && Includes(lower, GreetingKeywords[j]);
    ToLowerAppend(pre + message, post);
    ToLowerAppend(pre, message);
    IncludesInContext(ToLower(pre), lower, ToLower(post), GreetingKeywords[j]);
    assert Includes(ToLower(pre + message + post), GreetingKeywords[j]);
  }

  /** Example: "Hey, I feel sad and scared" holds all three kinds of keyword and is a greeting. */
  lemma HeySadScaredIsAGreeting()
    ensures DetectContext("Hey, I feel sad and scared") == Greeting
  {
    var lower := ToLower("Hey, I feel sad and scared");
    assert lower[..3] == "hey";
    assert Includes(lower, GreetingKeywords[2]);
  }

}
