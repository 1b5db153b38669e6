/**
 * The quote widget's choice in `generateQuote`: the quote fetched from the remote
 * quote service when there is one, otherwise a line drawn from the local pool.
 */
module Quotes {

  import opened Options
  import opened Sampling

  const FallbackQuotes: seq<string> := [
    "You are stronger than you know, braver than you believe, and more loved than you can imagine.",
    "This too shall pass. You've overcome challenges before, and you will overcome this one too.",
    "Your worth is not determined by your struggles. You are valuable just as you are.",
    "Every sunrise is a new beginning. Today is a fresh start, full of possibilities.",
    "You don't have to be perfect to be worthy of love and happiness.",
    "The darkest nights produce the brightest stars. Your light will shine again.",
    "You are not alone in this. There are people who care about you deeply.",
    "Healing is not linear, and that's perfectly okay. Progress, not perfection.",
    "You have survived 100% of your worst days. You are a survivor.",
    "Your feelings are valid, and it's okay to take time to process them."
  ]

  /**
   * `apiQuote` is what `fetchQuoteFromAPI` returned (`None` for null); it is used
   * when it is truthy, that is present and non-empty. Otherwise `r` stands for
   * `Math.random()` and picks a fallback quote.
   */
  function GenerateQuote(apiQuote: Option<string>, r: real): (quote: string)
    requires IsRandom(r)
    ensures apiQuote.Some? && apiQuote.value != "" ==> quote == apiQuote.value
    ensures !(apiQuote.Some? && apiQuote.value != "") ==> quote in FallbackQuotes
  {
    if apiQuote.Some? && apiQuote.value != "" then apiQuote.value
    else FallbackQuotes[PickIndex(r, |FallbackQuotes|)]
  }

  /** When the remote service gives nothing, each of the ten fallback quotes can be shown. */
  lemma EveryFallbackQuoteReachable(apiQuote: Option<string>, i: nat)
    requires apiQuote.None? || apiQuote.value == ""
    requires i < |FallbackQuotes|
    ensures IsRandom(i as real / 10.0)
    ensures GenerateQuote(apiQuote, i as real / 10.0) == FallbackQuotes[i]
  {
    assert |FallbackQuotes| == 10;
    PickIndexReaches(10, i);
    assert GenerateQuote(apiQuote, i as real / 10.0) == FallbackQuotes[PickIndex(i as real / 10.0, 10)];
  }

}
