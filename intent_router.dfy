/** utils/intent_router.py: the closed set of intents and `detect_intent`,
    which normalises the label a language model answers with and falls back
    to "qa" on anything else. The model's HTTP reply is an input. */
module IntentRouter {
  import opened Wrappers
  import opened Text

  /** `INTENTS` */
  const Intents: seq<string> := ["music", "news", "qa"]

  /** The fallback intent. */
  const Fallback: string := "qa"

  /** `.strip().lower()` applied to the model's answer. */
  function Normalize(s: string): string {
    Lower(Strip(s))
  }

  /** `detect_intent(message, context)` given the outcome of the request to the
      model: `Ok(text)` is the `"response"` field of a successful reply (the
      empty string when the field is missing), `Raised` any failure of the
      request, of `raise_for_status` or of JSON decoding. Neither `message`
      (only part of the prompt) nor `context` (never used) decides the result. */
  function DetectIntent<C>(message: string, context: C, reply: Result<string>): (intent: string)
    ensures intent in Intents
    ensures reply.Ok? && Normalize(reply.value) in Intents ==> intent == Normalize(reply.value)
    ensures reply.Raised? || Normalize(reply.value) !in Intents ==> intent == Fallback
  {
    if reply.Ok? && Normalize(reply.value) in Intents then Normalize(reply.value) else Fallback
  }

  /** The context argument never changes the intent. */
  lemma ContextIgnored<C>(message: string, c1: C, c2: C, reply: Result<string>)
    ensures DetectIntent(message, c1, reply) == DetectIntent(message, c2, reply)
  {
  }

  /** An empty answer, or one made of whitespace only, yields the fallback. */
  lemma BlankAnswerIsQa<C>(message: string, context: C, blank: string)
    requires AllSpace(blank)
    ensures DetectIntent(message, context, Ok(blank)) == "qa"
  {
    TrimStartOfSpace(blank);
    assert Normalize(blank) == [];
    EmptyIsNoIntent();
  }

  lemma EmptyIsNoIntent()
    ensures [] !in Intents
  {
    assert forall i :: 0 <= i < |Intents| ==> |Intents[i]| > 0;
  }

  /** Surrounding whitespace and letter case of the answer do not matter:
      `pre + answer + post` is classified like `answer`, and so is any answer
      that differs from it only in case. */
  lemma IgnoresPaddingAndCase<C>(message: string, context: C, pre: string, answer: string, post: string, other: string)
    requires AllSpace(pre) && AllSpace(post)
    requires Lower(other) == Lower(answer)
    ensures DetectIntent(message, context, Ok(pre + answer + post)) == DetectIntent(message, context, Ok(answer))
    ensures DetectIntent(message, context, Ok(other)) == DetectIntent(message, context, Ok(answer))
  {
    StripPadded(pre, answer, post);
    assert Normalize(pre + answer + post) == Normalize(answer);
    StripLower(other);
    StripLower(answer);
    assert Normalize(other) == Strip(Lower(other)) == Strip(Lower(answer)) == Normalize(answer);
  }

  /** Every intent label is already normalised. */
  lemma LabelsAreNormal(l: string)
    requires l in Intents
    ensures Normalize(l) == l
  {
    if l == "music" {
      NormalWord("music");
    } else if l == "news" {
      NormalWord("news");
    } else {
      NormalWord("qa");
    }
  }

  /** Classifying a label the classifier itself returned gives it back. */
  lemma DetectIntentIdempotent<C>(message: string, context: C, reply: Result<string>)
    ensures var i := DetectIntent(message, context, reply);
            DetectIntent(message, context, Ok(i)) == i
  {
    LabelsAreNormal(DetectIntent(message, context, reply));
  }

  /** The three labels, spelled out. */
  lemma IntentCases(i: string)
    requires i in Intents
    ensures i == "music" || i == "news" || i == "qa"
  {
  }
}
