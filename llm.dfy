/** `local_llm_response`, defined identically in agents/qa_agent.py and
    agents/reminder_agent.py: one request to the local model, with a fixed
    apology on any failure. */
module Llm {
  import opened Wrappers
  import opened Text

  /** The apology (written in pieces so that facts about its characters stay
      cheap to prove). */
  const TroubleReply: string := "\U{26A0}\U{FE0F} I'm having " + "trouble processing " + "that. Try again later."

  /** The result of `local_llm_response(prompt)` given the outcome of the
      request: `Ok(text)` when it succeeded with `text` as the `"response"`
      field (the empty string when the field is missing), `Raised` for a failed
      request, an error status, a body that is not JSON or a `"response"` that
      is not a string. The function never raises. */
  function LocalLlmResponse(reply: Result<string>): (r: string)
    ensures reply.Ok? ==> r == Strip(reply.value)
    ensures reply.Raised? ==> r == TroubleReply
  {
    match reply
    case Ok(text) => Strip(text)
    case Raised(_) => TroubleReply
  }

  /** The apology holds no `{`, so no JSON can be cut out of it, and no `d`,
      so it does not contain the word "reminder", whatever the case. */
  lemma TroubleReplyLetters()
    ensures '{' !in TroubleReply && 'd' !in Lower(TroubleReply)
    ensures Strip(TroubleReply) == TroubleReply
  {
    NoDInTroubleReply();
    TroubleReplyStripped();
  }

  lemma NoDInTroubleReply()
    ensures '{' !in TroubleReply && 'd' !in Lower(TroubleReply)
  {
    NotInLower(TroubleReply, 'd');
  }

  lemma TroubleReplyStripped()
    ensures Strip(TroubleReply) == TroubleReply
  {
    assert TroubleReply[0] == '\U{26A0}' && TroubleReply[|TroubleReply| - 1] == '.';
    StripStripped(TroubleReply);
  }
}
