/** agents/qa_agent.py: the local model labels a message "reminder" or
    "chat"; reminders go to the reminder agent, everything else is answered by
    the model with the user's recent history in the prompt. The two requests
    to the model are inputs. */
module QaAgent {
  import opened Wrappers
  import opened Text
  import Json
  import Llm
  import Memory
  import ReminderAgent

  /** `classify_intent(user_input)` given the outcome of the request to the
      model: its answer, stripped and lower-cased. */
  function ClassifyIntent(reply: Result<string>): (intent: string)
    ensures reply.Ok? ==> intent == Lower(Strip(reply.value))
    ensures reply.Raised? ==> intent == Lower(Llm.TroubleReply)
  {
    if reply.Ok? then
      StripStripped(Strip(reply.value));
      Lower(Strip(Llm.LocalLlmResponse(reply)))
    else
      Llm.TroubleReplyLetters();
      Lower(Strip(Llm.LocalLlmResponse(reply)))
  }

  /** The label is already stripped and lower-cased. */
  lemma IntentIsNormal(reply: Result<string>)
    ensures Lower(Strip(ClassifyIntent(reply))) == ClassifyIntent(reply)
  {
    NormalizedIsNormal(Llm.LocalLlmResponse(reply));
  }

  /** `repr` of one `{"role": …, "message": …}` dictionary. */
  function EntryText(e: Memory.Entry): string {
    "{'role': " + Repr(e.role) + ", 'message': " + Repr(e.message) + "}"
  }

  /** The dictionaries of `es`, separated by ", ". */
  function EntriesText(es: seq<Memory.Entry>): string {
    if es == [] then ""
    else if |es| == 1 then EntryText(es[0])
    else EntriesText(es[..|es| - 1]) + ", " + EntryText(es[|es| - 1])
  }

  /** `f"{context}"`: the list as Python prints it. */
  function ContextText(es: seq<Memory.Entry>): string {
    "[" + EntriesText(es) + "]"
  }

  const Preamble: string := "You are a helpful assistant. Here is the conversation so far:\n"

  /** The prompt `handle_qa_agent` sends for a chat. */
  function ChatPrompt(context: seq<Memory.Entry>, input: string): (prompt: string)
    ensures |prompt| >= |Preamble| && prompt[..|Preamble|] == Preamble
    ensures var tail := "\nUser: " + input + "\nAssistant:";
            |prompt| >= |tail| && prompt[|prompt| - |tail|..] == tail
  {
    var tail := "\nUser: " + input + "\nAssistant:";
    var prompt := Preamble + ContextText(context) + tail;
    assert prompt == (Preamble + ContextText(context)) + tail;
    prompt
  }

  /** `handle_qa_agent(user_input, user_id)`. `records` is the memory table,
      `classify` the outcome of the labelling request, `chat(prompt)` the
      outcome of the answering request; `llm`, `decode` and `calendar` are what
      `create_reminder` needs. A label containing "reminder" hands the message
      to the reminder agent and returns its answer unchanged; anything else is
      answered from a prompt holding the last five entries of the user. */
  function HandleQaAgent(input: string, userId: string, records: seq<Memory.Record>,
                         classify: Result<string>, chat: string -> Result<string>,
                         llm: Result<string>, decode: string -> Option<Json.Value>,
                         calendar: ReminderAgent.Event -> bool): (out: ReminderAgent.Outcome)
    ensures Contains(ClassifyIntent(classify), "reminder") ==>
              out == ReminderAgent.CreateReminder(llm, decode, calendar)
    ensures !Contains(ClassifyIntent(classify), "reminder") ==>
              out.created == None &&
              out.reply == Llm.LocalLlmResponse(chat(ChatPrompt(Memory.RecentEntries(records, userId, Memory.DefaultLimit), input)))
  {
    if Contains(ClassifyIntent(classify), "reminder") then
      ReminderAgent.CreateReminder(llm, decode, calendar)
    else
      var context := Memory.RecentEntries(records, userId, Memory.DefaultLimit);
      ReminderAgent.Outcome(Llm.LocalLlmResponse(chat(ChatPrompt(context, input))), None)
  }

  /** The apology, lower-cased, has no "reminder" in it: it has no `d`. */
  lemma ApologyNamesNoReminder()
    ensures !Contains(Lower(Llm.TroubleReply), "reminder")
  {
    assert "reminder"[5] == 'd';
    Llm.TroubleReplyLetters();
    MissingCharNotContained(Lower(Llm.TroubleReply), "reminder", 'd', 5);
  }

  /** A failed labelling request is answered as a chat. */
  lemma FailedClassificationChats(fault: Fault)
    ensures !Contains(ClassifyIntent(Raised(fault)), "reminder")
  {
    var intent := ClassifyIntent(Raised(fault));
    assert intent == Lower(Llm.TroubleReply);
    ApologyNamesNoReminder();
  }

  /** The answer "reminder", in any case and with any whitespace around it,
      sends the message to the reminder agent. */
  lemma ReminderInAnyCase(pre: string, word: string, post: string)
    requires AllSpace(pre) && AllSpace(post) && Lower(word) == "reminder"
    ensures Contains(ClassifyIntent(Ok(pre + word + post)), "reminder")
  {
    WordStripped(word);
    PaddedWordClassified(pre, word, post);
    ContainsSelf(Lower(word));
  }

  /** Any spelling of "reminder" is already stripped. */
  lemma WordStripped(word: string)
    requires Lower(word) == "reminder"
    ensures Strip(word) == word
  {
    assert LowerChar(word[0]) == 'r' && LowerChar(word[7]) == 'r';
    StripStripped(word);
  }

  /** A stripped answer with whitespace around it is labelled by its lower case. */
  lemma PaddedWordClassified(pre: string, word: string, post: string)
    requires AllSpace(pre) && AllSpace(post) && Strip(word) == word
    ensures ClassifyIntent(Ok(pre + word + post)) == Lower(word)
  {
    StripPadded(pre, word, post);
  }

  /** Every listed entry is in the printed list. */
  lemma {:induction false} EntryInList(es: seq<Memory.Entry>, k: int)
    requires 0 <= k < |es|
    ensures Contains(EntriesText(es), EntryText(es[k]))
  {
    if |es| == 1 {
      ContainsSelf(EntryText(es[0]));
    } else {
      var init := es[..|es| - 1];
      var front := EntriesText(init) + ", ";
      var last := EntryText(es[|es| - 1]);
      assert EntriesText(es) == front + last;
      ContainsHalves(front, last);
      if k < |es| - 1 {
        EntryInList(init, k);
        assert init[k] == es[k];
        ContainsHalves(EntriesText(init), ", ");
        ContainsTrans(front, EntriesText(init), EntryText(es[k]));
        ContainsTrans(EntriesText(es), front, EntryText(es[k]));
      }
    }
  }

  /** One printed entry holds the `repr` of its role and of its message. */
  lemma EntryHoldsFields(e: Memory.Entry)
    ensures Contains(EntryText(e), Repr(e.message)) && Contains(EntryText(e), Repr(e.role))
  {
    assert EntryText(e) == ("{'role': " + Repr(e.role) + ", 'message': ") + Repr(e.message) + "}";
    ContainsMiddle("{'role': " + Repr(e.role) + ", 'message': ", Repr(e.message), "}");
    assert EntryText(e) == "{'role': " + Repr(e.role) + (", 'message': " + Repr(e.message) + "}");
    ContainsMiddle("{'role': ", Repr(e.role), ", 'message': " + Repr(e.message) + "}");
  }

  /** The chat prompt holds the printed list of entries. */
  lemma PromptHoldsList(context: seq<Memory.Entry>, input: string)
    ensures Contains(ChatPrompt(context, input), EntriesText(context))
  {
    var prompt := ChatPrompt(context, input);
    ContainsMiddle(Preamble, ContextText(context), "\nUser: " + input + "\nAssistant:");
    ContainsMiddle("[", EntriesText(context), "]");
    ContainsTrans(prompt, ContextText(context), EntriesText(context));
  }

  /** The chat prompt holds the role and the message of every context entry,
      as `repr` writes them; `Text.ReprRoundTrip` reads them back. */
  lemma PromptHoldsContext(context: seq<Memory.Entry>, input: string, k: int)
    requires 0 <= k < |context|
    ensures Contains(ChatPrompt(context, input), Repr(context[k].message))
    ensures Contains(ChatPrompt(context, input), Repr(context[k].role))
  {
    var prompt := ChatPrompt(context, input);
    var e := context[k];
    PromptHoldsList(context, input);
    EntryInList(context, k);
    ContainsTrans(prompt, EntriesText(context), EntryText(e));
    EntryHoldsFields(e);
    ContainsTrans(prompt, EntryText(e), Repr(e.message));
    ContainsTrans(prompt, EntryText(e), Repr(e.role));
  }

  /** A message that `repr` leaves as it is (no single quote, backslash or
      control character) occurs verbatim in the chat prompt. */
  lemma PromptHoldsPlainMessage(context: seq<Memory.Entry>, input: string, k: int)
    requires 0 <= k < |context|
    requires forall i :: 0 <= i < |context[k].message| ==> !Escaped(context[k].message[i], '\'')
    ensures Contains(ChatPrompt(context, input), context[k].message)
  {
    var m := context[k].message;
    PromptHoldsContext(context, input, k);
    ReprPlain(m);
    ContainsMiddle("'", m, "'");
    ContainsTrans(ChatPrompt(context, input), Repr(m), m);
  }

  /** Other users' rows never reach the prompt: the answer is the same when
      the table holds only this user's rows. */
  lemma OtherUsersIgnored(input: string, userId: string, records: seq<Memory.Record>,
                          classify: Result<string>, chat: string -> Result<string>,
                          llm: Result<string>, decode: string -> Option<Json.Value>,
                          calendar: ReminderAgent.Event -> bool)
    ensures HandleQaAgent(input, userId, records, classify, chat, llm, decode, calendar)
         == HandleQaAgent(input, userId, Memory.UserRecords(records, userId), classify, chat, llm, decode, calendar)
  {
    var own := Memory.UserRecords(records, userId);
    Memory.AllOfUser(own, userId);
  }
}
