/** app.py: the Discord `on_message` handler. Discord itself (the event loop,
    the author object, `channel.send`) is abstracted to the values the handler
    reads and the reply it sends. */
module App {
  import opened Wrappers
  import opened Text
  import Memory
  import IntentRouter

  const MusicComingSoon: string := "\U{1F3B5} Music assistant is coming soon!"
  const QaComingSoon: string := "\U{1F4AC} General Q&A is coming soon!"
  const NotUnderstood: string := "\U{1F916} I didn't understand that. Try asking for news."
  const SomethingWentWrong: string := "\U{26A0}\U{FE0F} Something went wrong while processing your request."

  /** The arms of the `if`/`elif` chain in `on_message`. */
  datatype Branch = NewsBranch | MusicBranch | QaBranch | OtherBranch

  function BranchOf(intent: string): Branch {
    if intent == "news" then NewsBranch
    else if intent == "music" then MusicBranch
    else if intent == "qa" then QaBranch
    else OtherBranch
  }

  /** The `try` block of `on_message` with its `except`: `news` is what the news
      handler does with the message, either a reply or an exception. Only the
      news arm calls a handler, so only it can end in the generic error. */
  function Respond(intent: string, news: Result<string>): (reply: string)
    ensures BranchOf(intent) == NewsBranch && news.Raised? ==> reply == SomethingWentWrong
    ensures BranchOf(intent) == NewsBranch && news.Ok? ==> reply == news.value
    ensures BranchOf(intent) != NewsBranch ==> reply != SomethingWentWrong
  {
    match BranchOf(intent)
    case NewsBranch => (match news case Ok(text) => text case Raised(_) => SomethingWentWrong)
    case MusicBranch => MusicComingSoon
    case QaBranch => QaComingSoon
    case OtherBranch => NotUnderstood
  }

  /** Every intent `detect_intent` can return has its own arm: the final `else`
      ("I didn't understand that") is never taken. */
  lemma OtherBranchUnreachable<C>(message: string, context: C, classifier: Result<string>)
    ensures BranchOf(IntentRouter.DetectIntent(message, context, classifier)) != OtherBranch
  {
    IntentRouter.IntentCases(IntentRouter.DetectIntent(message, context, classifier));
  }

  /** The intent-to-reply table: news goes to the handler, music and qa get
      their fixed answers, which do not depend on the handler at all. */
  lemma ReplyTable(intent: string, n1: Result<string>, n2: Result<string>)
    requires intent in IntentRouter.Intents
    ensures intent == "music" ==> Respond(intent, n1) == MusicComingSoon
    ensures intent == "qa" ==> Respond(intent, n1) == QaComingSoon
    ensures intent != "news" ==> Respond(intent, n1) == Respond(intent, n2)
    ensures Respond(intent, n1) != NotUnderstood || (n1.Ok? && n1.value == NotUnderstood)
  {
  }

  /** `on_message` for a message with text `content` from the author with id
      `authorId`. `classifier` is the outcome of the intent-classification
      request, `news` the news handler, `userTime` and `replyTime` the database
      clock at the two inserts. Returns what is sent to the channel. */
  method OnMessage(store: Memory.MemoryStore, authorIsBot: bool, authorId: nat, content: string,
                   classifier: Result<string>, news: string -> Result<string>,
                   userTime: int, replyTime: int)
    returns (sent: Option<string>)
    requires store.Valid()
    modifies store
    ensures store.Valid()
    ensures authorIsBot ==> sent == None && store.records == old(store.records) && store.nextId == old(store.nextId)
    ensures !authorIsBot ==>
              var input := Strip(content);
              var user := NatToString(authorId);
              var asked := Memory.Record(old(store.nextId), user, "user", input, userTime);
              var context := Memory.RecentEntries(old(store.records) + [asked], user, Memory.DefaultLimit);
              var reply := Respond(IntentRouter.DetectIntent(input, context, classifier), news(input));
              sent == Some(reply) &&
              store.records == old(store.records) + [asked, Memory.Record(old(store.nextId) + 1, user, "assistant", reply, replyTime)] &&
              store.nextId == old(store.nextId) + 2
  {
    if authorIsBot {
      return None;
    }
    var response := Exchange(store, NatToString(authorId), Strip(content), classifier, news, userTime, replyTime);
    sent := Some(response);
  }

  /** The part of `on_message` after the bot check: save the message, read the
      context, answer, save the answer. */
  method Exchange(store: Memory.MemoryStore, userId: string, userInput: string,
                  classifier: Result<string>, news: string -> Result<string>,
                  userTime: int, replyTime: int)
    returns (response: string)
    requires store.Valid()
    modifies store
    ensures store.Valid()
    ensures var asked := Memory.Record(old(store.nextId), userId, "user", userInput, userTime);
            var context := Memory.RecentEntries(old(store.records) + [asked], userId, Memory.DefaultLimit);
            response == Respond(IntentRouter.DetectIntent(userInput, context, classifier), news(userInput)) &&
            store.records == old(store.records) + [asked, Memory.Record(old(store.nextId) + 1, userId, "assistant", response, replyTime)] &&
            store.nextId == old(store.nextId) + 2
  {
    ghost var before, firstId := store.records, store.nextId;
    ghost var asked := Memory.Record(firstId, userId, "user", userInput, userTime);
    store.AppendUserMessage(userId, "user", userInput, userTime);
    var context := store.GetUserContext(userId, Memory.DefaultLimit);
    var intent := IntentRouter.DetectIntent(userInput, context, classifier);
    response := Respond(intent, news(userInput));
    ghost var answered := Memory.Record(firstId + 1, userId, "assistant", response, replyTime);
    store.AppendUserMessage(userId, "assistant", response, replyTime);
    assert (before + [asked]) + [answered] == before + [asked, answered];
  }
}
