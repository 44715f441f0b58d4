/** agents/reminder_agent.py: the local model turns a request into a JSON
    object with a summary and a start time, and a half-hour event is put into
    Google Calendar. The model's reply, the JSON decoder and the calendar
    (authentication and insert) are inputs. */
module ReminderAgent {
  import opened Wrappers
  import opened Text
  import Json
  import Llm
  import opened Calendar

  /** `span` occurs in `text` at `i`, and no `{` comes before it. */
  predicate FirstSpanAt(text: string, span: string, i: int) {
    0 <= i && i + |span| <= |text| && text[i..i + |span|] == span &&
    forall k :: 0 <= k < i ==> text[k] != '{'
  }

  /** `extract_json(text)`, the match of `\{.*?\}` (dot matching newlines);
      `None` where it raises ValueError. The leftmost match starts at the first
      `{` (a `}` after any later `{` also follows the first one) and the lazy
      `.*?` stops at the first `}` after it. */
  function ExtractJson(text: string): (r: Option<string>)
    ensures r.Some? ==>
              |r.value| >= 2 && r.value[0] == '{' && r.value[|r.value| - 1] == '}' &&
              (forall k :: 0 <= k < |r.value| - 1 ==> r.value[k] != '}') &&
              exists i :: FirstSpanAt(text, r.value, i)
    ensures r.None? <==> !exists i, j :: 0 <= i < j < |text| && text[i] == '{' && text[j] == '}'
  {
    match Find(text, '{', 0)
    case None => None
    case Some(i) =>
      match Find(text, '}', i + 1)
      case None => None
      case Some(j) =>
        assert FirstSpanAt(text, text[i..j + 1], i);
        Some(text[i..j + 1])
  }

  /** The reply when the start time cannot be read. */
  const CannotUnderstand: string :=
    "\U{26A0}\U{FE0F} Could not " + "understand the " + "reminder time. " + "Please specify a time."

  /** The reply for every other failure. */
  const CannotCreate: string :=
    "\U{26A0}\U{FE0F} Could not " + "create the reminder. " + "Try a simpler " + "description."

  /** The body of the calendar event; its time zone is always Asia/Kolkata. */
  datatype Event = Event(summary: Json.Value, start: DateTime, end: DateTime)

  /** What `create_reminder` does: the reply it returns, and the event it
      inserted into the calendar, if it got that far. */
  datatype Outcome = Outcome(reply: string, created: Option<Event>)

  /** The confirmation for an event. */
  function SetReply(summary: Json.Value, start: DateTime): string
    requires Valid(start)
  {
    "\U{2705} Reminder '" + Json.Show(summary) + "' set for " + Format(start) + "."
  }

  /** The start of the event for the `"start"` text: read as "%Y-%m-%d %H:%M",
      else as "%Y-%m-%d" at 09:00; `None` when it is neither. */
  function StartTime(s: string): (r: Option<DateTime>)
    ensures r.Some? ==> Valid(r.value)
    ensures ParseDateTime(s).Some? ==> r == ParseDateTime(s)
    ensures ParseDateTime(s).None? && ParseDate(s).Some? ==>
              r == Some(ParseDate(s).value.(hour := 9, minute := 0))
    ensures r.None? <==> ParseDateTime(s).None? && ParseDate(s).None?
  {
    match ParseDateTime(s)
    case Some(t) => Some(t)
    case None =>
      match ParseDate(s)
      case Some(d) => Some(d.(hour := 9, minute := 0))
      case None => None
  }

  /** The part of `create_reminder` after the summary and the start text have
      been read: parse the start, add thirty minutes, insert the event. */
  function ReminderFor(summary: Json.Value, text: string, calendar: Event -> bool): (out: Outcome)
    ensures out.created.Some? ==>
              var e := out.created.value;
              e.summary == summary && StartTime(text) == Some(e.start) &&
              Valid(e.end) && Minutes(e.end) == Minutes(e.start) + 30 &&
              calendar(e) && out.reply == SetReply(summary, e.start)
    ensures out.created.None? ==> out.reply == CannotCreate || out.reply == CannotUnderstand
    ensures out.reply == CannotUnderstand <==> StartTime(text).None?
    ensures StartTime(text).Some? && AddHalfHour(StartTime(text).value).Some? ==>
              var e := Event(summary, StartTime(text).value, AddHalfHour(StartTime(text).value).value);
              if calendar(e) then out.created == Some(e) else out == Outcome(CannotCreate, None)
    ensures StartTime(text).Some? && AddHalfHour(StartTime(text).value).None? ==> out == Outcome(CannotCreate, None)
  {
    match StartTime(text)
    case None => Outcome(CannotUnderstand, None)
    case Some(start) =>
      RepliesDistinct(summary, start);
      match AddHalfHour(start)
      case None => Outcome(CannotCreate, None)
      case Some(end) =>
        var e := Event(summary, start, end);
        if calendar(e) then Outcome(SetReply(summary, start), Some(e)) else Outcome(CannotCreate, None)
  }

  /** The start of a decoded object is present, a string, and unreadable. */
  predicate UnreadableStart(parsed: Json.Value) {
    Json.Get(parsed, "summary").Some? &&
    Json.Get(parsed, "start").Some? && Json.Get(parsed, "start").value.Str? &&
    StartTime(Json.Get(parsed, "start").value.s).None?
  }

  /** The part of `create_reminder` after decoding: a missing key (KeyError)
      or a start that is not a string (TypeError from `strptime`, which the
      inner handler does not catch) ends in the generic apology. */
  function ReminderFromObject(parsed: Json.Value, calendar: Event -> bool): (out: Outcome)
    ensures out.created.Some? ==>
              var e := out.created.value;
              Json.Get(parsed, "summary") == Some(e.summary) &&
              Valid(e.start) && Valid(e.end) && Minutes(e.end) == Minutes(e.start) + 30 &&
              calendar(e) && out.reply == SetReply(e.summary, e.start)
    ensures out.created.None? ==> out.reply == CannotCreate || out.reply == CannotUnderstand
    ensures out.reply == CannotUnderstand <==> UnreadableStart(parsed)
    ensures Json.Get(parsed, "summary").None? || Json.Get(parsed, "start").None? ==> out == Outcome(CannotCreate, None)
  {
    RepliesDistinct(Json.Other(""), DateTime(1, 1, 1, 0, 0));
    match (Json.Get(parsed, "summary"), Json.Get(parsed, "start"))
    case (Some(summary), Some(Str(text))) => ReminderFor(summary, text, calendar)
    case _ => Outcome(CannotCreate, None)
  }

  /** `create_reminder(event_text)`. `llm` is the outcome of the request to the
      model (see `Llm.LocalLlmResponse`); `decode` is `json.loads`, `None` where
      it raises; `calendar(e)` says whether authenticating and inserting `e`
      succeed. Every exception ends in one of the two fixed apologies. */
  function CreateReminder(llm: Result<string>, decode: string -> Option<Json.Value>, calendar: Event -> bool): (out: Outcome)
    ensures out.created.Some? ==>
              var e := out.created.value;
              Valid(e.start) && Valid(e.end) && Minutes(e.end) == Minutes(e.start) + 30 &&
              calendar(e) && out.reply == SetReply(e.summary, e.start)
    ensures out.created.None? ==> out.reply == CannotCreate || out.reply == CannotUnderstand
    ensures ExtractJson(Llm.LocalLlmResponse(llm)).None? ==> out == Outcome(CannotCreate, None)
    ensures out.reply == CannotUnderstand <==>
              ExtractJson(Llm.LocalLlmResponse(llm)).Some? &&
              decode(ExtractJson(Llm.LocalLlmResponse(llm)).value).Some? &&
              UnreadableStart(decode(ExtractJson(Llm.LocalLlmResponse(llm)).value).value)
  {
    RepliesDistinct(Json.Other(""), DateTime(1, 1, 1, 0, 0));
    match ExtractJson(Llm.LocalLlmResponse(llm))
    case None => Outcome(CannotCreate, None)
    case Some(span) =>
      match decode(span)
      case None => Outcome(CannotCreate, None)
      case Some(parsed) => ReminderFromObject(parsed, calendar)
  }

  /** The three replies are told apart by their first characters. */
  lemma RepliesDistinct(summary: Json.Value, start: DateTime)
    requires Valid(start)
    ensures CannotCreate != CannotUnderstand
    ensures SetReply(summary, start) != CannotCreate && SetReply(summary, start) != CannotUnderstand
  {
    assert CannotCreate[13] == 'c' && CannotUnderstand[13] == 'u';
    assert SetReply(summary, start)[0] == '\U{2705}';
    assert CannotCreate[0] == '\U{26A0}' && CannotUnderstand[0] == '\U{26A0}';
  }

  /** Text without `{` holds no JSON span. */
  lemma NoBraceNoSpan(text: string)
    requires '{' !in text
    ensures ExtractJson(text) == None
  {
  }

  /** When the model cannot be reached, its apology holds no JSON, and the
      reminder is refused with the generic reply. */
  lemma ModelDown(fault: Fault, decode: string -> Option<Json.Value>, calendar: Event -> bool)
    ensures CreateReminder(Raised(fault), decode, calendar) == Outcome(CannotCreate, None)
  {
    var response := Llm.LocalLlmResponse(Raised(fault));
    assert response == Llm.TroubleReply;
    Llm.TroubleReplyLetters();
    NoBraceNoSpan(response);
  }

  /** A start written "YYYY-MM-DD HH:MM" is used as given (from year 1000 on,
      where `%Y` prints four digits). */
  lemma StartAsGiven(t: DateTime)
    requires Valid(t) && t.year >= 1000
    ensures StartTime(Format(t)) == Some(t)
  {
    FormatRoundTrip(t);
  }

  /** A bare date "YYYY-MM-DD" starts at 09:00 that day. */
  lemma DateOnlyStartsAtNine(t: DateTime)
    requires Valid(t) && t.year >= 1000
    ensures StartTime(NatToString(t.year) + "-" + Pad2(t.month) + "-" + Pad2(t.day)) == Some(t.(hour := 9, minute := 0))
  {
    DateOnlyRoundTrip(t);
  }

  /** A decoded object with a summary and a start "YYYY-MM-DD HH:MM" that the
      calendar accepts becomes an event at that time lasting thirty minutes, and
      the reply echoes the summary and the start as it was given. */
  lemma ReminderAsAsked(llm: Result<string>, decode: string -> Option<Json.Value>, calendar: Event -> bool,
                        span: string, parsed: Json.Value, summary: Json.Value, t: DateTime)
    requires Valid(t) && t.year >= 1000
    requires ExtractJson(Llm.LocalLlmResponse(llm)) == Some(span) && decode(span) == Some(parsed)
    requires Json.Get(parsed, "summary") == Some(summary) && Json.Get(parsed, "start") == Some(Json.Str(Format(t)))
    requires AddHalfHour(t).Some? && calendar(Event(summary, t, AddHalfHour(t).value))
    ensures var out := CreateReminder(llm, decode, calendar);
            out.created == Some(Event(summary, t, AddHalfHour(t).value)) &&
            Minutes(out.created.value.end) == Minutes(t) + 30 &&
            out.reply == "\U{2705} Reminder '" + Json.Show(summary) + "' set for " + Format(t) + "."
  {
    StartAsGiven(t);
    var out := ReminderFor(summary, Format(t), calendar);
    assert out.created == Some(Event(summary, t, AddHalfHour(t).value));
    assert ReminderFromObject(parsed, calendar) == out;
  }

  /** A decoded object whose start is a bare date the calendar accepts at
      09:00 becomes a half-hour event from 09:00 that day. */
  lemma DateOnlyReminder(summary: Json.Value, t: DateTime, calendar: Event -> bool)
    requires Valid(t) && t.year >= 1000
    requires var nine := t.(hour := 9, minute := 0);
             calendar(Event(summary, nine, AddHalfHour(nine).value))
    ensures var nine := t.(hour := 9, minute := 0);
            var out := ReminderFor(summary, NatToString(t.year) + "-" + Pad2(t.month) + "-" + Pad2(t.day), calendar);
            out.created == Some(Event(summary, nine, AddHalfHour(nine).value)) &&
            Minutes(out.created.value.end) == Minutes(nine) + 30
  {
    DateOnlyStartsAtNine(t);
  }
}
