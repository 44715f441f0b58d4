# Discord assistant bot — a verified model of its core

The bot answers Discord messages. Each message is stored in a per-user
conversation log and classified by a local language model as `news`, `music`
or `qa`; the news agent searches NewsAPI and lists articles. Alongside it sit
three more agents:

- a Q&A agent that either chats (with the user's recent history in the prompt) or
  hands the message to a reminder agent;
- a reminder agent that turns the model's JSON into a half-hour Google Calendar
  event;
- a music agent that queues tracks, albums, an artist's top tracks or Last.fm
  suggestions on Spotify, behind a cached access token.

The Dafny model has one module per source file:

| module | file | form |
|---|---|---|
| `Memory` | `memory.py` | class `MemoryStore` over a sequence of rows and an id counter, with specification functions and lemmas |
| `IntentRouter` | `utils/intent_router.py` | functions and lemmas |
| `App` | `app.py` | method `OnMessage` over a `MemoryStore` |
| `NewsAgent` | `agents/news_agent.py` | functions, and the reply-building loop as a method |
| `Llm` | `local_llm_response` in `agents/qa_agent.py` and `agents/reminder_agent.py` (identical copies) | function |
| `Calendar` | the `datetime` parsing, arithmetic and formatting that `agents/reminder_agent.py` relies on | functions and lemmas |
| `ReminderAgent` | `agents/reminder_agent.py` | functions and lemmas |
| `QaAgent` | `agents/qa_agent.py` | functions and lemmas |
| `SpotifyAgent` | `agents/spotify_agent.py` | class `TokenCache` for the module-level token cache; the album loop and the counting loops as methods; the rest as functions |

Shared modules:

- `Wrappers`: `Option`, `Result` and `Fault`.
- `Text`: Python's `strip`, `lower`, `in`, slicing, `split(sep)[-1]`, `str(n)` and `repr` of a string.
- `Json`: decoded JSON values with Python's `[]`, `.get`, `in` and truth value.

Every HTTP request, the JSON decoder, the calendar insert and the clock are
inputs of the model:

- a request is its outcome, `Ok(value)` or `Raised(fault)`, or a function from
  what is asked to that outcome;
- `json.loads` is a function that may fail;
- the time is an integer parameter.

## Model

| member | source | states |
|---|---|---|
| Memory.MemoryStore.constructor | memory.py:7-20 | a fresh table is empty and the first autoincrement id is 1 |
| Memory.MemoryStore.AppendUserMessage | memory.py:23-30 | exactly one row is added at the end, carrying the next id and the given user, role, message and time; every earlier row is unchanged; ids stay increasing |
| Memory.MemoryStore.GetUserContext | memory.py:33-41 | returns the user's recent entries as specified by `RecentEntries`, at most `limit` of them, and changes nothing |
| Memory.MemoryStore.ClearUserMemory | memory.py:44-48 | the table becomes the rows of every other user, in their order; ids stay increasing |
| Memory.UserRecords | memory.py:37 | `WHERE user_id = u`: only rows of `u`, each taken from the table |
| Memory.Without | memory.py:47 | `DELETE ... WHERE user_id = u`: no row of `u` is left, and every remaining row comes from the table |
| Memory.LimitRows | memory.py:37 | SQLite `LIMIT`: a prefix of length `limit`, or every row when `limit` is negative |
| Memory.ContextSize | memory.py:37-38 | the number of rows returned is at most the user's row count and at most a non-negative `limit` |
| Memory.Entries | memory.py:41 | entry `i` holds the role and message of row `i` |
| Memory.ReverseAt | memory.py:41 | `reversed`: element `i` of the result is element `n-1-i` of the input |
| Memory.ContextIsNewestSuffix | memory.py:37-41 | newest first, cut, reversed: the context is the last `ContextSize` rows of the user, oldest first |
| Memory.ContextSizeBound | memory.py:33-38 | exactly `limit` entries when the user has that many rows, all of them otherwise or when `limit` is negative |
| Memory.ContextOnlyOwnRows | memory.py:37 | every returned row belongs to the user and comes from the table |
| Memory.ContextOfUnknownUser | memory.py:40-41 | a user without rows gets the empty list |
| Memory.NoRowsOfUser | memory.py:37 | the filter of a table without rows of `u` is empty |
| Memory.AllOfUser | memory.py:37 | the filter keeps a table holding only rows of `u` whole |
| Memory.UserRecordsConcat | memory.py:37 | filtering a concatenation gives the concatenation of the filtered parts |
| Memory.UserRecordsKeepOrder | memory.py:37 | filtering keeps the table order: any relation between earlier and later rows survives it |
| Memory.ContextOldestFirst | memory.py:37-41 | the context is in strictly increasing id order |
| Memory.ContextIsNewest | memory.py:37-41 | every row of the user that is left out is older than every row returned |
| Memory.ContextAgreesWithTimestamps | memory.py:37 | when the clock never runs backwards, the id order is one `ORDER BY timestamp DESC` may produce |
| Memory.ContextEndsWithLatest | memory.py:26-41 | after a row is appended, a context with a non-zero limit ends with that row's entry |
| Memory.FreshUserRoundTrip | memory.py:26-41 | after `k` appends for a user with no history, the context of size `k` is those `k` messages in order |
| Memory.ClearOnlyTouchesUser | memory.py:44-48 | after the purge no row of `u` remains and every other user's rows are exactly as before |
| Memory.ClearIdempotent | memory.py:47 | purging twice equals purging once |
| Memory.ContextAfterClear | memory.py:44-48 | after the purge the user's context is empty |
| Memory.WithoutIsSubsequence | memory.py:47 | the purge keeps ids increasing |
| IntentRouter.DetectIntent | utils/intent_router.py:8-31 | the intent is always one of `INTENTS`; it is the normalised answer when that is a label, and "qa" for any other answer or any failure |
| IntentRouter.ContextIgnored | utils/intent_router.py:8-13 | the context argument never changes the intent |
| IntentRouter.BlankAnswerIsQa | utils/intent_router.py:24-28 | an empty or all-whitespace answer gives "qa" |
| IntentRouter.EmptyIsNoIntent | utils/intent_router.py:6 | the empty string is no label |
| IntentRouter.IgnoresPaddingAndCase | utils/intent_router.py:24 | surrounding whitespace and letter case of the answer do not change the intent |
| IntentRouter.LabelsAreNormal | utils/intent_router.py:6 | every label is already stripped and lower-case |
| IntentRouter.DetectIntentIdempotent | utils/intent_router.py:24-26 | an intent given back as the answer is returned unchanged |
| IntentRouter.IntentCases | utils/intent_router.py:6 | the labels are exactly "music", "news" and "qa" |
| App.Respond | app.py:43-54 | news goes to the handler, whose exception becomes the generic error; the other arms never produce the generic error |
| App.OtherBranchUnreachable | app.py:50-51 | no intent `detect_intent` returns reaches the final `else` |
| App.ReplyTable | app.py:44-51 | music and qa get their fixed replies, which do not depend on the news handler |
| App.OnMessage | app.py:26-58 | a bot's message changes nothing and sends nothing; otherwise the stripped message is stored first, the context read after it is classified, the reply is sent, and exactly two rows (user, then assistant with the sent reply) are appended |
| App.Exchange | app.py:30-58 | store the message, read the context, answer, store the answer: the two new rows and the reply in terms of the old table |
| NewsAgent.ExtractSearchQuery | agents/news_agent.py:14-36 | the model's stripped answer, or "latest news" on failure |
| NewsAgent.ArticleOf | agents/news_agent.py:52-58 | an article maps to its title, url and source name and the first 10 characters of `publishedAt`, and fails exactly when a lookup fails |
| NewsAgent.ArticlesOf | agents/news_agent.py:52-60 | the list maps element by element, in order, and fails when any article does |
| NewsAgent.FetchNewsResults | agents/news_agent.py:39-64 | a failed request or a malformed payload gives the empty list; an `articles` list whose articles all have their fields gives exactly their mapping, and a non-empty result is always that mapping |
| NewsAgent.FetchKeepsArticles | agents/news_agent.py:51-60 | well-formed articles are all kept, one result per article, in order; one article missing a field empties the result |
| NewsAgent.Bullet | agents/news_agent.py:74 | each article's line ends with a newline |
| NewsAgent.FormatNewsReply | agents/news_agent.py:67-75 | the loop builds the header followed by one line per article, or the apology for no articles |
| NewsAgent.HandleNewsRequest | agents/news_agent.py:78-82 | the reply is the formatting of the articles fetched for the extracted topic |
| NewsAgent.LinesConcat | agents/news_agent.py:73-74 | appending lines for two lists is appending those of the first then those of the second |
| NewsAgent.NewsReplyShape | agents/news_agent.py:67-75 | an empty list gives the apology; otherwise header, first article's line, then the rest; the reply is never empty and ends with a newline when it lists articles |
| NewsAgent.NothingFound | agents/news_agent.py:69-70 | with no articles the reply is the apology naming the topic, "latest news" if the model failed |
| Llm.LocalLlmResponse | agents/qa_agent.py:15-27 | the stripped answer, or the fixed apology on any failure |
| Llm.TroubleReplyLetters | agents/qa_agent.py:27 | the apology holds no `{`, its lower-case form no `d`, and it is already stripped |
| Llm.NoDInTroubleReply | agents/qa_agent.py:27 | the apology holds no `{` and no `d` in any case |
| Llm.TroubleReplyStripped | agents/qa_agent.py:27 | stripping the apology changes nothing |
| Calendar.AddHalfHour | agents/reminder_agent.py:85 | the result is a valid time exactly 30 minutes later, counted in minutes since year 1; it fails exactly from 9999-12-31 23:30 on |
| Calendar.YearLength | agents/reminder_agent.py:85 | the months add up to the length of the year |
| Calendar.ScanYear | agents/reminder_agent.py:76 | `%Y` reads four digits and leaves the rest |
| Calendar.ScanMonth | agents/reminder_agent.py:76 | `%m` reads a month between 1 and 12 |
| Calendar.ScanDay | agents/reminder_agent.py:76 | `%d` reads a day between 1 and 31 |
| Calendar.ScanHour | agents/reminder_agent.py:76 | `%H` reads an hour between 0 and 23 |
| Calendar.ScanMinute | agents/reminder_agent.py:76 | `%M` reads a minute between 0 and 59 |
| Calendar.MakeDateTime | agents/reminder_agent.py:76 | the fields make a valid time, failing exactly for year 0 or a day past the end of the month |
| Calendar.ParseDateTime | agents/reminder_agent.py:76 | a successful parse is a valid time |
| Calendar.ParseDate | agents/reminder_agent.py:80 | a successful parse is a valid time at midnight |
| Calendar.Pad2 | agents/reminder_agent.py:93 | two digits whose value is the number |
| Calendar.YearRoundTrip | agents/reminder_agent.py:76-93 | a year from 1000 on prints as four digits that `%Y` reads back |
| Calendar.MonthRoundTrip | agents/reminder_agent.py:76-93 | a padded month reads back |
| Calendar.DayRoundTrip | agents/reminder_agent.py:76-93 | a padded day reads back |
| Calendar.HourRoundTrip | agents/reminder_agent.py:76-93 | a padded hour reads back |
| Calendar.MinuteRoundTrip | agents/reminder_agent.py:76-93 | a padded minute reads back |
| Calendar.DateRoundTrip | agents/reminder_agent.py:76-80 | a printed date reads back and leaves what follows |
| Calendar.TimeRoundTrip | agents/reminder_agent.py:76 | a printed " HH:MM" reads back |
| Calendar.FormatRoundTrip | agents/reminder_agent.py:76-93 | `strptime` of the `strftime` text gives the same time, from year 1000 on |
| Calendar.DateOnlyRoundTrip | agents/reminder_agent.py:76-80 | a bare date fails the full format and reads as midnight with the date format |
| ReminderAgent.ExtractJson | agents/reminder_agent.py:54-58 | the span starts at the first `{` and ends at the first `}` after it, with no other `}`; it fails exactly when no `{` is followed by a `}` |
| ReminderAgent.StartTime | agents/reminder_agent.py:75-84 | the full format wins; otherwise a bare date at 09:00; neither gives no start |
| ReminderAgent.ReminderFor | agents/reminder_agent.py:75-96 | an event is created exactly as parsed, 30 minutes long, accepted by the calendar, with the confirmation; conversely a readable start with an end is created whenever the calendar accepts it, and gives the generic apology when the calendar refuses or the end overflows; an unreadable start gives exactly the "understand" reply |
| ReminderAgent.ReminderFromObject | agents/reminder_agent.py:72-96 | a missing summary or start gives the generic apology; the "understand" reply happens exactly for a string start that cannot be read |
| ReminderAgent.CreateReminder | agents/reminder_agent.py:60-96 | every created event is valid, lasts 30 minutes and is confirmed; no JSON span gives the generic apology; every other outcome is one of the two apologies |
| ReminderAgent.RepliesDistinct | agents/reminder_agent.py:84-96 | the confirmation and the two apologies are pairwise different |
| ReminderAgent.NoBraceNoSpan | agents/reminder_agent.py:55-58 | text without `{` holds no span |
| ReminderAgent.ModelDown | agents/reminder_agent.py:71-96 | when the model fails, the reminder is refused with the generic apology |
| ReminderAgent.StartAsGiven | agents/reminder_agent.py:76 | a start written "YYYY-MM-DD HH:MM" is used as given |
| ReminderAgent.DateOnlyStartsAtNine | agents/reminder_agent.py:78-81 | a bare date starts at 09:00 that day |
| ReminderAgent.DateOnlyReminder | agents/reminder_agent.py:78-93 | a bare date the calendar accepts becomes a 30-minute event from 09:00 that day |
| ReminderAgent.ReminderAsAsked | agents/reminder_agent.py:72-93 | a well-formed answer accepted by the calendar becomes that event, and the reply echoes the summary and the start |
| QaAgent.ClassifyIntent | agents/qa_agent.py:29-36 | the answer stripped and lower-cased; the lower-cased apology on failure |
| QaAgent.IntentIsNormal | agents/qa_agent.py:35-36 | the label is already stripped and lower-case |
| QaAgent.ChatPrompt | agents/qa_agent.py:44-48 | the prompt starts with the preamble and ends with "\nUser: {input}\nAssistant:" |
| QaAgent.HandleQaAgent | agents/qa_agent.py:38-49 | a label containing "reminder" returns the reminder agent's answer unchanged; anything else is the model's answer to the prompt over the user's last five entries |
| QaAgent.ApologyNamesNoReminder | agents/qa_agent.py:27 | the lower-cased apology does not contain "reminder" |
| QaAgent.FailedClassificationChats | agents/qa_agent.py:25-40 | a failed classification routes to chat |
| QaAgent.ReminderInAnyCase | agents/qa_agent.py:36-42 | "reminder" in any case, with any whitespace around it, routes to the reminder agent |
| QaAgent.EntryInList | agents/qa_agent.py:46 | every entry's text occurs in the printed list |
| QaAgent.EntryHoldsFields | agents/qa_agent.py:46 | a printed entry holds the `repr` of its role and of its message |
| QaAgent.PromptHoldsList | agents/qa_agent.py:44-48 | the prompt holds the printed context |
| QaAgent.PromptHoldsContext | agents/qa_agent.py:43-48 | the prompt holds the `repr` of the role and of the message of every context entry |
| QaAgent.PromptHoldsPlainMessage | agents/qa_agent.py:43-48 | a message `repr` does not escape (no single quote, backslash or control character) occurs verbatim in the prompt |
| QaAgent.PaddedWordClassified | agents/qa_agent.py:35-36 | an already stripped answer with whitespace around it is labelled by its lower case |
| QaAgent.OtherUsersIgnored | agents/qa_agent.py:43 | other users' rows never change the answer |
| SpotifyAgent.AccessToken | agents/spotify_agent.py:26-48 | whatever token is returned is the one left in the cache |
| SpotifyAgent.TokenCache.constructor | agents/spotify_agent.py:23-24 | no token, expiry 0 |
| SpotifyAgent.TokenCache.GetAccessToken | agents/spotify_agent.py:26-48 | the returned token and the new cache are those of `AccessToken` on the old cache |
| SpotifyAgent.CachedExactlyWhenFresh | agents/spotify_agent.py:30-31 | the cached token is returned, without a refresh, exactly when it is non-empty and unexpired; otherwise the refreshed token, whatever it is, or nothing when the refresh fails |
| SpotifyAgent.RefreshSetsExpiry | agents/spotify_agent.py:42-48 | a refresh stores the token with expiry `now + expires_in - 60` (3540 s when missing); a failed one returns nothing and keeps the cache |
| SpotifyAgent.RefreshedTokenReused | agents/spotify_agent.py:30-44 | a refreshed token is reused by every call before `now + expires_in - 60`, and by none after |
| SpotifyAgent.GreedySpan | agents/spotify_agent.py:72 | the span runs from the first `{` to the last `}`; it fails exactly when no `{` is followed by a `}` |
| SpotifyAgent.GreedySpanOf | agents/spotify_agent.py:72 | a braced span with no `{` before it and no `}` after it is found whole, inner braces included |
| SpotifyAgent.ClassifiedBySpan | agents/spotify_agent.py:69-75 | the classification is the decoding of the greedy span, or the fallback without one |
| SpotifyAgent.AnswerDecoded | agents/spotify_agent.py:69-74 | an answer that is one braced span with whitespace around it is decoded whole |
| SpotifyAgent.ClassifyMusicRequest | agents/spotify_agent.py:50-78 | a failed request gives the track fallback |
| SpotifyAgent.NoBracesFallback | agents/spotify_agent.py:70-75 | an answer without `{` gives the track fallback |
| SpotifyAgent.LastFmQuery | agents/spotify_agent.py:88-95 | artist, tag/mood/genre, album and everything else select the four Last.fm methods; track search uses limit 1; a missing type or value fails |
| SpotifyAgent.TrackOf | agents/spotify_agent.py:109 | a result keeps the match's name and artist and fails exactly when one is missing |
| SpotifyAgent.TracksOf | agents/spotify_agent.py:109 | the list maps element by element, in order, and fails when any element does |
| SpotifyAgent.LastFmTracks | agents/spotify_agent.py:80-112 | at most `limit` results; none when the intent lacks a type or value, when the request fails, or when no match list is found or one match lacks a field; otherwise the first `limit` matches mapped to name and artist |
| SpotifyAgent.LastFmCount | agents/spotify_agent.py:109-110 | when every match can be read, exactly `min(limit, number of matches)` results |
| SpotifyAgent.SearchLastFmTracks | agents/spotify_agent.py:80-112 | the album loop and the comprehensions give `LastFmTracks` |
| SpotifyAgent.LastFmKeepsMatches | agents/spotify_agent.py:101-109 | each result is the match at its position |
| SpotifyAgent.FindSpotifyUri | agents/spotify_agent.py:114-143 | nothing for a failed request or an unknown type; a hit is the first item's link and URI in a non-empty list |
| SpotifyAgent.FirstHitFound | agents/spotify_agent.py:127-138 | a first item with both fields is returned |
| SpotifyAgent.QueueSpotifyTrack | agents/spotify_agent.py:169-186 | queued exactly when the request succeeded with a status other than 401, 403, 404 and 429 |
| SpotifyAgent.QueueStatusTable | agents/spotify_agent.py:176-186 | 204 and any unlisted status queue; 401, 403, 404, 429 and a failure do not |
| SpotifyAgent.TrackList | agents/spotify_agent.py:145-167 | the value under the key of a successful dictionary answer; the empty list for a failed request, a missing key or an answer that is not a dictionary |
| SpotifyAgent.CollectionTracksFromAnswer | agents/spotify_agent.py:145-167 | an album's tracks are the `items` of its answer and an artist's the `tracks`, and a failed request gives none |
| SpotifyAgent.QueuedCount | agents/spotify_agent.py:211-214 | the count is at most the number of tracks, and fails exactly when a track has no `uri` |
| SpotifyAgent.CountQueued | agents/spotify_agent.py:211-214 | the counting loop computes `QueuedCount` |
| SpotifyAgent.QueuedCountRaises | agents/spotify_agent.py:212-213 | the first track without `uri` decides the outcome |
| SpotifyAgent.NothingQueued | agents/spotify_agent.py:211-219 | the count is zero exactly when every queue request is refused |
| SpotifyAgent.SuggestionsQueued | agents/spotify_agent.py:266-270 | at most the number of suggestions; zero exactly when none is found and queued |
| SpotifyAgent.CountSuggestionsQueued | agents/spotify_agent.py:266-270 | the counting loop computes `SuggestionsQueued` |
| SpotifyAgent.SuggestionsQueuedStep | agents/spotify_agent.py:267-270 | one more suggestion adds one exactly when it is queued |
| SpotifyAgent.CollectionReply | agents/spotify_agent.py:197-243 | no hit gives "Could not find"; a hit that is not a string raises AttributeError; no tracks give "No tracks found"; tracks that are not a list raise TypeError; a track without `uri` raises; the success reply implies a string URI, a track list and a positive count |
| SpotifyAgent.CountDecidesCollection | agents/spotify_agent.py:211-219 | once the tracks are listed, a positive count gives the success reply and zero the "make sure Spotify is open" reply |
| SpotifyAgent.RepliesDiffer | agents/spotify_agent.py:203-219 | the success and failure replies of a branch differ |
| SpotifyAgent.HandleCollection | agents/spotify_agent.py:197-243 | the album or artist branch with its loop gives `CollectionReply` |
| SpotifyAgent.TrackReply | agents/spotify_agent.py:246-256 | the track branch never raises; no hit gives "Could not find track", a refused queue request the "make sure Spotify is open" reply |
| SpotifyAgent.NowPlayingWhenQueued | agents/spotify_agent.py:250-256 | a found track is reported playing exactly when the queue accepts it |
| SpotifyAgent.MoodReply | agents/spotify_agent.py:258-275 | the mood branch never raises |
| SpotifyAgent.MoodFailures | agents/spotify_agent.py:261-275 | no suggestions exactly when Last.fm gives none; the "make sure" reply exactly when none is queued |
| SpotifyAgent.MoodCountBounded | agents/spotify_agent.py:266-273 | the count in the success reply is the number queued, between 1 and 50 |
| SpotifyAgent.AddedTracksInjective | agents/spotify_agent.py:273 | different counts give different replies |
| SpotifyAgent.HandleMood | agents/spotify_agent.py:258-275 | the mood branch with its loops gives `MoodReply` |
| SpotifyAgent.MusicReply | agents/spotify_agent.py:193-275 | without a token, the auth-failed reply before any branch; a missing `type` or `value` raises out of `handle_music` |
| SpotifyAgent.MusicDispatch | agents/spotify_agent.py:198-275 | with a readable type and value, `album` and `artist` take the collection branch, `track` the track branch, and every other type the Last.fm branch |
| SpotifyAgent.HandleMusic | agents/spotify_agent.py:188-275 | the cache is updated as `AccessToken` says, and the reply is `MusicReply` for the classified intent |
| SpotifyAgent.ModelDownPlaysTrack | agents/spotify_agent.py:76-78 | when the model fails, the request is searched as a track under its own words |
| SpotifyAgent.IdFromUri | agents/spotify_agent.py:205 | the id passed on is the last `:`-separated field of the URI |
| Text.Strip | utils/intent_router.py:24 | `strip()` returns no longer a string, starting and ending with non-whitespace |
| Text.StripIsPadded | utils/intent_router.py:24 | what `strip()` removes is whitespace, from the two ends only |
| Text.TrimStartDropsSpace | utils/intent_router.py:24 | `lstrip()` removes whitespace only |
| Text.TrimEndDropsSpace | utils/intent_router.py:24 | `rstrip()` removes whitespace only |
| Text.StripKeepsOut | agents/spotify_agent.py:69-70 | stripping adds no character |
| Text.Lower | utils/intent_router.py:24 | `lower()` maps each character, keeping the length |
| Text.StripPadded | utils/intent_router.py:24 | whitespace around a string does not change its stripped form |
| Text.StripLower | utils/intent_router.py:24 | stripping and lower-casing commute |
| Text.PrefixTo | agents/news_agent.py:57 | `s[:n]` for any `n`, negative included |
| Text.AfterLast | agents/spotify_agent.py:205 | `split(sep)[-1]`: a suffix with no separator, preceded by one unless it is everything |
| Text.AfterLastField | agents/spotify_agent.py:205 | the last field of `a:b` is `b` |
| Text.NatToString | app.py:31 | `str(n)`: digits without a leading zero |
| Text.NatToStringInjective | agents/spotify_agent.py:273 | different numbers print differently |
| Text.Find | agents/reminder_agent.py:55 | the first occurrence of a character at or after a position |
| Text.FindLast | agents/spotify_agent.py:72 | the last occurrence of a character |
| Text.HexDigit | agents/qa_agent.py:46 | a digit of a `\xhh` escape reads back as its value |
| Text.EscapeChar | agents/qa_agent.py:46 | `repr` writes a character otherwise than as itself exactly when it is the quote, a backslash, tab, newline, carriage return or a non-printable character up to U+00FF |
| Text.QuoteFor | agents/qa_agent.py:46 | `repr` quotes with `'` or `"` |
| Text.Repr | agents/qa_agent.py:46 | `repr` of a string starts and ends with the quote it picks |
| Text.UnescapeChar | agents/qa_agent.py:46 | each escape reads back as its character |
| Text.UnescapeEscape | agents/qa_agent.py:46 | the escaped text reads back as the original |
| Text.ReprRoundTrip | agents/qa_agent.py:46 | the text between the quotes of `repr(s)` reads back as `s`: the prompt loses no message |
| Text.EscapePlain | agents/qa_agent.py:46 | characters `repr` does not escape are written as they are |
| Text.ReprPlain | agents/qa_agent.py:46 | a string without single quotes, backslashes and control characters is printed between single quotes as it is |
| Text.ReprOfNewline | agents/qa_agent.py:46 | a newline is printed as a backslash and `n` |
| Text.ReprOfApostrophe | agents/qa_agent.py:46 | a string holding only single quotes is printed between double quotes |
| Json.Get | agents/news_agent.py:54 | `v[key]` succeeds exactly for a dictionary holding the key |
| Json.GetPath | agents/news_agent.py:56 | `v[k1][k2]` succeeds only through `v[k1]` |
| Json.GetOr | agents/spotify_agent.py:128 | `.get(key, default)` works exactly on dictionaries |
| Json.Has | agents/spotify_agent.py:101-105 | `key in v` raises exactly for numbers, booleans and null, and tests the keys of a dictionary |
| Json.Subscript | agents/spotify_agent.py:198 | `v[key]` raises KeyError for a dictionary without the key and TypeError for anything else |

## Left out

- HTTP requests, the Discord event loop and `channel.send`, SQLite connections
  and durability, Google OAuth and the token file, and the calendar insert are
  not modelled. Each is an input: an outcome, a function to one, or the
  `calendar` predicate saying whether the insert succeeds.
- The wording of the prompts sent to the models is not modelled. Only the chat
  prompt of the Q&A agent is, because the stored context flows into it.
- `logging` and `print` are side effects and are not modelled. The argument
  evaluation of the log lines in `handle_music` is modelled, because
  `intent['value']` can raise there.
- The wall clock is a parameter in whole seconds. `time.time()` is read twice
  in a refresh, but the model uses one `now`. Floating-point lifetimes are
  integers; an `expires_in` that is not a number is `NotANumber`.
- A token response that is not a dictionary counts as a failed refresh.
- `SpotifyAgent.TokenResponse`: the access token is a string or missing. In
  the source it is whatever JSON value the answer holds under
  `access_token`, so a truthy value that is not a string would also count as
  a token; the model does not cover that case.
- `app.py` imports `handle_news`, but the news agent defines
  `handle_news_request`, so the import fails at start-up. `App.OnMessage`
  therefore takes the news handler as an input. `NewsAgent.HandleNewsRequest`
  models the agent's own entry point.
- Memory: rows are ordered by id, that is by insertion. The source orders by a
  timestamp with one-second resolution, so rows written in the same second may
  come back in another order. `Memory.ContextAgreesWithTimestamps` shows that
  id order is one admissible order when the clock never runs backwards. That
  the database picks this order is an assumption, not a guarantee.
- `lower()` is modelled for ASCII letters only. Other cased characters are left
  as they are.
- `strptime` is not modelled for non-ASCII digits. `strftime('%Y')` is modelled
  unpadded, as on Linux, so the round-trip lemmas start at year 1000.
- The event's ISO strings and its time zone are not modelled. The event
  carries the start and end times.
- `Text.Repr`: Python's `repr` is modelled exactly up to U+00FF: quotes and
  backslashes, tab, newline and carriage return, the other C0 controls, DEL,
  the C1 controls, the no-break space and the soft hyphen. Characters above
  U+00FF are written as they are. Python also escapes the non-printable ones
  among them, such as U+2028 or U+200B, as `\uhhhh` or `\Uhhhhhhhh`.
- `Json.Show`: the text Python prints for a dictionary, list, number or null is
  carried with the value as data, not computed.
- `NewsAgent.ArticleOf`: a `publishedAt` that is a list, rather than a string,
  is treated as a failure. Python would slice the list.
- `SpotifyAgent.Items`: iterating a value that is not a list leads to an empty
  result in every case (a `TypeError` that is caught, or nothing to iterate),
  so it is modelled as iterating nothing.
- `SpotifyAgent.MusicReply`: only the token lookup of `handle_music` itself is
  modelled. `find_spotify_uri`, `get_album_tracks`, `get_artist_top_tracks` and
  `queue_spotify_track` each fetch the token again for their headers. Those
  lookups may refresh the cache again, and their token value is not modelled;
  each request is an input given what it asks for.
- `SpotifyAgent.CollectionReply`: when a track has no `uri`, the tracks queued
  before it stay queued. The model returns only the exception that escapes.
- `SpotifyAgent.ClassifyMusicRequest`: its own contract states only the failed
  request. What a successful answer gives is stated by
  `SpotifyAgent.ClassifiedBySpan`, `SpotifyAgent.AnswerDecoded` and
  `SpotifyAgent.NoBracesFallback`.
- `IntentRouter.DetectIntent`: a `"response"` field that is not a string makes
  `.strip()` raise, which is caught. The model folds this into `Raised`.
