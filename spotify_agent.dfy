/** agents/spotify_agent.py: the local model classifies a music request, and
    tracks, albums, top tracks or Last.fm suggestions are put into the Spotify
    play queue. Every HTTP request is an input: the outcome of the request, or
    a function from what is asked to that outcome. */
module SpotifyAgent {
  import opened Wrappers
  import opened Text
  import Json

  /* ---------------- The access-token cache ---------------- */

  /** What `expires_in` holds in a token response: missing, a number of
      seconds, or something `time.time() + x` rejects. */
  datatype Lifetime = Absent | Seconds(n: int) | NotANumber

  /** The decoded body of a successful refresh: `access_token` (missing gives
      `None`) and `expires_in`. */
  datatype TokenResponse = TokenResponse(accessToken: Option<string>, expiresIn: Lifetime)

  /** The lifetime assumed when `expires_in` is missing. */
  const DefaultLifetime: int := 3600

  /** Seconds taken off every lifetime. */
  const ExpiryMargin: int := 60

  /** The module-level `_spotify_token` and `_spotify_token_expiry`. */
  datatype CacheState = CacheState(token: Option<string>, expiry: int)

  /** A token that counts as true in Python: present and not empty. */
  predicate Usable(token: Option<string>) {
    token.Some? && token.value != []
  }

  /** The cached token may be handed out at time `now` without a refresh. */
  predicate Fresh(c: CacheState, now: int) {
    Usable(c.token) && now < c.expiry
  }

  /** One call of `get_spotify_access_token`: what it returns, and the cache after it. */
  datatype TokenStep = TokenStep(result: Option<string>, after: CacheState)

  /** `get_spotify_access_token()` at time `now` (whole seconds), given the
      outcome of the refresh request should it be made. The token is stored
      before the expiry is computed, so a bad `expires_in` leaves the new token
      with the old expiry and the call returns `None`. */
  function AccessToken(c: CacheState, now: int, refresh: Result<TokenResponse>): (step: TokenStep)
    ensures step.result.Some? ==> step.result == step.after.token
  {
    if Fresh(c, now) then TokenStep(c.token, c)
    else
      match refresh
      case Raised(_) => TokenStep(None, c)
      case Ok(resp) =>
        match resp.expiresIn
        case Absent => TokenStep(resp.accessToken, CacheState(resp.accessToken, now + DefaultLifetime - ExpiryMargin))
        case Seconds(n) => TokenStep(resp.accessToken, CacheState(resp.accessToken, now + n - ExpiryMargin))
        case NotANumber => TokenStep(None, CacheState(resp.accessToken, c.expiry))
  }

  /** The cache, updated in place by `get_spotify_access_token`. */
  class TokenCache {
    var token: Option<string>
    var expiry: int

    function State(): CacheState
      reads this
    {
      CacheState(token, expiry)
    }

    /** The values at import time: no token, expiry 0. */
    constructor ()
      ensures State() == CacheState(None, 0)
    {
      token := None;
      expiry := 0;
    }

    method GetAccessToken(now: int, refresh: Result<TokenResponse>) returns (t: Option<string>)
      modifies this
      ensures TokenStep(t, State()) == AccessToken(old(State()), now, refresh)
    {
      if token.Some? && token.value != [] && now < expiry {
        return token;
      }
      if refresh.Raised? {
        return None;
      }
      var resp := refresh.value;
      token := resp.accessToken;
      match resp.expiresIn
      case Absent =>
        expiry := now + DefaultLifetime - ExpiryMargin;
        t := token;
      case Seconds(n) =>
        expiry := now + n - ExpiryMargin;
        t := token;
      case NotANumber =>
        t := None;
    }
  }

  /** The cached token is handed out, and the cache kept, exactly when it is
      usable and unexpired; otherwise the outcome depends on the refresh. */
  lemma CachedExactlyWhenFresh(c: CacheState, now: int, refresh: Result<TokenResponse>, fault: Fault, t: Option<string>)
    ensures Fresh(c, now) ==> AccessToken(c, now, refresh) == TokenStep(c.token, c)
    ensures !Fresh(c, now) ==>
              AccessToken(c, now, Raised(fault)).result == None &&
              AccessToken(c, now, Ok(TokenResponse(t, Absent))).result == t
  {
  }

  /** A successful refresh stores the new token with expiry
      `now + expires_in - 60`, `expires_in` being 3600 when missing; a failed
      one returns `None` and leaves the cache as it was. */
  lemma RefreshSetsExpiry(c: CacheState, now: int, t: Option<string>, n: int, fault: Fault)
    requires !Fresh(c, now)
    ensures AccessToken(c, now, Ok(TokenResponse(t, Seconds(n)))) == TokenStep(t, CacheState(t, now + n - 60))
    ensures AccessToken(c, now, Ok(TokenResponse(t, Absent))) == TokenStep(t, CacheState(t, now + 3540))
    ensures AccessToken(c, now, Raised(fault)) == TokenStep(None, c)
  {
  }

  /** A token refreshed at `now` with a lifetime of `n` seconds is reused,
      without asking Spotify, by every call before `now + n - 60`, and no
      later. */
  lemma RefreshedTokenReused(c: CacheState, now: int, t: string, n: int, later: int, again: Result<TokenResponse>)
    requires !Fresh(c, now) && t != []
    ensures var c1 := AccessToken(c, now, Ok(TokenResponse(Some(t), Seconds(n)))).after;
            (later < now + n - ExpiryMargin ==> AccessToken(c1, later, again) == TokenStep(Some(t), c1)) &&
            (later >= now + n - ExpiryMargin ==> !Fresh(c1, later))
  {
  }

  /* ---------------- Classifying the request ---------------- */

  /** `{"type": "track", "value": prompt}`, the classification used whenever
      the model's answer cannot be used. */
  function FallbackIntent(prompt: string): Json.Value {
    Json.Object(map["type" := Json.Str("track"), "value" := Json.Str(prompt)],
                "{'type': 'track', 'value': " + Repr(prompt) + "}")
  }

  /** `span` occurs in `text` at `i`, no `{` comes before it and no `}` after it. */
  predicate GreedySpanAt(text: string, span: string, i: int) {
    0 <= i && i + |span| <= |text| && text[i..i + |span|] == span &&
    (forall k :: 0 <= k < i ==> text[k] != '{') &&
    (forall k :: i + |span| <= k < |text| ==> text[k] != '}')
  }

  /** The match of `\{.*\}` (dot matching newlines): from the first `{` to the
      last `}`, when a `}` follows that `{`. */
  function GreedySpan(text: string): (r: Option<string>)
    ensures r.Some? ==>
              |r.value| >= 2 && r.value[0] == '{' && r.value[|r.value| - 1] == '}' &&
              exists i :: GreedySpanAt(text, r.value, i)
    ensures r.None? <==> !exists i, j :: 0 <= i < j < |text| && text[i] == '{' && text[j] == '}'
  {
    match (Find(text, '{', 0), FindLast(text, '}'))
    case (Some(i), Some(j)) =>
      if i < j then
        assert text[i..j + 1][0] == '{' && text[i..j + 1][j - i] == '}';
        assert GreedySpanAt(text, text[i..j + 1], i);
        Some(text[i..j + 1])
      else None
    case _ => None
  }

  /** Text around a braced span that has no `{` before it and no `}` after it
      yields exactly that span, whatever braces it holds inside. */
  lemma GreedySpanOf(pre: string, obj: string, post: string)
    requires |obj| >= 2 && obj[0] == '{' && obj[|obj| - 1] == '}'
    requires '{' !in pre && '}' !in post
    ensures GreedySpan(pre + obj + post) == Some(obj)
  {
    var text := pre + obj + post;
    assert text[|pre|] == '{';
    assert text[|pre| + |obj| - 1] == '}';
    var i := Find(text, '{', 0);
    var j := FindLast(text, '}');
    assert i == Some(|pre|);
    assert j == Some(|pre| + |obj| - 1);
    assert text[|pre|..|pre| + |obj|] == obj;
  }

  /** An answer that is one braced span with whitespace around it is decoded
      as a whole. */
  lemma AnswerDecoded(pre: string, obj: string, post: string, prompt: string, decode: string -> Option<Json.Value>)
    requires AllSpace(pre) && AllSpace(post)
    requires |obj| >= 2 && obj[0] == '{' && obj[|obj| - 1] == '}'
    ensures ClassifyMusicRequest(Ok(pre + obj + post), prompt, decode) == decode(obj).GetOr(FallbackIntent(prompt))
  {
    var text := pre + obj + post;
    PaddedSpanStripped(pre, obj, post);
    var empty: string := [];
    GreedySpanOf(empty, obj, empty);
    assert empty + obj + empty == obj;
    assert GreedySpan(Strip(text)) == Some(obj);
    ClassifiedBySpan(text, prompt, decode);
  }

  /** Stripping a padded braced span leaves the span. */
  lemma PaddedSpanStripped(pre: string, obj: string, post: string)
    requires AllSpace(pre) && AllSpace(post)
    requires |obj| >= 2 && obj[0] == '{' && obj[|obj| - 1] == '}'
    ensures Strip(pre + obj + post) == obj
  {
    StripPadded(pre, obj, post);
    assert !IsSpace(obj[0]) && !IsSpace(obj[|obj| - 1]);
    StripStripped(obj);
  }

  /** The classification of an answer depends on its greedy span alone: the
      test for `{` before the search changes nothing. */
  lemma ClassifiedBySpan(text: string, prompt: string, decode: string -> Option<Json.Value>)
    ensures GreedySpan(Strip(text)).None? ==> ClassifyMusicRequest(Ok(text), prompt, decode) == FallbackIntent(prompt)
    ensures GreedySpan(Strip(text)).Some? ==>
              ClassifyMusicRequest(Ok(text), prompt, decode) == decode(GreedySpan(Strip(text)).value).GetOr(FallbackIntent(prompt))
  {
    var t := Strip(text);
    if GreedySpan(t).Some? {
      var span := GreedySpan(t).value;
      var i :| GreedySpanAt(t, span, i);
      assert t[i..i + |span|][0] == t[i];
      assert '{' in t;
    }
  }

  /** `classify_music_request(prompt)`. `reply` is the outcome of the request
      to the model (`Ok(text)`: its `"response"` field); `decode` is
      `json.loads`, `None` where it raises. The decoded value is returned as
      it is, whatever its shape. */
  function ClassifyMusicRequest(reply: Result<string>, prompt: string, decode: string -> Option<Json.Value>): (intent: Json.Value)
    ensures reply.Raised? ==> intent == FallbackIntent(prompt)
  {
    match reply
    case Raised(_) => FallbackIntent(prompt)
    case Ok(text) =>
      var parsed := Strip(text);
      if '{' in parsed then
        match GreedySpan(parsed)
        case Some(span) => decode(span).GetOr(FallbackIntent(prompt))
        case None => FallbackIntent(prompt)
      else FallbackIntent(prompt)
  }

  /** An answer without braces is no classification. */
  lemma NoBracesFallback(text: string, prompt: string, decode: string -> Option<Json.Value>)
    requires '{' !in text
    ensures ClassifyMusicRequest(Ok(text), prompt, decode) == FallbackIntent(prompt)
  {
    StripKeepsOut(text, '{');
  }

  /* ---------------- Last.fm ---------------- */

  /** The parameters `search_lastfm_tracks` sends besides the key and format. */
  datatype LastFmRequest = LastFmRequest(apiMethod: string, field: string, value: Json.Value, limit: int)

  /** The request for an intent; `None` where `intent["type"]` or
      `intent["value"]` raises. */
  function LastFmQuery(intent: Json.Value, limit: int): (q: Option<LastFmRequest>)
    ensures q.Some? <==> Json.Get(intent, "type").Some? && Json.Get(intent, "value").Some?
    ensures q.Some? ==> Json.Get(intent, "value") == Some(q.value.value)
    ensures q.Some? ==>
              var kind := Json.Get(intent, "type").value;
              (q.value.apiMethod == "artist.gettoptracks" <==> kind == Json.Str("artist")) &&
              (q.value.apiMethod == "tag.gettoptracks" <==>
                 kind == Json.Str("tag") || kind == Json.Str("mood") || kind == Json.Str("genre")) &&
              (q.value.apiMethod == "album.search" <==> kind == Json.Str("album")) &&
              (q.value.apiMethod == "track.search" <==>
                 !(kind.Str? && kind.s in ["artist", "tag", "mood", "genre", "album"]))
    ensures q.Some? ==> q.value.limit == if q.value.apiMethod == "track.search" then 1 else limit
  {
    match (Json.Get(intent, "type"), Json.Get(intent, "value"))
    case (Some(kind), Some(value)) =>
      if kind == Json.Str("artist") then Some(LastFmRequest("artist.gettoptracks", "artist", value, limit))
      else if kind == Json.Str("tag") || kind == Json.Str("mood") || kind == Json.Str("genre") then
        Some(LastFmRequest("tag.gettoptracks", "tag", value, limit))
      else if kind == Json.Str("album") then Some(LastFmRequest("album.search", "album", value, limit))
      else Some(LastFmRequest("track.search", "track", value, 1))
    case _ => None
  }

  /** One result: `{"name": t["name"], "artist": t["artist"]}`. */
  datatype Track = Track(name: Json.Value, artist: Json.Value)

  /** The dictionary built for `t`; `None` where a lookup raises. */
  function TrackOf(t: Json.Value): (r: Option<Track>)
    ensures r.Some? <==> Json.Get(t, "name").Some? && Json.Get(t, "artist").Some?
    ensures r.Some? ==> Json.Get(t, "name") == Some(r.value.name) && Json.Get(t, "artist") == Some(r.value.artist)
  {
    match (Json.Get(t, "name"), Json.Get(t, "artist"))
    case (Some(name), Some(artist)) => Some(Track(name, artist))
    case _ => None
  }

  /** The list comprehension over `ts`: it raises as soon as one element does. */
  function TracksOf(ts: seq<Json.Value>): (r: Option<seq<Track>>)
    ensures r.Some? <==> forall i :: 0 <= i < |ts| ==> TrackOf(ts[i]).Some?
    ensures r.Some? ==> |r.value| == |ts| && forall i :: 0 <= i < |ts| ==> TrackOf(ts[i]) == Some(r.value[i])
  {
    if ts == [] then Some([])
    else
      match (TracksOf(ts[..|ts| - 1]), TrackOf(ts[|ts| - 1]))
      case (Some(init), Some(last)) => Some(init + [last])
      case _ => None
  }

  /** The elements a `for` loop over `v` visits before the lookups in its body
      can succeed: those of a list. Iterating a non-empty dictionary or string
      yields strings, whose `["name"]` raises, and numbers cannot be iterated;
      every one of these ends in the empty result, as an empty list does. */
  function Items(v: Json.Value): seq<Json.Value> {
    if v.Array? then v.items else []
  }

  /** Which part of a Last.fm answer the results come from. */
  datatype Source =
    | TrackMatches(items: seq<Json.Value>)
    | TopTracks(items: seq<Json.Value>)
    | AlbumMatches(items: seq<Json.Value>)
    | NoMatches
    | Failed

  /** The sources that list matches. */
  predicate Listed(source: Source) {
    source.TrackMatches? || source.TopTracks? || source.AlbumMatches?
  }

  /** The three tests on the decoded answer `data`, in order; `Failed` where
      one of them raises. */
  function SourceOf(data: Json.Value): Source {
    match Json.GetOr(data, "results", Json.Object(map[], "{}"))
    case None => Failed
    case Some(results) =>
      match Json.Has(results, "trackmatches")
      case None => Failed
      case Some(true) =>
        (match Json.GetPath(data, "results", "trackmatches")
         case Some(m) => (match Json.Get(m, "track") case Some(v) => TrackMatches(Items(v)) case None => Failed)
         case None => Failed)
      case Some(false) =>
        if "toptracks" in data.members then
          match Json.Get(data.members["toptracks"], "track")
          case Some(v) => TopTracks(Items(v))
          case None => Failed
        else if "results" in data.members && Json.Has(results, "albummatches") == Some(true) then
          match Json.Get(results, "albummatches")
          case Some(m) => (match Json.Get(m, "album") case Some(v) => AlbumMatches(Items(v)) case None => Failed)
          case None => Failed
        else NoMatches
  }

  /** What `search_lastfm_tracks(intent, limit)` returns, given the Last.fm
      answer for each request (`Raised`: a failed request or a body that is not
      JSON). Any exception gives the empty list. */
  function LastFmTracks(intent: Json.Value, limit: int, lastfm: LastFmRequest -> Result<Json.Value>): (tracks: seq<Track>)
    ensures 0 <= limit ==> |tracks| <= limit
    ensures LastFmQuery(intent, limit).None? ==> tracks == []
    ensures var q := LastFmQuery(intent, limit);
            q.Some? && lastfm(q.value).Raised? ==> tracks == []
    ensures var q := LastFmQuery(intent, limit);
            q.Some? && lastfm(q.value).Ok? ==>
              var source := SourceOf(lastfm(q.value).value);
              if Listed(source) && TracksOf(source.items).Some? then tracks == PrefixTo(TracksOf(source.items).value, limit)
              else tracks == []
  {
    match LastFmQuery(intent, limit)
    case None => []
    case Some(q) =>
      match lastfm(q)
      case Raised(_) => []
      case Ok(data) =>
        match SourceOf(data)
        case TrackMatches(items) => PrefixTo(TracksOf(items).GetOr([]), limit)
        case TopTracks(items) => PrefixTo(TracksOf(items).GetOr([]), limit)
        case AlbumMatches(items) => PrefixTo(TracksOf(items).GetOr([]), limit)
        case _ => []
  }

  /** `search_lastfm_tracks`: the album matches are collected by a loop, the
      other lists by the comprehension alone. */
  method SearchLastFmTracks(intent: Json.Value, limit: int, lastfm: LastFmRequest -> Result<Json.Value>)
    returns (tracks: seq<Track>)
    ensures tracks == LastFmTracks(intent, limit, lastfm)
  {
    var q := LastFmQuery(intent, limit);
    if q.None? {
      return [];
    }
    var response := lastfm(q.value);
    if response.Raised? {
      return [];
    }
    var source := SourceOf(response.value);
    match source
    case AlbumMatches(albums) =>
      var results: seq<Track> := [];
      var i := 0;
      while i < |albums|
        invariant 0 <= i <= |albums|
        invariant TracksOf(albums[..i]) == Some(results)
      {
        assert albums[..i + 1][..i] == albums[..i];
        var t := TrackOf(albums[i]);
        if t.None? {
          assert TrackOf(albums[i]).None?;
          return [];
        }
        results := results + [t.value];
        i := i + 1;
      }
      assert albums[..i] == albums;
      tracks := PrefixTo(results, limit);
    case TrackMatches(items) =>
      tracks := PrefixTo(TracksOf(items).GetOr([]), limit);
    case TopTracks(items) =>
      tracks := PrefixTo(TracksOf(items).GetOr([]), limit);
    case NoMatches =>
      tracks := [];
    case Failed =>
      tracks := [];
  }

  /** Each result keeps the name and artist of the match at its position, in
      order, up to `limit`. */
  lemma LastFmKeepsMatches(intent: Json.Value, limit: int, lastfm: LastFmRequest -> Result<Json.Value>, k: int)
    requires LastFmQuery(intent, limit).Some? && lastfm(LastFmQuery(intent, limit).value).Ok?
    requires Listed(SourceOf(lastfm(LastFmQuery(intent, limit).value).value))
    requires 0 <= k < |LastFmTracks(intent, limit, lastfm)|
    ensures var items := SourceOf(lastfm(LastFmQuery(intent, limit).value).value).items;
            k < |items| && TrackOf(items[k]) == Some(LastFmTracks(intent, limit, lastfm)[k])
  {
  }

  /** When every match can be read, the results are the first `limit` of
      them, or all of them when there are fewer. */
  lemma LastFmCount(intent: Json.Value, limit: int, lastfm: LastFmRequest -> Result<Json.Value>)
    requires 0 <= limit
    requires LastFmQuery(intent, limit).Some? && lastfm(LastFmQuery(intent, limit).value).Ok?
    requires var source := SourceOf(lastfm(LastFmQuery(intent, limit).value).value);
             Listed(source) && forall i :: 0 <= i < |source.items| ==> TrackOf(source.items[i]).Some?
    ensures var items := SourceOf(lastfm(LastFmQuery(intent, limit).value).value).items;
            |LastFmTracks(intent, limit, lastfm)| == if limit < |items| then limit else |items|
  {
  }

  /* ---------------- Spotify search and queue ---------------- */

  /** What `find_spotify_uri` returns when something is found. */
  datatype Found = Found(link: Json.Value, uri: Json.Value)

  /** The key of the answer that holds the items of a search type. */
  function CollectionKey(searchType: string): Option<string> {
    if searchType == "track" then Some("tracks")
    else if searchType == "album" then Some("albums")
    else if searchType == "artist" then Some("artists")
    else None
  }

  /** `find_spotify_uri(q, search_type)` given the outcome of the search
      request; `None` stands for `(None, None)`. Only a non-empty list of
      items yields something: an empty value is skipped, and indexing any
      other value raises, which is caught. */
  function FindSpotifyUri(searchType: string, response: Result<Json.Value>): (r: Option<Found>)
    ensures response.Raised? || CollectionKey(searchType).None? ==> r.None?
    ensures r.Some? ==>
              var body := response.value;
              var key := CollectionKey(searchType).value;
              body.Object? &&
              var coll := if key in body.members then body.members[key] else Json.Object(map[], "{}");
              coll.Object? && "items" in coll.members &&
              coll.members["items"].Array? && |coll.members["items"].items| > 0 &&
              Json.Get(coll.members["items"].items[0], "uri") == Some(r.value.uri) &&
              Json.GetPath(coll.members["items"].items[0], "external_urls", "spotify") == Some(r.value.link)
  {
    match response
    case Raised(_) => None
    case Ok(body) =>
      match CollectionKey(searchType)
      case None => None
      case Some(key) =>
        match Json.GetOr(body, key, Json.Object(map[], "{}"))
        case None => None
        case Some(coll) =>
          match Json.GetOr(coll, "items", Json.Array([], "[]"))
          case None => None
          case Some(items) =>
            if !Json.Truthy(items) || !items.Array? then None
            else
              match (Json.GetPath(items.items[0], "external_urls", "spotify"), Json.Get(items.items[0], "uri"))
              case (Some(link), Some(uri)) => Some(Found(link, uri))
              case _ => None
  }

  /** The converse: when the first item of the list has both fields, they are
      what is returned. */
  lemma FirstHitFound(searchType: string, body: Json.Value, coll: Json.Value, items: seq<Json.Value>, shown: string,
                      link: Json.Value, uri: Json.Value)
    requires CollectionKey(searchType).Some? && body.Object?
    requires Json.Get(body, CollectionKey(searchType).value) == Some(coll)
    requires Json.Get(coll, "items") == Some(Json.Array(items, shown)) && items != []
    requires Json.GetPath(items[0], "external_urls", "spotify") == Some(link) && Json.Get(items[0], "uri") == Some(uri)
    ensures FindSpotifyUri(searchType, Ok(body)) == Some(Found(link, uri))
  {
    assert Json.GetOr(body, CollectionKey(searchType).value, Json.Object(map[], "{}")) == Some(coll);
    assert Json.GetOr(coll, "items", Json.Array([], "[]")) == Some(Json.Array(items, shown));
  }

  /** `queue_spotify_track(uri)` given the outcome of the request: its status
      code, or `Raised` when it failed. */
  function QueueSpotifyTrack(status: Result<int>): (queued: bool)
    ensures queued <==> status.Ok? && status.value !in {401, 403, 404, 429}
  {
    match status
    case Raised(_) => false
    case Ok(code) =>
      if code == 204 then true
      else if code == 401 || code == 403 || code == 429 then false
      else if code == 404 then false
      else true
  }

  /** The status table: 204 and every unlisted code queue; 401, 403, 404 and
      429 and a failed request do not. */
  lemma QueueStatusTable(fault: Fault, other: int)
    requires other !in {401, 403, 404, 429}
    ensures QueueSpotifyTrack(Ok(204)) && QueueSpotifyTrack(Ok(other))
    ensures !QueueSpotifyTrack(Ok(401)) && !QueueSpotifyTrack(Ok(403)) &&
            !QueueSpotifyTrack(Ok(404)) && !QueueSpotifyTrack(Ok(429))
    ensures !QueueSpotifyTrack(Raised(fault))
  {
  }

  /** `get_album_tracks` (key "items") and `get_artist_top_tracks` (key
      "tracks"): the value under `key`, the empty list by default and on any
      failure. */
  function TrackList(response: Result<Json.Value>, key: string): (v: Json.Value)
    ensures response.Raised? ==> v == Json.Array([], "[]")
    ensures response.Ok? && response.value.Object? && key in response.value.members ==> v == response.value.members[key]
    ensures response.Ok? && !(response.value.Object? && key in response.value.members) ==> v == Json.Array([], "[]")
  {
    match response
    case Raised(_) => Json.Array([], "[]")
    case Ok(body) => Json.GetOr(body, key, Json.Array([], "[]")).GetOr(Json.Array([], "[]"))
  }

  /* ---------------- handle_music ---------------- */

  /** The requests `handle_music` makes, as inputs. */
  datatype Services = Services(
    classify: Result<string>,                             // the model's answer to the classification prompt
    decode: string -> Option<Json.Value>,                 // json.loads
    refresh: Result<TokenResponse>,                       // the token refresh, should it be made
    search: (Json.Value, string) -> Result<Json.Value>,   // Spotify search by query and type
    albumTracks: string -> Result<Json.Value>,            // the tracks of an album id
    topTracks: string -> Result<Json.Value>,              // the top tracks of an artist id
    queue: Json.Value -> Result<int>,                     // the queue request for a URI: its status
    lastfm: LastFmRequest -> Result<Json.Value>)          // the Last.fm request

  const AuthFailed: string := "\U{E2}\U{161}\U{A0}\U{EF}\U{B8} Spotify " + "authentication failed."
  const Cross: string := "\U{E2}\U{152} "
  const Headphones: string := "\U{11F}\U{178}\U{A7} "
  const NotActive: string := "Please make sure " + "Spotify is open " + "and active."

  /** The number of `tracks` whose `uri` the queue accepts; `Raised` where a
      track has no `"uri"`, which escapes `handle_music`. */
  function QueuedCount(tracks: seq<Json.Value>, queue: Json.Value -> Result<int>): (n: Result<nat>)
    ensures n.Ok? <==> forall i :: 0 <= i < |tracks| ==> Json.Subscript(tracks[i], "uri").Ok?
    ensures n.Ok? ==> n.value <= |tracks|
  {
    if tracks == [] then Ok(0)
    else
      match (QueuedCount(tracks[..|tracks| - 1], queue), Json.Subscript(tracks[|tracks| - 1], "uri"))
      case (Ok(n), Ok(uri)) => Ok(if QueueSpotifyTrack(queue(uri)) then n + 1 else n)
      case (Raised(f), _) => Raised(f)
      case (_, Raised(f)) => Raised(f)
  }

  /** The counting loop of the album and artist branches. */
  method CountQueued(tracks: seq<Json.Value>, queue: Json.Value -> Result<int>) returns (n: Result<nat>)
    ensures n == QueuedCount(tracks, queue)
  {
    var count: nat := 0;
    var i := 0;
    while i < |tracks|
      invariant 0 <= i <= |tracks|
      invariant QueuedCount(tracks[..i], queue) == Ok(count)
    {
      assert tracks[..i + 1][..i] == tracks[..i];
      var uri := Json.Subscript(tracks[i], "uri");
      if uri.Raised? {
        assert QueuedCount(tracks[..i + 1], queue) == Raised(uri.fault);
        QueuedCountRaises(tracks, queue, i + 1);
        return Raised(uri.fault);
      }
      if QueueSpotifyTrack(queue(uri.value)) {
        count := count + 1;
      }
      i := i + 1;
    }
    assert tracks[..i] == tracks;
    return Ok(count);
  }

  /** The first failing track decides the outcome of the whole loop. */
  lemma {:induction false} QueuedCountRaises(tracks: seq<Json.Value>, queue: Json.Value -> Result<int>, m: int)
    requires 0 <= m <= |tracks| && QueuedCount(tracks[..m], queue).Raised?
    ensures QueuedCount(tracks, queue) == QueuedCount(tracks[..m], queue)
    decreases |tracks| - m
  {
    if m < |tracks| {
      assert tracks[..m + 1][..m] == tracks[..m];
      QueuedCountRaises(tracks, queue, m + 1);
    } else {
      assert tracks[..m] == tracks;
    }
  }

  /** No track is queued exactly when every queue request is refused. */
  lemma {:induction false} NothingQueued(tracks: seq<Json.Value>, queue: Json.Value -> Result<int>)
    requires QueuedCount(tracks, queue).Ok?
    ensures QueuedCount(tracks, queue).value == 0 <==>
              forall i :: 0 <= i < |tracks| ==> !QueueSpotifyTrack(queue(Json.Subscript(tracks[i], "uri").value))
  {
    if tracks != [] {
      var init := tracks[..|tracks| - 1];
      assert forall i :: 0 <= i < |init| ==> init[i] == tracks[i];
      NothingQueued(init, queue);
    }
  }

  /** The search for a Last.fm suggestion: `"{name} {artist}"`. */
  function TrackQuery(t: Track): Json.Value {
    Json.Str(Json.Show(t.name) + " " + Json.Show(t.artist))
  }

  /** A suggestion is found on Spotify and its URI queued. */
  predicate QueuedFound(t: Track, s: Services) {
    var found := FindSpotifyUri("track", s.search(TrackQuery(t), "track"));
    found.Some? && Json.Truthy(found.value.uri) && QueueSpotifyTrack(s.queue(found.value.uri))
  }

  /** The number of suggestions queued in the mood branch. */
  function SuggestionsQueued(tracks: seq<Track>, s: Services): (n: nat)
    ensures n <= |tracks|
    ensures n == 0 <==> forall i :: 0 <= i < |tracks| ==> !QueuedFound(tracks[i], s)
  {
    if tracks == [] then 0
    else
      var init := tracks[..|tracks| - 1];
      assert forall i :: 0 <= i < |init| ==> init[i] == tracks[i];
      SuggestionsQueued(init, s) + if QueuedFound(tracks[|tracks| - 1], s) then 1 else 0
  }

  /** The counting loop of the mood branch. */
  method CountSuggestionsQueued(tracks: seq<Track>, s: Services) returns (n: nat)
    ensures n == SuggestionsQueued(tracks, s)
  {
    n := 0;
    var i := 0;
    while i < |tracks|
      invariant 0 <= i <= |tracks|
      invariant n == SuggestionsQueued(tracks[..i], s)
    {
      SuggestionsQueuedStep(tracks, i, s);
      var found := FindSpotifyUri("track", s.search(TrackQuery(tracks[i]), "track"));
      if found.Some? && Json.Truthy(found.value.uri) && QueueSpotifyTrack(s.queue(found.value.uri)) {
        n := n + 1;
      }
      i := i + 1;
    }
    assert tracks[..i] == tracks;
  }

  /** One more suggestion adds one to the count exactly when it is queued. */
  lemma SuggestionsQueuedStep(tracks: seq<Track>, i: int, s: Services)
    requires 0 <= i < |tracks|
    ensures SuggestionsQueued(tracks[..i + 1], s) ==
            SuggestionsQueued(tracks[..i], s) + if QueuedFound(tracks[i], s) then 1 else 0
  {
    assert tracks[..i + 1][..i] == tracks[..i];
  }

  /** The album and the artist branches differ only in their words and requests. */
  datatype Collection = Album | Artist

  function CollectionTracks(c: Collection, id: string, s: Services): Json.Value {
    match c
    case Album => TrackList(s.albumTracks(id), "items")
    case Artist => TrackList(s.topTracks(id), "tracks")
  }

  /** An album's tracks are the `"items"` of its answer and an artist's the
      `"tracks"`: the listed value when the answer holds it, the empty list
      when the request fails or the key is missing. */
  lemma CollectionTracksFromAnswer(c: Collection, id: string, s: Services)
    ensures var response := if c == Album then s.albumTracks(id) else s.topTracks(id);
            var key := if c == Album then "items" else "tracks";
            (response.Ok? && response.value.Object? && key in response.value.members ==>
               CollectionTracks(c, id, s) == response.value.members[key]) &&
            (response.Raised? ==> CollectionTracks(c, id, s) == Json.Array([], "[]"))
  {
  }

  function NotFoundReply(c: Collection, value: Json.Value): string {
    match c
    case Album => Cross + "Could not find album: " + Json.Show(value)
    case Artist => Cross + "Could not find artist: " + Json.Show(value)
  }

  function NoTracksReply(c: Collection, value: Json.Value): string {
    match c
    case Album => Cross + "No tracks found in album: " + Json.Show(value)
    case Artist => Cross + "No tracks found for artist: " + Json.Show(value)
  }

  function AddedReply(c: Collection, value: Json.Value): string {
    match c
    case Album => Headphones + "Added album: " + Json.Show(value)
    case Artist => Headphones + "Added top tracks by: " + Json.Show(value)
  }

  function NotQueuedReply(c: Collection): string {
    match c
    case Album => Cross + "Could not queue album. " + NotActive
    case Artist => Cross + "Could not queue artist tracks. " + NotActive
  }

  /** The URI of the first search hit; `None` (falsy) when nothing was found. */
  function HitUri(found: Option<Found>): Json.Value {
    if found.Some? then found.value.uri else Json.Other("None")
  }

  /** The album or artist branch for the request's `value`. */
  function CollectionReply(c: Collection, value: Json.Value, s: Services): (r: Result<string>)
    ensures r == Ok(AddedReply(c, value)) ==>
              var uri := HitUri(FindSpotifyUri(if c == Album then "album" else "artist", s.search(value, if c == Album then "album" else "artist")));
              uri.Str? && CollectionTracks(c, AfterLast(uri.s, ':'), s).Array? &&
              QueuedCount(CollectionTracks(c, AfterLast(uri.s, ':'), s).items, s.queue).Ok? &&
              QueuedCount(CollectionTracks(c, AfterLast(uri.s, ':'), s).items, s.queue).value > 0
    ensures var uri := HitUri(FindSpotifyUri(if c == Album then "album" else "artist", s.search(value, if c == Album then "album" else "artist")));
            (!Json.Truthy(uri) ==> r == Ok(NotFoundReply(c, value))) &&
            (Json.Truthy(uri) && !uri.Str? ==> r == Raised(Fault("AttributeError"))) &&
            (Json.Truthy(uri) && uri.Str? ==>
               var tracks := CollectionTracks(c, AfterLast(uri.s, ':'), s);
               (!Json.Truthy(tracks) ==> r == Ok(NoTracksReply(c, value))) &&
               (Json.Truthy(tracks) && !tracks.Array? ==> r == Raised(Fault("TypeError"))) &&
               (Json.Truthy(tracks) && tracks.Array? && QueuedCount(tracks.items, s.queue).Raised? ==>
                  r == Raised(QueuedCount(tracks.items, s.queue).fault)))
  {
    RepliesDiffer(c, value);
    var kind := if c == Album then "album" else "artist";
    var uri := HitUri(FindSpotifyUri(kind, s.search(value, kind)));
    if !Json.Truthy(uri) then Ok(NotFoundReply(c, value))
    else if !uri.Str? then Raised(Fault("AttributeError"))
    else
      var tracks := CollectionTracks(c, AfterLast(uri.s, ':'), s);
      if !Json.Truthy(tracks) then Ok(NoTracksReply(c, value))
      else if !tracks.Array? then Raised(Fault("TypeError"))
      else
        match QueuedCount(tracks.items, s.queue)
        case Raised(f) => Raised(f)
        case Ok(n) =>
          if n > 0 then Ok(AddedReply(c, value)) else Ok(NotQueuedReply(c))
  }

  /** Once the tracks of the album or artist are listed, the number queued
      decides the reply: the success message for a positive count, the
      "make sure Spotify is open" message for none. */
  lemma CountDecidesCollection(c: Collection, value: Json.Value, s: Services, id: string, items: seq<Json.Value>, shown: string, n: nat)
    requires var uri := HitUri(FindSpotifyUri(if c == Album then "album" else "artist", s.search(value, if c == Album then "album" else "artist")));
             uri.Str? && uri.s != [] && id == AfterLast(uri.s, ':')
    requires CollectionTracks(c, id, s) == Json.Array(items, shown) && items != []
    requires QueuedCount(items, s.queue) == Ok(n)
    ensures CollectionReply(c, value, s) == Ok(if n > 0 then AddedReply(c, value) else NotQueuedReply(c))
  {
    assert Json.Truthy(Json.Array(items, shown));
  }

  /** The success and failure replies of a branch differ. */
  lemma RepliesDiffer(c: Collection, value: Json.Value)
    ensures AddedReply(c, value) != NotFoundReply(c, value) && AddedReply(c, value) != NoTracksReply(c, value)
    ensures AddedReply(c, value) != NotQueuedReply(c)
  {
    assert AddedReply(c, value)[0] == '\U{11F}';
    assert NotFoundReply(c, value)[0] == '\U{E2}' && NoTracksReply(c, value)[0] == '\U{E2}';
    assert NotQueuedReply(c)[0] == '\U{E2}';
  }

  /** The album or artist branch, with its counting loop. */
  method HandleCollection(c: Collection, value: Json.Value, s: Services) returns (r: Result<string>)
    ensures r == CollectionReply(c, value, s)
  {
    var kind := if c == Album then "album" else "artist";
    var uri := HitUri(FindSpotifyUri(kind, s.search(value, kind)));
    if !Json.Truthy(uri) {
      return Ok(NotFoundReply(c, value));
    }
    if !uri.Str? {
      return Raised(Fault("AttributeError"));
    }
    var tracks := CollectionTracks(c, AfterLast(uri.s, ':'), s);
    if !Json.Truthy(tracks) {
      return Ok(NoTracksReply(c, value));
    }
    if !tracks.Array? {
      return Raised(Fault("TypeError"));
    }
    var n := CountQueued(tracks.items, s.queue);
    match n
    case Raised(f) =>
      r := Raised(f);
    case Ok(count) =>
      if count > 0 {
        r := Ok(AddedReply(c, value));
      } else {
        r := Ok(NotQueuedReply(c));
      }
  }

  /** The single-track branch: it never raises. */
  function TrackReply(value: Json.Value, s: Services): (r: Result<string>)
    ensures r.Ok?
    ensures var uri := HitUri(FindSpotifyUri("track", s.search(value, "track")));
            (!Json.Truthy(uri) ==> r == Ok(Cross + "Could not find track: " + Json.Show(value))) &&
            (Json.Truthy(uri) && !QueueSpotifyTrack(s.queue(uri)) ==> r == Ok(Cross + "Could not queue track. " + NotActive))
  {
    var uri := HitUri(FindSpotifyUri("track", s.search(value, "track")));
    if !Json.Truthy(uri) then Ok(Cross + "Could not find track: " + Json.Show(value))
    else if QueueSpotifyTrack(s.queue(uri)) then Ok(Headphones + "Now playing: " + Json.Show(value))
    else Ok(Cross + "Could not queue track. " + NotActive)
  }

  /** A found track is reported playing exactly when the queue accepts it. */
  lemma NowPlayingWhenQueued(value: Json.Value, s: Services)
    requires Json.Truthy(HitUri(FindSpotifyUri("track", s.search(value, "track"))))
    ensures TrackReply(value, s) == Ok(Headphones + "Now playing: " + Json.Show(value)) <==>
            QueueSpotifyTrack(s.queue(HitUri(FindSpotifyUri("track", s.search(value, "track")))))
  {
    assert (Headphones + "Now playing: " + Json.Show(value))[0] == '\U{11F}';
    assert (Cross + "Could not queue track. " + NotActive)[0] == '\U{E2}';
  }

  /** The Last.fm page size `handle_music` uses. */
  const SuggestionLimit: int := 50

  const NoSuggestions: string := Cross + "I couldn't find " + "any tracks for " + "your query."
  const NoneQueued: string := Cross + "Could not queue tracks. " + NotActive

  /** The reply for `n` queued suggestions. */
  function AddedTracks(n: nat, value: Json.Value): string {
    Headphones + "Added " + NatToString(n) + " tracks for: " + Json.Show(value)
  }

  /** The mood, genre and every other branch. */
  function MoodReply(intent: Json.Value, value: Json.Value, s: Services): (r: Result<string>)
    ensures r.Ok?
  {
    var tracks := LastFmTracks(intent, SuggestionLimit, s.lastfm);
    if tracks == [] then Ok(NoSuggestions)
    else
      var n := SuggestionsQueued(tracks, s);
      if n > 0 then Ok(AddedTracks(n, value)) else Ok(NoneQueued)
  }

  /** The count in the mood reply is that of the suggestions queued, between
      1 and the Last.fm page size of 50. */
  lemma MoodCountBounded(intent: Json.Value, value: Json.Value, s: Services, n: nat)
    requires MoodReply(intent, value, s) == Ok(AddedTracks(n, value))
    ensures n == SuggestionsQueued(LastFmTracks(intent, SuggestionLimit, s.lastfm), s)
    ensures 1 <= n <= 50
  {
    var tracks := LastFmTracks(intent, SuggestionLimit, s.lastfm);
    assert AddedTracks(n, value)[0] == '\U{11F}';
    assert NoSuggestions[0] == '\U{E2}' && NoneQueued[0] == '\U{E2}';
    AddedTracksInjective(SuggestionsQueued(tracks, s), n, value);
  }

  /** The two failures of the mood branch: no suggestions at all, or none of
      them found and queued on Spotify. */
  lemma MoodFailures(intent: Json.Value, value: Json.Value, s: Services)
    ensures var tracks := LastFmTracks(intent, SuggestionLimit, s.lastfm);
            (MoodReply(intent, value, s) == Ok(NoSuggestions) <==> tracks == []) &&
            (MoodReply(intent, value, s) == Ok(NoneQueued) <==>
               tracks != [] && forall i :: 0 <= i < |tracks| ==> !QueuedFound(tracks[i], s))
  {
    assert NoSuggestions[3] == 'I' && NoneQueued[3] == 'C';
    assert NoSuggestions[0] == '\U{E2}' && NoneQueued[0] == '\U{E2}';
    forall n: nat ensures AddedTracks(n, value)[0] == '\U{11F}' {
    }
  }

  /** Different counts give different replies. */
  lemma AddedTracksInjective(m: nat, n: nat, value: Json.Value)
    requires AddedTracks(m, value) == AddedTracks(n, value)
    ensures m == n
  {
    var head := Headphones + "Added ";
    var tail := " tracks for: " + Json.Show(value);
    var a, b := AddedTracks(m, value), AddedTracks(n, value);
    assert a == head + NatToString(m) + tail && b == head + NatToString(n) + tail;
    assert NatToString(m) == a[|head|..|a| - |tail|];
    assert NatToString(n) == b[|head|..|b| - |tail|];
    NatToStringInjective(m, n);
  }

  /** The mood branch, with its Last.fm loop and its counting loop. */
  method HandleMood(intent: Json.Value, value: Json.Value, s: Services) returns (r: Result<string>)
    ensures r == MoodReply(intent, value, s)
  {
    var tracks := SearchLastFmTracks(intent, SuggestionLimit, s.lastfm);
    if tracks == [] {
      return Ok(NoSuggestions);
    }
    var n := CountSuggestionsQueued(tracks, s);
    if n > 0 {
      r := Ok(AddedTracks(n, value));
    } else {
      r := Ok(NoneQueued);
    }
  }

  /** What `handle_music` returns once the intent is known and the token
      lookup has said whether Spotify can be used; `Raised` for the exceptions
      that escape it (a missing `"type"` or `"value"`, a URI that is no
      string, a track without `"uri"`). Each branch first reads `value`, for
      its log line. */
  function MusicReply(intent: Json.Value, authorized: bool, s: Services): (r: Result<string>)
    ensures !authorized ==> r == Ok(AuthFailed)
    ensures authorized && Json.Subscript(intent, "type").Raised? ==> r == Raised(Json.Subscript(intent, "type").fault)
    ensures authorized && Json.Subscript(intent, "type").Ok? && Json.Subscript(intent, "value").Raised? ==>
              r == Raised(Json.Subscript(intent, "value").fault)
  {
    if !authorized then Ok(AuthFailed)
    else
      match Json.Subscript(intent, "type")
      case Raised(f) => Raised(f)
      case Ok(kind) =>
        match Json.Subscript(intent, "value")
        case Raised(f) => Raised(f)
        case Ok(value) =>
          if kind == Json.Str("album") then CollectionReply(Album, value, s)
          else if kind == Json.Str("artist") then CollectionReply(Artist, value, s)
          else if kind == Json.Str("track") then TrackReply(value, s)
          else MoodReply(intent, value, s)
  }

  /** The branch `handle_music` takes for a readable `type` and `value` once
      Spotify is reachable: albums and artists are queued whole, a track is
      played, and every other type (mood, genre, tag, anything else) is
      looked up on Last.fm. */
  lemma MusicDispatch(intent: Json.Value, kind: Json.Value, value: Json.Value, s: Services)
    requires Json.Subscript(intent, "type") == Ok(kind) && Json.Subscript(intent, "value") == Ok(value)
    ensures kind == Json.Str("album") ==> MusicReply(intent, true, s) == CollectionReply(Album, value, s)
    ensures kind == Json.Str("artist") ==> MusicReply(intent, true, s) == CollectionReply(Artist, value, s)
    ensures kind == Json.Str("track") ==> MusicReply(intent, true, s) == TrackReply(value, s)
    ensures kind != Json.Str("album") && kind != Json.Str("artist") && kind != Json.Str("track") ==>
              MusicReply(intent, true, s) == MoodReply(intent, value, s)
  {
  }

  /** `handle_music(user_input)`: classify, check the token, then run the
      branch for the intent's type. */
  method HandleMusic(input: string, cache: TokenCache, now: int, s: Services) returns (r: Result<string>)
    modifies cache
    ensures cache.State() == AccessToken(old(cache.State()), now, s.refresh).after
    ensures r == MusicReply(ClassifyMusicRequest(s.classify, input, s.decode),
                            Usable(AccessToken(old(cache.State()), now, s.refresh).result), s)
  {
    var intent := ClassifyMusicRequest(s.classify, input, s.decode);
    var token := cache.GetAccessToken(now, s.refresh);
    if !Usable(token) {
      return Ok(AuthFailed);
    }
    var kind := Json.Subscript(intent, "type");
    if kind.Raised? {
      return Raised(kind.fault);
    }
    var value := Json.Subscript(intent, "value");
    if value.Raised? {
      return Raised(value.fault);
    }
    if kind.value == Json.Str("album") {
      r := HandleCollection(Album, value.value, s);
    } else if kind.value == Json.Str("artist") {
      r := HandleCollection(Artist, value.value, s);
    } else if kind.value == Json.Str("track") {
      r := TrackReply(value.value, s);
    } else {
      r := HandleMood(intent, value.value, s);
    }
  }

  /** When the model fails, the request is searched as a track under its own
      words, once Spotify is reachable. */
  lemma ModelDownPlaysTrack(input: string, fault: Fault, s: Services)
    requires s.classify == Raised(fault)
    ensures MusicReply(ClassifyMusicRequest(s.classify, input, s.decode), true, s) == TrackReply(Json.Str(input), s)
  {
    var intent := FallbackIntent(input);
    assert Json.Subscript(intent, "type") == Ok(Json.Str("track"));
    assert Json.Subscript(intent, "value") == Ok(Json.Str(input));
  }

  /** The id passed on for an album or artist URI `spotify:album:<id>` is `<id>`. */
  lemma IdFromUri(prefix: string, id: string)
    requires ':' !in id
    ensures AfterLast(prefix + ":" + id, ':') == id
  {
    assert prefix + ":" + id == prefix + [':'] + id;
    AfterLastField(prefix, ':', id);
  }
}
