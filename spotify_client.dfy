/**
 * The decision logic of the Spotify Web API client (internal/spotify/client.go): search-type
 * parsing, search-parameter normalisation, the per-type conversion of decoded search items into
 * results, and the client-credentials token cache. HTTP exchanges are not modelled: the decoded
 * token reply and the decoded search body (or the failure that replaced them) are parameters,
 * and time is an integer number of seconds.
 */
module Spotify {
  import opened Wrappers
  import opened Text

  datatype SearchType = Track | Album | Playlist | Show | Episode {
    /** The lower-case name used on the command line and as the `type` query parameter. */
    function Name(): string
    {
      match this
      case Track => "track"
      case Album => "album"
      case Playlist => "playlist"
      case Show => "show"
      case Episode => "episode"
    }
  }

  datatype Error =
    | InvalidType(input: string)
    | QueryRequired
    | EmptyAccessToken
      /** A failed request, a non-2xx status, an unreadable body or undecodable JSON. */
    | Remote(detail: string)

  /** ParseSearchType: trim, lower-case, and accept exactly the five type names. */
  function ParseSearchType(s: string): (r: Result<SearchType, Error>)
    ensures r.Success? <==> ToLower(TrimSpace(s)) in {"track", "album", "playlist", "show", "episode"}
    ensures r.Success? ==> r.value.Name() == ToLower(TrimSpace(s))
    ensures r.Failure? ==> r.error == InvalidType(s)
  {
    var t := ToLower(TrimSpace(s));
    if t == "track" then Success(Track)
    else if t == "album" then Success(Album)
    else if t == "playlist" then Success(Playlist)
    else if t == "show" then Success(Show)
    else if t == "episode" then Success(Episode)
    else Failure(InvalidType(s))
  }

  /** Every search type's own name parses back to it. */
  lemma ParseSearchTypeName(t: SearchType)
    ensures ParseSearchType(t.Name()) == Success(t)
  {
    TrimmedIsFixed(t.Name());
    LowerIsFixed(t.Name());
  }

  /** Surrounding space and upper case do not matter: " Track\n" is a track search. */
  lemma ParseSearchTypeExample()
    ensures ParseSearchType(" Track\n") == Success(Track)
    ensures ParseSearchType("tracks").Failure?
  {
    var s := " Track\n";
    assert TrimLeft(s) == "Track\n" by {
      assert s[1..] == "Track\n";
    }
    assert TrimRight("Track\n") == "Track" by {
      assert "Track\n"[..5] == "Track";
    }
    assert ToLower("Track") == "track";
    TrimmedIsFixed("tracks");
    assert ToLower("tracks") == "tracks";
  }

  const DefaultLimit: int := 10
  const MaxLimit: int := 50

  /** The parameters Search actually uses. */
  datatype SearchParams = SearchParams(query: string, limit: int, market: string)

  /**
   * The start of Search: a blank query is rejected; a non-positive limit becomes 10 and one
   * above 50 becomes 50; query and market are trimmed.
   */
  function NormalizeSearch(query: string, limit: int, market: string): (r: Result<SearchParams, Error>)
    ensures r.Failure? <==> AllSpace(query)
    ensures r.Failure? ==> r.error == QueryRequired
    ensures r.Success? ==> r.value.query == TrimSpace(query) && r.value.query != ""
    ensures r.Success? ==> 1 <= r.value.limit <= MaxLimit
    ensures r.Success? && 1 <= limit <= MaxLimit ==> r.value.limit == limit
    ensures r.Success? && limit <= 0 ==> r.value.limit == DefaultLimit
    ensures r.Success? && limit > MaxLimit ==> r.value.limit == MaxLimit
    ensures r.Success? ==> r.value.market == TrimSpace(market)
  {
    TrimSpaceBlank(query);
    var q := TrimSpace(query);
    if q == "" then Failure(QueryRequired)
    else
      var l := if limit <= 0 then DefaultLimit else limit;
      var l' := if l > MaxLimit then MaxLimit else l;
      Success(SearchParams(q, l', TrimSpace(market)))
  }

  /**
   * The query string of the search request: `q`, `type` and `limit` always, `market` only
   * when it is non-empty.
   */
  function QueryParams(p: SearchParams, typ: SearchType): (q: map<string, string>)
    requires MinInt64 <= p.limit <= MaxInt64
    ensures "q" in q && q["q"] == p.query
    ensures "type" in q && q["type"] == typ.Name()
    ensures "limit" in q && Atoi(q["limit"]) == Success(p.limit)
    ensures "market" in q <==> p.market != ""
    ensures "market" in q ==> q["market"] == p.market
    ensures q.Keys <= {"q", "type", "limit", "market"}
  {
    AtoiFormatInt(p.limit);
    var q := map["q" := p.query, "type" := typ.Name(), "limit" := FormatInt(p.limit)];
    if p.market != "" then q["market" := p.market] else q
  }

  // Decoded search items, one record per result type; only the fields Search reads.

  datatype Artist = Artist(name: string)

  datatype TrackItem = TrackItem(id: string, name: string, uri: string, url: string, artists: seq<Artist>, albumName: string)

  datatype AlbumItem = AlbumItem(id: string, name: string, uri: string, url: string, artists: seq<Artist>)

  datatype PlaylistItem = PlaylistItem(id: string, name: string, uri: string, url: string, ownerDisplayName: string, tracksTotal: Int64)

  datatype ShowItem = ShowItem(id: string, name: string, uri: string, url: string, publisher: string)

  datatype EpisodeItem = EpisodeItem(id: string, name: string, uri: string, url: string, showName: string)

  /** The decoded search response: Search reads the item list of the requested type. */
  datatype SearchBody = SearchBody(
    tracks: seq<TrackItem>, albums: seq<AlbumItem>, playlists: seq<PlaylistItem>,
    shows: seq<ShowItem>, episodes: seq<EpisodeItem>)

  datatype SearchResult = SearchResult(typ: SearchType, id: string, uri: string, url: string, title: string, subtitle: string)

  /** The separator between the parts of a subtitle: an em dash with a space on either side. */
  const Dash: string := " \U{2014} "

  /** The non-empty artist names, in order. */
  function ArtistNameList(artists: seq<Artist>): (names: seq<string>)
    ensures NoneEmpty(names) && |names| <= |artists|
  {
    if artists == [] then []
    else
      var last := artists[|artists| - 1];
      ArtistNameList(artists[..|artists| - 1]) + (if last.name != "" then [last.name] else [])
  }

  /** Exactly the non-empty artist names appear in the list. */
  lemma {:induction false} ArtistNameListMembers(artists: seq<Artist>, n: string)
    ensures n in ArtistNameList(artists) <==> n != "" && exists a :: a in artists && a.name == n
  {
    if artists != [] {
      var init := artists[..|artists| - 1];
      ArtistNameListMembers(init, n);
      assert artists == init + [artists[|artists| - 1]];
      if exists a :: a in init && a.name == n {
        var a :| a in init && a.name == n;
        assert a in artists;
      }
    }
  }

  function TrackSubtitle(it: TrackItem): string
  {
    var sub := Join(ArtistNameList(it.artists), ", ");
    if it.albumName != "" && sub != "" then sub + Dash + it.albumName
    else if it.albumName != "" then it.albumName
    else sub
  }

  /**
   * A track's subtitle is its non-empty artist names joined by ", ", followed by the dash and
   * the album name when there is one; without artists it is the album name alone.
   */
  lemma TrackSubtitleCases(it: TrackItem)
    ensures var names := ArtistNameList(it.artists);
      && (names != [] && it.albumName != "" ==> TrackSubtitle(it) == Join(names, ", ") + Dash + it.albumName)
      && (names != [] && it.albumName == "" ==> TrackSubtitle(it) == Join(names, ", "))
      && (names == [] ==> TrackSubtitle(it) == it.albumName)
      && (TrackSubtitle(it) == "" <==> names == [] && it.albumName == "")
  {
    JoinBlankIff(ArtistNameList(it.artists), ", ");
  }

  function PlaylistSubtitle(it: PlaylistItem): string
  {
    var owner := TrimSpace(it.ownerDisplayName);
    if it.tracksTotal > 0 then
      if owner != "" then owner + Dash + FormatInt(it.tracksTotal) + " tracks"
      else FormatInt(it.tracksTotal) + " tracks"
    else owner
  }

  /**
   * A playlist's subtitle is its trimmed owner name; a positive track total adds
   * "N tracks", after the dash when there is an owner, and N reads back as the total.
   */
  lemma PlaylistSubtitleCases(it: PlaylistItem)
    ensures it.tracksTotal <= 0 ==> PlaylistSubtitle(it) == TrimSpace(it.ownerDisplayName)
    ensures it.tracksTotal > 0 ==>
      exists prefix, count ::
        && PlaylistSubtitle(it) == prefix + count + " tracks"
        && Atoi(count) == Success(it.tracksTotal as int)
        && prefix == (if TrimSpace(it.ownerDisplayName) == "" then "" else TrimSpace(it.ownerDisplayName) + Dash)
  {
    if it.tracksTotal > 0 {
      AtoiFormatInt(it.tracksTotal);
      var owner := TrimSpace(it.ownerDisplayName);
      var prefix := if owner == "" then "" else owner + Dash;
      assert PlaylistSubtitle(it) == prefix + FormatInt(it.tracksTotal) + " tracks";
    }
  }

  function TrackResult(it: TrackItem): SearchResult
  {
    SearchResult(Track, it.id, it.uri, it.url, it.name, TrackSubtitle(it))
  }

  function AlbumResult(it: AlbumItem): SearchResult
  {
    SearchResult(Album, it.id, it.uri, it.url, it.name, Join(ArtistNameList(it.artists), ", "))
  }

  function PlaylistResult(it: PlaylistItem): SearchResult
  {
    SearchResult(Playlist, it.id, it.uri, it.url, it.name, PlaylistSubtitle(it))
  }

  function ShowResult(it: ShowItem): SearchResult
  {
    SearchResult(Show, it.id, it.uri, it.url, it.name, TrimSpace(it.publisher))
  }

  function EpisodeResult(it: EpisodeItem): SearchResult
  {
    SearchResult(Episode, it.id, it.uri, it.url, it.name, TrimSpace(it.showName))
  }

  /** The number of decoded items of the requested type. */
  function ItemCount(typ: SearchType, b: SearchBody): nat
  {
    match typ
    case Track => |b.tracks|
    case Album => |b.albums|
    case Playlist => |b.playlists|
    case Show => |b.shows|
    case Episode => |b.episodes|
  }

  /** The results Search returns for a decoded body: one per item of the requested type, in order. */
  function ResultsFor(typ: SearchType, b: SearchBody): (rs: seq<SearchResult>)
    ensures |rs| == ItemCount(typ, b)
    ensures forall k :: 0 <= k < |rs| ==> rs[k].typ == typ
  {
    match typ
    case Track => seq(|b.tracks|, k requires 0 <= k < |b.tracks| => TrackResult(b.tracks[k]))
    case Album => seq(|b.albums|, k requires 0 <= k < |b.albums| => AlbumResult(b.albums[k]))
    case Playlist => seq(|b.playlists|, k requires 0 <= k < |b.playlists| => PlaylistResult(b.playlists[k]))
    case Show => seq(|b.shows|, k requires 0 <= k < |b.shows| => ShowResult(b.shows[k]))
    case Episode => seq(|b.episodes|, k requires 0 <= k < |b.episodes| => EpisodeResult(b.episodes[k]))
  }

  /** Result k copies the id, URI, web URL and name of item k of the requested type. */
  lemma ResultsCopyItems(typ: SearchType, b: SearchBody, k: nat)
    requires k < ItemCount(typ, b)
    ensures var r := ResultsFor(typ, b)[k];
      match typ
      case Track => r.id == b.tracks[k].id && r.uri == b.tracks[k].uri && r.url == b.tracks[k].url && r.title == b.tracks[k].name
      case Album => r.id == b.albums[k].id && r.uri == b.albums[k].uri && r.url == b.albums[k].url && r.title == b.albums[k].name
      case Playlist => r.id == b.playlists[k].id && r.uri == b.playlists[k].uri && r.url == b.playlists[k].url && r.title == b.playlists[k].name
      case Show => r.id == b.shows[k].id && r.uri == b.shows[k].uri && r.url == b.shows[k].url && r.title == b.shows[k].name
      case Episode => r.id == b.episodes[k].id && r.uri == b.episodes[k].uri && r.url == b.episodes[k].url && r.title == b.episodes[k].name
  {
  }

  /** The artists loop of the track and album branches: keeps the non-empty names, in order. */
  method ArtistNames(artists: seq<Artist>) returns (names: seq<string>)
    ensures names == ArtistNameList(artists)
  {
    names := [];
    for i := 0 to |artists|
      invariant names == ArtistNameList(artists[..i])
    {
      if artists[i].name != "" {
        names := names + [artists[i].name];
      }
      assert artists[..i + 1][..i] == artists[..i];
    }
    assert artists[..|artists|] == artists;
  }

  /** The track branch of Search: one result per item, subtitle from artists and album. */
  method TrackResults(items: seq<TrackItem>) returns (out: seq<SearchResult>)
    ensures out == ResultsFor(Track, SearchBody(items, [], [], [], []))
  {
    out := [];
    for i := 0 to |items|
      invariant |out| == i && forall k :: 0 <= k < i ==> out[k] == TrackResult(items[k])
    {
      var it := items[i];
      var artists := ArtistNames(it.artists);
      var sub := Join(artists, ", ");
      if it.albumName != "" && sub != "" {
        sub := sub + Dash + it.albumName;
      } else if it.albumName != "" {
        sub := it.albumName;
      }
      out := out + [SearchResult(Track, it.id, it.uri, it.url, it.name, sub)];
    }
  }

  /** The album branch of Search: the subtitle is the joined artist names. */
  method AlbumResults(items: seq<AlbumItem>) returns (out: seq<SearchResult>)
    ensures out == ResultsFor(Album, SearchBody([], items, [], [], []))
  {
    out := [];
    for i := 0 to |items|
      invariant |out| == i && forall k :: 0 <= k < i ==> out[k] == AlbumResult(items[k])
    {
      var it := items[i];
      var artists := ArtistNames(it.artists);
      out := out + [SearchResult(Album, it.id, it.uri, it.url, it.name, Join(artists, ", "))];
    }
  }

  /** The playlist branch of Search: owner name and track count. */
  method PlaylistResults(items: seq<PlaylistItem>) returns (out: seq<SearchResult>)
    ensures out == ResultsFor(Playlist, SearchBody([], [], items, [], []))
  {
    out := [];
    for i := 0 to |items|
      invariant |out| == i && forall k :: 0 <= k < i ==> out[k] == PlaylistResult(items[k])
    {
      var it := items[i];
      var sub := TrimSpace(it.ownerDisplayName);
      if it.tracksTotal > 0 {
        if sub != "" {
          sub := sub + Dash + FormatInt(it.tracksTotal) + " tracks";
        } else {
          sub := FormatInt(it.tracksTotal) + " tracks";
        }
      }
      out := out + [SearchResult(Playlist, it.id, it.uri, it.url, it.name, sub)];
    }
  }

  /** The show branch of Search: the subtitle is the trimmed publisher. */
  method ShowResults(items: seq<ShowItem>) returns (out: seq<SearchResult>)
    ensures out == ResultsFor(Show, SearchBody([], [], [], items, []))
  {
    out := [];
    for i := 0 to |items|
      invariant |out| == i && forall k :: 0 <= k < i ==> out[k] == ShowResult(items[k])
    {
      var it := items[i];
      out := out + [SearchResult(Show, it.id, it.uri, it.url, it.name, TrimSpace(it.publisher))];
    }
  }

  /** The episode branch of Search: the subtitle is the trimmed show name. */
  method EpisodeResults(items: seq<EpisodeItem>) returns (out: seq<SearchResult>)
    ensures out == ResultsFor(Episode, SearchBody([], [], [], [], items))
  {
    out := [];
    for i := 0 to |items|
      invariant |out| == i && forall k :: 0 <= k < i ==> out[k] == EpisodeResult(items[k])
    {
      var it := items[i];
      out := out + [SearchResult(Episode, it.id, it.uri, it.url, it.name, TrimSpace(it.showName))];
    }
  }

  // The client-credentials token cache.

  /** The decoded reply of the token endpoint. */
  datatype TokenReply = TokenReply(accessToken: string, tokenType: string, expiresIn: Int64)

  /** What fetchClientCredentialsToken hands back on success. */
  datatype Grant = Grant(token: string, tokenType: string, expiresIn: int)

  const DefaultExpiresIn: int := 3600

  /**
   * The checks of fetchClientCredentialsToken after decoding: an empty access token is an
   * error, and a non-positive lifetime defaults to 3600 seconds.
   */
  function CheckTokenReply(reply: Result<TokenReply, Error>): (r: Result<Grant, Error>)
    ensures r.Success? <==> reply.Success? && reply.value.accessToken != ""
    ensures reply.Failure? ==> r == Failure(reply.error)
    ensures reply.Success? && reply.value.accessToken == "" ==> r == Failure(EmptyAccessToken)
    ensures r.Success? ==> r.value.token == reply.value.accessToken && r.value.tokenType == reply.value.tokenType
    ensures r.Success? ==> r.value.expiresIn > 0
    ensures r.Success? && reply.value.expiresIn > 0 ==> r.value.expiresIn == reply.value.expiresIn
    ensures r.Success? && reply.value.expiresIn <= 0 ==> r.value.expiresIn == DefaultExpiresIn
  {
    match reply
    case Failure(e) => Failure(e)
    case Success(t) =>
      if t.accessToken == "" then Failure(EmptyAccessToken)
      else Success(Grant(t.accessToken, t.tokenType, if t.expiresIn <= 0 then DefaultExpiresIn else t.expiresIn))
  }

  /** The client's cached credentials. */
  datatype TokenCache = TokenCache(token: string, tokenType: string, expiresAt: int)

  /** A new client: no token, type "Bearer", expiry at the zero time. */
  const InitialCache: TokenCache := TokenCache("", "Bearer", 0)

  /** A cached token is reused only when more than this many seconds remain. */
  const ReuseMargin: int := 30

  predicate Reusable(c: TokenCache, now: int)
  {
    c.token != "" && c.expiresAt - now > ReuseMargin
  }

  /** One run of ensureToken: the new cache, whether the token endpoint was asked, and the error. */
  datatype TokenStep = TokenStep(cache: TokenCache, fetched: bool, err: Option<Error>)

  /** ensureToken as a function of the cache, the time and the token endpoint's reply. */
  function EnsureTokenStep(c: TokenCache, now: int, reply: Result<TokenReply, Error>): (s: TokenStep)
    ensures s.fetched <==> !Reusable(c, now)
    ensures s.err.None? <==> Reusable(c, now) || CheckTokenReply(reply).Success?
    ensures s.err.Some? ==> s.cache == c
    ensures s.err.None? ==> s.cache.token != ""
  {
    if Reusable(c, now) then TokenStep(c, false, None)
    else
      match CheckTokenReply(reply)
      case Failure(e) => TokenStep(c, true, Some(e))
      case Success(g) =>
        var tt := TrimSpace(g.tokenType);
        TokenStep(TokenCache(g.token, if tt != "" then tt else c.tokenType, now + g.expiresIn), true, None)
  }

  /**
   * A refresh replaces the token, sets the expiry to now plus the (defaulted) lifetime and
   * replaces the token type only when the reply's trimmed type is not blank.
   */
  lemma RefreshReplacesToken(c: TokenCache, now: int, t: TokenReply)
    requires !Reusable(c, now) && t.accessToken != ""
    ensures var s := EnsureTokenStep(c, now, Success(t));
      && s.cache.token == t.accessToken
      && s.cache.expiresAt == now + (if t.expiresIn <= 0 then DefaultExpiresIn else t.expiresIn)
      && s.cache.tokenType == (if TrimSpace(t.tokenType) != "" then TrimSpace(t.tokenType) else c.tokenType)
  {
  }

  /**
   * A token fetched at `now` with a lifetime of more than 30 seconds is reused, without a
   * fetch, by every later call made before the last 30 seconds of that lifetime.
   */
  lemma RefreshedTokenIsReused(c: TokenCache, now: int, reply: Result<TokenReply, Error>, later: int, reply': Result<TokenReply, Error>)
    requires EnsureTokenStep(c, now, reply).fetched && EnsureTokenStep(c, now, reply).err.None?
    requires now <= later < now + CheckTokenReply(reply).value.expiresIn - ReuseMargin
    ensures var s := EnsureTokenStep(c, now, reply);
      EnsureTokenStep(s.cache, later, reply') == TokenStep(s.cache, false, None)
  {
  }

  /** The parameters and Authorization header of the search request that was sent. */
  datatype SearchRequest = SearchRequest(params: map<string, string>, authorization: string)

  /** What one call of Search does: the new cache, whether a token was fetched, the request sent, the answer. */
  datatype SearchOutcome = SearchOutcome(
    cache: TokenCache, fetched: bool, request: Option<SearchRequest>, result: Result<seq<SearchResult>, Error>)

  function Authorization(c: TokenCache): string
  {
    c.tokenType + " " + c.token
  }

  /**
   * Search as a function of the cache, its arguments, the time, the token endpoint's reply and
   * the decoded search body (or the failure of that request).
   */
  function SearchSpec(c: TokenCache, query: string, typ: SearchType, limit: int, market: string, now: int,
                      reply: Result<TokenReply, Error>, body: Result<SearchBody, Error>): (o: SearchOutcome)
    ensures o.result.Success? ==> body.Success? && |o.result.value| == ItemCount(typ, body.value)
    ensures o.result.Success? ==> forall k :: 0 <= k < |o.result.value| ==> o.result.value[k].typ == typ
    ensures o.request.Some? ==> var params := o.request.value.params;
      "type" in params && params["type"] == typ.Name() && "q" in params && params["q"] == TrimSpace(query)
    ensures o.request.Some? ==> o.cache.token != "" && o.request.value.authorization == Authorization(o.cache)
  {
    match NormalizeSearch(query, limit, market)
    case Failure(e) => SearchOutcome(c, false, None, Failure(e))
    case Success(p) =>
      var step := EnsureTokenStep(c, now, reply);
      if step.err.Some? then SearchOutcome(step.cache, step.fetched, None, Failure(step.err.value))
      else
        var request := Some(SearchRequest(QueryParams(p, typ), Authorization(step.cache)));
        match body
        case Failure(e) => SearchOutcome(step.cache, step.fetched, request, Failure(e))
        case Success(b) => SearchOutcome(step.cache, step.fetched, request, Success(ResultsFor(typ, b)))
  }

  /** A blank query is rejected before the token cache is consulted and before any request. */
  lemma BlankQueryRejected(c: TokenCache, query: string, typ: SearchType, limit: int, market: string, now: int,
                           reply: Result<TokenReply, Error>, body: Result<SearchBody, Error>)
    requires AllSpace(query)
    ensures SearchSpec(c, query, typ, limit, market, now, reply, body) == SearchOutcome(c, false, None, Failure(QueryRequired))
  {
  }

  /** The search request always carries a limit in 1..50. */
  lemma RequestLimitInRange(c: TokenCache, query: string, typ: SearchType, limit: int, market: string, now: int,
                            reply: Result<TokenReply, Error>, body: Result<SearchBody, Error>)
    requires SearchSpec(c, query, typ, limit, market, now, reply, body).request.Some?
    ensures var params := SearchSpec(c, query, typ, limit, market, now, reply, body).request.value.params;
      exists n :: 1 <= n <= MaxLimit && Atoi(params["limit"]) == Success(n)
  {
    var p := NormalizeSearch(query, limit, market).value;
    assert Atoi(QueryParams(p, typ)["limit"]) == Success(p.limit);
  }

  /** A search whose arguments pass and whose token is in hand sends its request and answers with the body's results. */
  lemma SearchSpecSent(c: TokenCache, query: string, typ: SearchType, limit: int, market: string, now: int,
                       reply: Result<TokenReply, Error>, b: SearchBody, p: SearchParams, step: TokenStep)
    requires NormalizeSearch(query, limit, market) == Success(p)
    requires EnsureTokenStep(c, now, reply) == step && step.err.None?
    ensures SearchSpec(c, query, typ, limit, market, now, reply, Success(b)) ==
      SearchOutcome(step.cache, step.fetched, Some(SearchRequest(QueryParams(p, typ), Authorization(step.cache))),
                    Success(ResultsFor(typ, b)))
  {
  }

  /** The token endpoint's reply in the client's own test. */
  function TestReply(): Result<TokenReply, Error>
  {
    Success(TokenReply("tok", "Bearer", 3600))
  }

  /** The one track of the search body in the client's own test. */
  function TestItem(): TrackItem
  {
    TrackItem("t1", "Song 1", "spotify:track:t1", "https://open.spotify.com/track/t1", [Artist("Artist A")], "Album X")
  }

  function TestBody(): SearchBody
  {
    SearchBody([TestItem()], [], [], [], [])
  }

  /** The test's search: the normalised parameters and the query string they become. */
  lemma TestSearchParams()
    ensures NormalizeSearch("hello world", 2, "") == Success(SearchParams("hello world", 2, ""))
    ensures QueryParams(SearchParams("hello world", 2, ""), Track) == map["q" := "hello world", "type" := "track", "limit" := "2"]
  {
    TrimmedIsFixed("hello world");
    TrimmedIsFixed("");
    assert FormatInt(2) == "2";
  }

  /** The test's body: one track by "Artist A" on "Album X" gives one result. */
  lemma TestTrackResults()
    ensures ResultsFor(Track, TestBody()) ==
      [SearchResult(Track, "t1", "spotify:track:t1", "https://open.spotify.com/track/t1", "Song 1", "Artist A" + Dash + "Album X")]
  {
    var item := TestItem();
    assert ArtistNameList(item.artists) == ["Artist A"] by {
      assert item.artists[..0] == [];
    }
    assert TrackResult(item).subtitle == "Artist A" + Dash + "Album X";
  }

  /** The test's token reply turns a new client's cache into token "tok" of type "Bearer" for an hour. */
  lemma TestTokenSteps(now: int)
    ensures EnsureTokenStep(InitialCache, now, TestReply()) == TokenStep(TokenCache("tok", "Bearer", now + 3600), true, None)
    ensures EnsureTokenStep(TokenCache("tok", "Bearer", now + 3600), now, TestReply()) ==
      TokenStep(TokenCache("tok", "Bearer", now + 3600), false, None)
  {
    TrimmedIsFixed("Bearer");
  }

  /**
   * The scenario of the client's own test: a new client searches "hello world" for tracks
   * with limit 2, fetches one token and gets one result with subtitle "Artist A — Album X";
   * the second identical search reuses the cached token.
   */
  lemma TwoSearchesFetchOnce(now: int)
    ensures var first := SearchSpec(InitialCache, "hello world", Track, 2, "", now, TestReply(), Success(TestBody()));
      var second := SearchSpec(first.cache, "hello world", Track, 2, "", now, TestReply(), Success(TestBody()));
      && first.fetched && !second.fetched
      && first.request.Some? && first.request.value.authorization == "Bearer tok"
      && first.request.value.params == map["q" := "hello world", "type" := "track", "limit" := "2"]
      && first.result == Success([SearchResult(Track, "t1", "spotify:track:t1", "https://open.spotify.com/track/t1",
                                               "Song 1", "Artist A" + Dash + "Album X")])
  {
    var p := SearchParams("hello world", 2, "");
    var cache := TokenCache("tok", "Bearer", now + 3600);
    TestSearchParams();
    TestTrackResults();
    TestTokenSteps(now);
    SearchSpecSent(InitialCache, "hello world", Track, 2, "", now, TestReply(), TestBody(), p, TokenStep(cache, true, None));
    SearchSpecSent(cache, "hello world", Track, 2, "", now, TestReply(), TestBody(), p, TokenStep(cache, false, None));
    var first := SearchSpec(InitialCache, "hello world", Track, 2, "", now, TestReply(), Success(TestBody()));
    assert first.cache == cache;
    assert first.result == Success(ResultsFor(Track, TestBody()));
  }

  /**
   * The subtitle expected at internal/spotify/client_test.go:95 spells the separator as the
   * three characters U+00E2 U+20AC U+201D (the em dash's UTF-8 bytes read as Windows-1252);
   * the subtitle the client builds for that test's item differs from it.
   */
  lemma TestExpectationDiffers()
    ensures TrackSubtitle(TestItem()) != "Artist A \U{00E2}\U{20AC}\U{201D} Album X"
  {
    var item := TestItem();
    assert ArtistNameList(item.artists) == ["Artist A"] by {
      assert item.artists[..0] == [];
    }
    assert TrackSubtitle(item)[9] == '\U{2014}';
  }

  /** The Spotify Web API client: credentials and the mutable token cache. */
  class Client {
    const clientId: string
    const clientSecret: string
    var token: string
    var tokenType: string
    var expiresAt: int

    /** New: no token yet, token type "Bearer". */
    constructor (clientId: string, clientSecret: string)
      ensures this.clientId == clientId && this.clientSecret == clientSecret
      ensures Cache() == InitialCache
    {
      this.clientId := clientId;
      this.clientSecret := clientSecret;
      token := "";
      tokenType := "Bearer";
      expiresAt := 0;
    }

    function Cache(): TokenCache
      reads this
    {
      TokenCache(token, tokenType, expiresAt)
    }

    /** ensureToken: reuse the cached token or install a freshly fetched one. */
    method EnsureToken(now: int, reply: Result<TokenReply, Error>) returns (err: Option<Error>)
      modifies this
      ensures var s := EnsureTokenStep(old(Cache()), now, reply);
        Cache() == s.cache && err == s.err
    {
      if token != "" && expiresAt - now > ReuseMargin {
        return None;
      }
      var grant := CheckTokenReply(reply);
      if grant.Failure? {
        return Some(grant.error);
      }
      token := grant.value.token;
      var tt := TrimSpace(grant.value.tokenType);
      if tt != "" {
        tokenType := tt;
      }
      expiresAt := now + grant.value.expiresIn;
      return None;
    }

    /** Search: normalise the arguments, make sure of a token, convert the decoded items. */
    method Search(query: string, typ: SearchType, limit: int, market: string, now: int,
                  reply: Result<TokenReply, Error>, body: Result<SearchBody, Error>)
      returns (r: Result<seq<SearchResult>, Error>)
      modifies this
      ensures var o := SearchSpec(old(Cache()), query, typ, limit, market, now, reply, body);
        Cache() == o.cache && r == o.result
    {
      var query := TrimSpace(query);
      if query == "" {
        return Failure(QueryRequired);
      }
      var limit := limit;
      if limit <= 0 {
        limit := DefaultLimit;
      }
      if limit > MaxLimit {
        limit := MaxLimit;
      }
      var err := EnsureToken(now, reply);
      if err.Some? {
        return Failure(err.value);
      }
      if body.Failure? {
        return Failure(body.error);
      }
      var b := body.value;
      var out;
      match typ {
        case Track => out := TrackResults(b.tracks);
        case Album => out := AlbumResults(b.albums);
        case Playlist => out := PlaylistResults(b.playlists);
        case Show => out := ShowResults(b.shows);
        case Episode => out := EpisodeResults(b.episodes);
      }
      return Success(out);
    }
  }
}
