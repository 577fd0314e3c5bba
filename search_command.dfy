/**
 * The `search spotify <query>` command (internal/cli/search.go): its fixed chain of checks,
 * the credential choice, the search on a new client, the 1-based result selection for
 * `--open`/`--enqueue`, and the listing it prints. The Spotify search itself is the client of
 * module Spotify, started from a fresh token cache. The collaborators that are not part of this
 * model (finding the group coordinator, recognising a Spotify reference, enqueueing) are
 * parameters: their outcomes, and the recogniser as a predicate.
 */
module SearchCommand {
  import opened Wrappers
  import opened Text
  import Spotify

  /** The global flags the command reads. */
  datatype RootFlags = RootFlags(ip: string, name: string, json: bool)

  /** The command's own flags. */
  datatype Options = Options(
    typ: string, limit: int, market: string, clientId: string, clientSecret: string,
    doOpen: bool, doEnqueue: bool, index: int)

  /** SPOTIFY_CLIENT_ID and SPOTIFY_CLIENT_SECRET as found in the environment. */
  datatype Env = Env(clientId: string, clientSecret: string)

  /**
   * Everything outside the command: the environment, the time, the outcomes of the two Spotify
   * requests, of locating the coordinator and of the enqueue.
   */
  datatype World = World(
    env: Env, now: int,
    tokenReply: Result<Spotify.TokenReply, Spotify.Error>,
    searchBody: Result<Spotify.SearchBody, Spotify.Error>,
    coordinatorErr: Option<string>, enqueueErr: Option<string>)

  datatype Error =
    | BothActions
    | TargetRequired
    | MissingCredentials
    | SpotifyError(err: Spotify.Error)
    | NoResults
    | IndexOutOfRange(index: int, count: int)
    | CoordinatorError(detail: string)
    | UnsupportedRef(ref: string)
    | EnqueueError(detail: string)

  /** The credentials a client is made with. */
  datatype Credentials = Credentials(clientId: string, clientSecret: string)

  /** The search the command issued, with the arguments it passed. */
  datatype SearchCall = SearchCall(creds: Credentials, query: string, typ: Spotify.SearchType, limit: int, market: string)

  /** The enqueue the command issued. */
  datatype EnqueueRequest = EnqueueRequest(ref: string, playNow: bool)

  datatype Output = Json(results: seq<Spotify.SearchResult>) | Table(lines: seq<string>)

  /** What one run did: the search it issued, the enqueue it issued, and its output or error. */
  datatype Outcome = Outcome(search: Option<SearchCall>, enqueued: Option<EnqueueRequest>, result: Result<Output, Error>)

  /** Trimmed flags when both are non-blank; otherwise the trimmed environment, which must supply both. */
  function ChooseCredentials(o: Options, env: Env): (r: Result<Credentials, Error>)
    ensures TrimSpace(o.clientId) != "" && TrimSpace(o.clientSecret) != "" ==>
      r == Success(Credentials(TrimSpace(o.clientId), TrimSpace(o.clientSecret)))
    ensures r.Failure? <==>
      (TrimSpace(o.clientId) == "" || TrimSpace(o.clientSecret) == "") && (TrimSpace(env.clientId) == "" || TrimSpace(env.clientSecret) == "")
    ensures r.Failure? ==> r.error == MissingCredentials
    ensures r.Success? ==> r.value.clientId != "" && r.value.clientSecret != ""
  {
    if TrimSpace(o.clientId) != "" && TrimSpace(o.clientSecret) != "" then
      Success(Credentials(TrimSpace(o.clientId), TrimSpace(o.clientSecret)))
    else
      var id := TrimSpace(env.clientId);
      var secret := TrimSpace(env.clientSecret);
      if id == "" || secret == "" then Failure(MissingCredentials) else Success(Credentials(id, secret))
  }

  /** The index in effect: a non-positive `--index` counts as 1. */
  function EffectiveIndex(index: int): (i: int)
    ensures i >= 1
    ensures index >= 1 ==> i == index
    ensures index <= 0 ==> i == 1
  {
    if index <= 0 then 1 else index
  }

  const Header: string := "INDEX\tTYPE\tTITLE\tDETAILS\tURI"

  /** One line of the listing: number, type, title, details and URI, tab-separated. */
  function Row(n: int, r: Spotify.SearchResult): string
  {
    FormatInt(n) + "\t" + r.typ.Name() + "\t" + r.title + "\t" + r.subtitle + "\t" + r.uri
  }

  /** The listing: the header, then one row per result, numbered from 1. */
  function Listing(results: seq<Spotify.SearchResult>): (lines: seq<string>)
    ensures |lines| == |results| + 1 && lines[0] == Header
  {
    [Header] + seq(|results|, k requires 0 <= k < |results| => Row(k + 1, results[k]))
  }

  /** The print loop of the command. */
  method ListingLines(results: seq<Spotify.SearchResult>) returns (lines: seq<string>)
    ensures lines == Listing(results)
  {
    lines := [Header];
    for i := 0 to |results|
      invariant |lines| == i + 1 && lines[0] == Header
      invariant forall k :: 0 <= k < i ==> lines[k + 1] == Row(k + 1, results[k])
    {
      var r := results[i];
      lines := lines + [FormatInt(i + 1) + "\t" + r.typ.Name() + "\t" + r.title + "\t" + r.subtitle + "\t" + r.uri];
    }
  }

  /**
   * Row k of the listing starts with a cell that reads back as k + 1, followed by a tab and
   * the type, title, details and URI of the k-th result.
   */
  lemma ListingNumbersRows(results: seq<Spotify.SearchResult>, k: nat)
    requires |results| <= MaxInt64 && k < |results|
    ensures exists cell ::
      && Listing(results)[k + 1] == cell + "\t" + results[k].typ.Name() + "\t" + results[k].title + "\t" + results[k].subtitle + "\t" + results[k].uri
      && '\t' !in cell
      && Atoi(cell) == Success(k + 1)
  {
    var cell := FormatInt(k + 1);
    AtoiFormatInt(k + 1);
    assert Listing(results)[k + 1] == Row(k + 1, results[k]);
    assert forall j :: 0 <= j < |cell| ==> IsDigit(cell[j]);
  }

  /** The selection and enqueue step, once the search has produced a non-empty result list. */
  function Act(o: Options, results: seq<Spotify.SearchResult>, w: World, isSpotifyRef: string -> bool): (r: Result<Option<EnqueueRequest>, Error>)
    requires results != []
  {
    if !(o.doOpen || o.doEnqueue) then Success(None)
    else
      var index := EffectiveIndex(o.index);
      if index > |results| then Failure(IndexOutOfRange(index, |results|))
      else
        var ref := results[index - 1].uri;
        if w.coordinatorErr.Some? then Failure(CoordinatorError(w.coordinatorErr.value))
        else if !isSpotifyRef(ref) then Failure(UnsupportedRef(ref))
        else Success(Some(EnqueueRequest(ref, o.doOpen)))
  }

  /** What the command does once its search has answered. */
  function Finish(root: RootFlags, o: Options, call: SearchCall, results: Result<seq<Spotify.SearchResult>, Spotify.Error>,
                  w: World, isSpotifyRef: string -> bool): (out: Outcome)
    ensures out.search == Some(call)
    ensures out.enqueued.Some? ==> out.enqueued.value.playNow == o.doOpen && isSpotifyRef(out.enqueued.value.ref)
    ensures out.enqueued.Some? ==>
      && results.Success? && EffectiveIndex(o.index) <= |results.value|
      && out.enqueued.value.ref == results.value[EffectiveIndex(o.index) - 1].uri
  {
    match results
    case Failure(e) => Outcome(Some(call), None, Failure(SpotifyError(e)))
    case Success(rs) =>
      if rs == [] then Outcome(Some(call), None, Failure(NoResults))
      else
        match Act(o, rs, w, isSpotifyRef)
        case Failure(e) => Outcome(Some(call), None, Failure(e))
        case Success(enq) =>
          if enq.Some? && w.enqueueErr.Some? then Outcome(Some(call), enq, Failure(EnqueueError(w.enqueueErr.value)))
          else if root.json then Outcome(Some(call), enq, Success(Json(rs)))
          else Outcome(Some(call), enq, Success(Table(Listing(rs))))
  }

  /** The results the command's search returns: a search on a new client, hence an empty token cache. */
  function SearchResults(call: SearchCall, w: World): Result<seq<Spotify.SearchResult>, Spotify.Error>
  {
    Spotify.SearchSpec(Spotify.InitialCache, call.query, call.typ, call.limit, call.market, w.now, w.tokenReply, w.searchBody).result
  }

  /** The search the command issues, when its checks, the type and the credentials pass. */
  function Plan(root: RootFlags, o: Options, args: seq<string>, w: World): Result<SearchCall, Error>
  {
    if o.doOpen && o.doEnqueue then Failure(BothActions)
    else if (o.doOpen || o.doEnqueue) && root.ip == "" && root.name == "" then Failure(TargetRequired)
    else
      var query := TrimSpace(Join(args, " "));
      match Spotify.ParseSearchType(o.typ)
      case Failure(e) => Failure(SpotifyError(e))
      case Success(st) =>
        match ChooseCredentials(o, w.env)
        case Failure(e) => Failure(e)
        case Success(creds) => Success(SearchCall(creds, query, st, o.limit, o.market))
  }

  /** The command's RunE, as a function of its flags, arguments and the world around it. */
  function Run(root: RootFlags, o: Options, args: seq<string>, w: World, isSpotifyRef: string -> bool): (out: Outcome)
    ensures out.enqueued.Some? ==> out.search.Some? && (o.doOpen || o.doEnqueue) && !(o.doOpen && o.doEnqueue)
    ensures out.enqueued.Some? ==> out.enqueued.value.playNow == o.doOpen && isSpotifyRef(out.enqueued.value.ref)
    ensures out.result.Success? ==> out.search.Some?
    ensures out.search.Some? <==> Plan(root, o, args, w).Success?
    ensures out.search.Some? ==> out.search.value.query == TrimSpace(Join(args, " "))
  {
    match Plan(root, o, args, w)
    case Failure(e) => Outcome(None, None, Failure(e))
    case Success(call) => Finish(root, o, call, SearchResults(call, w), w, isSpotifyRef)
  }

  /** Once the checks pass, the run is the search followed by Finish. */
  lemma RunAfterPlan(root: RootFlags, o: Options, args: seq<string>, w: World, isSpotifyRef: string -> bool)
    requires Plan(root, o, args, w).Success?
    ensures var call := Plan(root, o, args, w).value;
      Run(root, o, args, w, isSpotifyRef) == Finish(root, o, call, SearchResults(call, w), w, isSpotifyRef)
  {
  }

  /** Asking for both `--open` and `--enqueue` is rejected before anything else happens. */
  lemma BothActionsRejected(root: RootFlags, o: Options, args: seq<string>, w: World, isSpotifyRef: string -> bool)
    requires o.doOpen && o.doEnqueue
    ensures Run(root, o, args, w, isSpotifyRef) == Outcome(None, None, Failure(BothActions))
  {
  }

  /** `--open` or `--enqueue` without `--ip` or `--name` is rejected before anything else happens. */
  lemma ActionNeedsTarget(root: RootFlags, o: Options, args: seq<string>, w: World, isSpotifyRef: string -> bool)
    requires o.doOpen != o.doEnqueue && root.ip == "" && root.name == ""
    ensures Run(root, o, args, w, isSpotifyRef) == Outcome(None, None, Failure(TargetRequired))
  {
  }

  /**
   * The search is issued exactly when the checks, the type and the credentials pass, with the
   * arguments joined by single spaces and trimmed as its query.
   */
  lemma SearchIssuedIff(root: RootFlags, o: Options, args: seq<string>, w: World, isSpotifyRef: string -> bool)
    ensures Run(root, o, args, w, isSpotifyRef).search.Some? <==>
      && !(o.doOpen && o.doEnqueue)
      && !((o.doOpen || o.doEnqueue) && root.ip == "" && root.name == "")
      && Spotify.ParseSearchType(o.typ).Success?
      && ChooseCredentials(o, w.env).Success?
    ensures Run(root, o, args, w, isSpotifyRef).search.Some? ==>
      Run(root, o, args, w, isSpotifyRef).search.value ==
        SearchCall(ChooseCredentials(o, w.env).value, TrimSpace(Join(args, " ")), Spotify.ParseSearchType(o.typ).value, o.limit, o.market)
  {
  }

  /** An empty result list is the error "no results", and nothing is enqueued. */
  lemma EmptyResultsRejected(root: RootFlags, o: Options, call: SearchCall, w: World, isSpotifyRef: string -> bool)
    ensures Finish(root, o, call, Success([]), w, isSpotifyRef) == Outcome(Some(call), None, Failure(NoResults))
  {
  }

  /**
   * With `--open` or `--enqueue`, an effective index beyond the result list is an error and
   * nothing is enqueued; otherwise the selected result is number index - 1 (from 0). A
   * coordinator failure or a reference the recogniser rejects is an error with nothing
   * enqueued; an accepted reference is enqueued with PlayNow equal to `--open`.
   */
  lemma Selection(root: RootFlags, o: Options, call: SearchCall, w: World, isSpotifyRef: string -> bool,
                  results: seq<Spotify.SearchResult>)
    requires (o.doOpen || o.doEnqueue) && results != []
    ensures var out := Finish(root, o, call, Success(results), w, isSpotifyRef);
      var index := EffectiveIndex(o.index);
      && (index > |results| ==> out == Outcome(Some(call), None, Failure(IndexOutOfRange(index, |results|))))
      && (index <= |results| && w.coordinatorErr.Some? ==>
            out == Outcome(Some(call), None, Failure(CoordinatorError(w.coordinatorErr.value))))
      && (index <= |results| && w.coordinatorErr.None? && !isSpotifyRef(results[index - 1].uri) ==>
            out == Outcome(Some(call), None, Failure(UnsupportedRef(results[index - 1].uri))))
      && (index <= |results| && w.coordinatorErr.None? && isSpotifyRef(results[index - 1].uri) ==>
            out.enqueued == Some(EnqueueRequest(results[index - 1].uri, o.doOpen)))
  {
  }

  /** A non-positive `--index` selects the first result. */
  lemma DefaultIndexSelectsFirst(root: RootFlags, o: Options, call: SearchCall, w: World, isSpotifyRef: string -> bool,
                                 results: seq<Spotify.SearchResult>)
    requires o.index <= 0
    requires Finish(root, o, call, Success(results), w, isSpotifyRef).enqueued.Some?
    ensures results != [] && Finish(root, o, call, Success(results), w, isSpotifyRef).enqueued.value.ref == results[0].uri
  {
  }

  /** Without `--open` or `--enqueue`, a non-empty result list is printed and nothing is enqueued. */
  lemma PlainSearchPrints(root: RootFlags, o: Options, call: SearchCall, w: World, isSpotifyRef: string -> bool,
                          results: seq<Spotify.SearchResult>)
    requires !o.doOpen && !o.doEnqueue && results != []
    ensures Finish(root, o, call, Success(results), w, isSpotifyRef) ==
      Outcome(Some(call), None, Success(if root.json then Json(results) else Table(Listing(results))))
  {
  }
}
