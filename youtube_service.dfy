/**
 * The YouTube provider: an authorised client built from the stored social
 * login (with the handler that writes refreshed tokens back), the calls to the
 * YouTube Data API, and the normalisation of their responses into the unified
 * feed envelope. The API is an input: a record of functions from the request
 * to the response or an error.
 */
module YouTubeService {
  import opened Wrappers
  import opened Store
  import opened FeedVideos

  // ---------------------------------------------------------------------
  // JavaScript truthiness of the optional values the code tests

  predicate Truthy(s: Option<string>) {
    s.Some? && s.value != ""
  }

  predicate TruthyNumber(n: Option<int>) {
    n.Some? && n.value != 0
  }

  /** `s || ''`. */
  function OrEmpty(s: Option<string>): string {
    if s.Some? then s.value else ""
  }

  // ---------------------------------------------------------------------
  // The authorised client and the token-refresh handler

  /** The credentials set on the OAuth2 client. */
  datatype Credentials = Credentials(accessToken: string, refreshToken: Option<string>, expiryDate: Option<int>)

  /** An OAuth2 client bound to one stored social login. */
  datatype AuthClient = AuthClient(loginId: Id, credentials: Credentials)

  /** The payload of the client's 'tokens' event. */
  datatype Tokens = Tokens(accessToken: Option<string>, refreshToken: Option<string>, expiryDate: Option<int>)

  const YOUTUBE: string := "youtube"

  function WhereYouTube(userId: Id): LoginWhere {
    WhereUserProvider(userId, YOUTUBE)
  }

  /**
   * `getAuthClient`: the first youtube login of the user, its refresh token and
   * expiry passed on only when truthy; no such login is an error.
   */
  function AuthClientFor(t: Tables, userId: Id): (r: Result<AuthClient, Error>)
    ensures r.Failure? <==> forall k :: 0 <= k < |t.logins| ==> !(t.logins[k].userId == userId && t.logins[k].provider == YOUTUBE)
    ensures r.Failure? ==> r.error == NoYouTubeAccount
    ensures r.Success? ==>
      var l := t.logins[FirstLogin(t.logins, WhereYouTube(userId)).value];
      && l.userId == userId && l.provider == YOUTUBE
      && r.value.loginId == l.id
      && r.value.credentials.accessToken == l.accessToken
      && (r.value.credentials.refreshToken.Some? <==> Truthy(l.refreshToken))
      && (r.value.credentials.refreshToken.Some? ==> r.value.credentials.refreshToken == l.refreshToken)
      && (r.value.credentials.expiryDate.Some? <==> TruthyNumber(l.expiresAt))
      && (r.value.credentials.expiryDate.Some? ==> r.value.credentials.expiryDate == l.expiresAt)
  {
    match FindLogin(t.logins, WhereYouTube(userId))
    case None => Failure(NoYouTubeAccount)
    case Some(l) =>
      Success(AuthClient(l.id, Credentials(
        l.accessToken,
        if Truthy(l.refreshToken) then l.refreshToken else None,
        if TruthyNumber(l.expiresAt) then l.expiresAt else None)))
  }

  /** The update the 'tokens' handler writes, if any: none without an access token. */
  function RefreshUpdate(tokens: Tokens): Option<LoginUpdate> {
    if Truthy(tokens.accessToken) then
      Some(LoginUpdate(
        tokens.accessToken,
        if Truthy(tokens.refreshToken) then tokens.refreshToken else None,
        if TruthyNumber(tokens.expiryDate) then tokens.expiryDate else None))
    else None
  }

  /**
   * The 'tokens' handler's effect on the store: the access token is always
   * overwritten, the refresh token and expiry only when the payload has them,
   * and only the login the client was built from is touched.
   */
  function ApplyTokens(t: Tables, loginId: Id, tokens: Tokens): (r: Result<Tables, Error>)
    ensures !Truthy(tokens.accessToken) ==> r == Success(t)
    ensures r.Failure? <==> Truthy(tokens.accessToken) && forall k :: 0 <= k < |t.logins| ==> t.logins[k].id != loginId
    ensures r.Failure? ==> r.error == RecordNotFound
    ensures r.Success? ==>
      && r.value.users == t.users && r.value.sessions == t.sessions && r.value.nextId == t.nextId
      && |r.value.logins| == |t.logins|
      && (forall k :: 0 <= k < |t.logins| && t.logins[k].id != loginId ==> r.value.logins[k] == t.logins[k])
    ensures r.Success? && Truthy(tokens.accessToken) ==>
      var j := FirstLogin(t.logins, WhereId(loginId)).value;
      var was, now := t.logins[j], r.value.logins[j];
      && now.id == was.id && now.userId == was.userId
      && now.provider == was.provider && now.providerId == was.providerId
      && now.accessToken == tokens.accessToken.value
      && now.refreshToken == (if Truthy(tokens.refreshToken) then tokens.refreshToken else was.refreshToken)
      && now.expiresAt == (if TruthyNumber(tokens.expiryDate) then tokens.expiryDate else was.expiresAt)
      && (forall k :: 0 <= k < |t.logins| && k != j ==> r.value.logins[k] == t.logins[k])
  {
    match RefreshUpdate(tokens)
    case None => Success(t)
    case Some(d) =>
      match UpdateLoginRow(t, loginId, d)
      case Success((t', _)) =>
        var j := FirstLogin(t.logins, WhereId(loginId)).value;
        assert t'.logins == t.logins[j := ApplyUpdate(t.logins[j], d)];
        Success(t')
      case Failure(e) => Failure(e)
  }

  /** Applying the same refresh payload twice leaves the store as applying it once. */
  lemma ApplyTokensIdempotent(t: Tables, loginId: Id, tokens: Tokens)
    ensures ApplyTokens(t, loginId, tokens).Success? ==>
      ApplyTokens(ApplyTokens(t, loginId, tokens).value, loginId, tokens) == ApplyTokens(t, loginId, tokens)
  {
    var r := ApplyTokens(t, loginId, tokens);
    if r.Success? && Truthy(tokens.accessToken) {
      var t' := r.value;
      var j := FirstLogin(t.logins, WhereId(loginId)).value;
      var d := RefreshUpdate(tokens).value;
      assert forall k :: 0 <= k < |t.logins| ==> t'.logins[k].id == t.logins[k].id;
      assert FirstLogin(t'.logins, WhereId(loginId)) == Some(j);
      assert ApplyUpdate(t'.logins[j], d) == t'.logins[j];
      assert t'.logins[j := t'.logins[j]] == t'.logins;
    }
  }

  /** The refresh handler keeps the store's keys and references intact. */
  lemma ApplyTokensConsistent(t: Tables, loginId: Id, tokens: Tokens)
    requires Consistent(t)
    ensures ApplyTokens(t, loginId, tokens).Success? ==> Consistent(ApplyTokens(t, loginId, tokens).value)
  {
    if Truthy(tokens.accessToken) {
      UpdateLoginRowConsistent(t, loginId, RefreshUpdate(tokens).value);
    }
  }

  // ---------------------------------------------------------------------
  // The API's responses, as far as the service reads them

  datatype ResourceId = ResourceId(channelId: Option<string>)
  datatype SubscriptionSnippet = SubscriptionSnippet(resourceId: Option<ResourceId>)
  datatype Subscription = Subscription(snippet: Option<SubscriptionSnippet>)
  datatype SubscriptionListResponse = SubscriptionListResponse(items: Option<seq<Subscription>>)

  datatype Thumbnail = Thumbnail(url: Option<string>)
  datatype Thumbnails = Thumbnails(high: Option<Thumbnail>, default: Option<Thumbnail>)
  datatype Snippet = Snippet(
    title: Option<string>,
    description: Option<string>,
    thumbnails: Option<Thumbnails>,
    channelTitle: Option<string>,
    channelId: Option<string>,
    publishedAt: Option<string>)

  datatype SearchResultId = SearchResultId(videoId: Option<string>)
  datatype SearchResult = SearchResult(id: Option<SearchResultId>, snippet: Option<Snippet>)
  datatype SearchListResponse = SearchListResponse(items: Option<seq<SearchResult>>)

  datatype Statistics = Statistics(viewCount: Option<string>, likeCount: Option<string>)
  datatype ContentDetails = ContentDetails(duration: Option<string>)
  datatype Video = Video(
    id: Option<string>,
    snippet: Option<Snippet>,
    statistics: Option<Statistics>,
    contentDetails: Option<ContentDetails>)
  datatype VideoListResponse = VideoListResponse(items: Option<seq<Video>>)

  datatype Channel = Channel(id: Option<string>, title: Option<string>)
  datatype ChannelListResponse = ChannelListResponse(items: Option<seq<Channel>>)

  /**
   * The remote calls: `subscriptions.list` (mine, 50 per page),
   * `channels.list` (mine), `search.list` for one channel (5 newest videos)
   * and `videos.list` (the mostPopular chart with a page size).
   */
  datatype YouTubeApi = YouTubeApi(
    subscriptionsList: Credentials -> Result<SubscriptionListResponse, Error>,
    channelsList: Credentials -> Result<ChannelListResponse, Error>,
    searchList: (Credentials, string) -> Result<SearchListResponse, Error>,
    videosList: (Credentials, int) -> Result<VideoListResponse, Error>)


  const WATCH_PREFIX: string := "https://youtube.com/watch?v="

  // ---------------------------------------------------------------------
  // getSubscriptions and getUserInfo

  /** `getSubscriptions`: the first page of the user's subscriptions, `[]` for a response without items. */
  function Subscriptions(t: Tables, api: YouTubeApi, userId: Id): (r: Result<seq<Subscription>, Error>)
    ensures AuthClientFor(t, userId).Failure? ==> r == Failure(NoYouTubeAccount)
    ensures AuthClientFor(t, userId).Success? ==>
      var resp := api.subscriptionsList(AuthClientFor(t, userId).value.credentials);
      && (resp.Failure? ==> r == Failure(resp.error))
      && (resp.Success? && resp.value.items.None? ==> r == Success([]))
      && (resp.Success? && resp.value.items.Some? ==> r == Success(resp.value.items.value))
  {
    var client :- AuthClientFor(t, userId);
    var resp :- api.subscriptionsList(client.credentials);
    Success(if resp.items.Some? then resp.items.value else [])
  }

  /** `getUserInfo`: the first channel of the user, or none for a missing or empty list. */
  function UserInfo(t: Tables, api: YouTubeApi, userId: Id): (r: Result<Option<Channel>, Error>)
    ensures AuthClientFor(t, userId).Failure? ==> r == Failure(NoYouTubeAccount)
    ensures AuthClientFor(t, userId).Success? ==>
      var resp := api.channelsList(AuthClientFor(t, userId).value.credentials);
      && (resp.Failure? ==> r == Failure(resp.error))
      && (resp.Success? ==>
            && (r.Success? && r.value.None? <==> resp.value.items.None? || |resp.value.items.value| == 0)
            && (r.Success? && r.value.Some? ==> r.value.value == resp.value.items.value[0]))
  {
    var client :- AuthClientFor(t, userId);
    var resp :- api.channelsList(client.credentials);
    if resp.items.None? || |resp.items.value| == 0 then Success(None)
    else Success(Some(resp.items.value[0]))
  }

  // ---------------------------------------------------------------------
  // Channel ids of the subscriptions, and the cap on them

  /** `sub.snippet.resourceId.channelId`, when every step is present and the id is non-empty. */
  function ChannelIdOf(s: Subscription): Option<string> {
    if s.snippet.Some? && s.snippet.value.resourceId.Some? && Truthy(s.snippet.value.resourceId.value.channelId)
    then s.snippet.value.resourceId.value.channelId
    else None
  }

  /** The channel ids of the subscriptions that have one, in listing order. */
  function ChannelIds(subs: seq<Subscription>): (r: seq<string>)
    ensures |r| <= |subs|
    ensures forall x :: x in r <==> exists i :: 0 <= i < |subs| && ChannelIdOf(subs[i]) == Some(x)
  {
    if subs == [] then []
    else
      var init := subs[..|subs| - 1];
      var rest := ChannelIds(init);
      assert forall i :: 0 <= i < |init| ==> init[i] == subs[i];
      match ChannelIdOf(subs[|subs| - 1])
      case None => rest
      case Some(id) => rest + [id]
  }

  /** One more subscription adds its channel id at the end, if it has one. */
  lemma ChannelIdsSnoc(subs: seq<Subscription>, s: Subscription)
    ensures ChannelIds(subs + [s]) == ChannelIds(subs) + (if ChannelIdOf(s).Some? then [ChannelIdOf(s).value] else [])
  {
    assert (subs + [s])[..|subs|] == subs;
  }

  /** The ids keep the listing order: collecting distributes over concatenation. */
  lemma {:induction false} ChannelIdsAppend(a: seq<Subscription>, b: seq<Subscription>)
    ensures ChannelIds(a + b) == ChannelIds(a) + ChannelIds(b)
  {
    if b == [] {
      assert a + b == a;
    } else {
      var init, last := b[..|b| - 1], b[|b| - 1];
      assert b == init + [last];
      assert a + b == (a + init) + [last];
      ChannelIdsAppend(a, init);
      ChannelIdsSnoc(init, last);
      ChannelIdsSnoc(a + init, last);
    }
  }

  /** When every subscription has a channel id, the ids are theirs, one for one. */
  lemma {:induction false} ChannelIdsAllPresent(subs: seq<Subscription>)
    requires forall i :: 0 <= i < |subs| ==> ChannelIdOf(subs[i]).Some?
    ensures |ChannelIds(subs)| == |subs|
    ensures forall i :: 0 <= i < |subs| ==> Some(ChannelIds(subs)[i]) == ChannelIdOf(subs[i])
  {
    if subs != [] {
      ChannelIdsAllPresent(subs[..|subs| - 1]);
    }
  }

  const MAX_CHANNELS: nat := 10

  /** `slice(0, 10)`. */
  function LimitChannels(ids: seq<string>): (r: seq<string>)
    ensures |r| <= MAX_CHANNELS && |r| <= |ids| && r == ids[..|r|]
    ensures |ids| >= MAX_CHANNELS ==> |r| == MAX_CHANNELS
    ensures |ids| < MAX_CHANNELS ==> r == ids
  {
    if |ids| <= MAX_CHANNELS then ids else ids[..MAX_CHANNELS]
  }

  /** The channels one search request is issued for, one request each. */
  function SearchRequests(subs: seq<Subscription>): (r: seq<string>)
    ensures |r| <= MAX_CHANNELS
    ensures forall x :: x in r ==> exists i :: 0 <= i < |subs| && ChannelIdOf(subs[i]) == Some(x)
    ensures |r| == (if |ChannelIds(subs)| < MAX_CHANNELS then |ChannelIds(subs)| else MAX_CHANNELS)
    ensures r == ChannelIds(subs)[..|r|]
  {
    if |subs| == 0 then [] else LimitChannels(ChannelIds(subs))
  }

  /** No usable channel id, no request. */
  lemma NoChannelIdNoRequest(subs: seq<Subscription>)
    requires forall i :: 0 <= i < |subs| ==> ChannelIdOf(subs[i]).None?
    ensures SearchRequests(subs) == []
  {
    if subs != [] {
      ChannelIdsNone(subs);
    }
  }

  lemma {:induction false} ChannelIdsNone(subs: seq<Subscription>)
    requires forall i :: 0 <= i < |subs| ==> ChannelIdOf(subs[i]).None?
    ensures ChannelIds(subs) == []
  {
    if subs != [] {
      ChannelIdsNone(subs[..|subs| - 1]);
    }
  }

  /** Fifteen subscriptions, each with a channel: exactly the first ten are searched, in order. */
  lemma FirstTenOfFifteen(subs: seq<Subscription>)
    requires |subs| == 15 && forall i :: 0 <= i < |subs| ==> ChannelIdOf(subs[i]).Some?
    ensures |SearchRequests(subs)| == 10
    ensures forall i :: 0 <= i < 10 ==> Some(SearchRequests(subs)[i]) == ChannelIdOf(subs[i])
  {
    ChannelIdsAllPresent(subs);
  }

  // ---------------------------------------------------------------------
  // The fan-out over the channels

  /**
   * `Promise.all` over one search per channel, taken in order: all responses,
   * or the error of the first request that fails.
   */
  function FetchAll(api: YouTubeApi, c: Credentials, ids: seq<string>): (r: Result<seq<SearchListResponse>, Error>)
    ensures r.Success? ==> |r.value| == |ids| && forall i :: 0 <= i < |ids| ==> api.searchList(c, ids[i]) == Success(r.value[i])
    ensures r.Failure? <==> exists i :: 0 <= i < |ids| && api.searchList(c, ids[i]).Failure?
    ensures r.Failure? ==> exists i :: (0 <= i < |ids| && api.searchList(c, ids[i]) == Failure(r.error)
      && forall k :: 0 <= k < i ==> api.searchList(c, ids[k]).Success?)
  {
    if ids == [] then Success([])
    else
      match api.searchList(c, ids[0])
      case Failure(e) => Failure(e)
      case Success(resp) =>
        match FetchAll(api, c, ids[1..])
        case Failure(e) =>
          assert forall i :: 0 <= i < |ids| - 1 ==> ids[1..][i] == ids[i + 1];
          Failure(e)
        case Success(rest) =>
          assert forall i :: 0 <= i < |ids| - 1 ==> ids[1..][i] == ids[i + 1];
          Success([resp] + rest)
  }

  // ---------------------------------------------------------------------
  // Normalisation into the envelope

  function HighUrl(s: Snippet): Option<string> {
    if s.thumbnails.Some? && s.thumbnails.value.high.Some? then s.thumbnails.value.high.value.url else None
  }

  function DefaultUrl(s: Snippet): Option<string> {
    if s.thumbnails.Some? && s.thumbnails.value.default.Some? then s.thumbnails.value.default.value.url else None
  }

  /** The thumbnail falls back from the high url to the default url to `''`. */
  function ThumbnailOf(s: Snippet): (r: string)
    ensures r != "" <==> Truthy(HighUrl(s)) || Truthy(DefaultUrl(s))
    ensures r == "" || (HighUrl(s).Some? && r == HighUrl(s).value) || (DefaultUrl(s).Some? && r == DefaultUrl(s).value)
    ensures Truthy(HighUrl(s)) ==> r == HighUrl(s).value
  {
    if Truthy(HighUrl(s)) then HighUrl(s).value
    else if Truthy(DefaultUrl(s)) then DefaultUrl(s).value
    else ""
  }

  /** What every item of the subscription feed looks like. */
  predicate IsEnvelope(v: FeedVideo) {
    && v.id != "" && v.platform == YOUTUBE && v.kind == "video"
    && v.url == WATCH_PREFIX + v.id
  }

  /** A search result the feed keeps: it has a non-empty video id and a snippet. */
  predicate Usable(x: SearchResult) {
    x.id.Some? && Truthy(x.id.value.videoId) && x.snippet.Some?
  }

  function NormalizeSearchResult(x: SearchResult): (v: FeedVideo)
    requires Usable(x)
    ensures IsEnvelope(v) && v.id == x.id.value.videoId.value
    ensures v.thumbnail == ThumbnailOf(x.snippet.value)
    ensures v.title == OrEmpty(x.snippet.value.title) && v.description == OrEmpty(x.snippet.value.description)
    ensures v.channelTitle == OrEmpty(x.snippet.value.channelTitle) && v.channelId == OrEmpty(x.snippet.value.channelId)
    ensures v.publishedAt == OrEmpty(x.snippet.value.publishedAt)
    ensures v.viewCount.None? && v.likeCount.None? && v.duration.None?
  {
    var s := x.snippet.value;
    var id := x.id.value.videoId.value;
    FeedVideo(id, YOUTUBE, "video", OrEmpty(s.title), OrEmpty(s.description), WATCH_PREFIX + id,
              ThumbnailOf(s), OrEmpty(s.channelTitle), OrEmpty(s.channelId), OrEmpty(s.publishedAt),
              None, None, None)
  }

  /** The usable results of one response, normalised, in response order. */
  function NormalizeItems(items: seq<SearchResult>): (r: seq<FeedVideo>)
    ensures |r| <= |items|
    ensures forall v :: v in r ==> IsEnvelope(v)
    ensures forall v :: v in r <==> exists i :: 0 <= i < |items| && Usable(items[i]) && v == NormalizeSearchResult(items[i])
  {
    if items == [] then []
    else
      var init := items[..|items| - 1];
      var last := items[|items| - 1];
      var rest := NormalizeItems(init);
      assert forall i :: 0 <= i < |init| ==> init[i] == items[i];
      if Usable(last) then rest + [NormalizeSearchResult(last)] else rest
  }

  /** One more result is normalised at the end, if it is usable. */
  lemma NormalizeItemsSnoc(items: seq<SearchResult>, x: SearchResult)
    ensures NormalizeItems(items + [x]) == NormalizeItems(items) + (if Usable(x) then [NormalizeSearchResult(x)] else [])
  {
    assert (items + [x])[..|items|] == items;
  }

  /** The kept results keep the response order: normalising distributes over concatenation. */
  lemma {:induction false} NormalizeItemsAppend(a: seq<SearchResult>, b: seq<SearchResult>)
    ensures NormalizeItems(a + b) == NormalizeItems(a) + NormalizeItems(b)
  {
    if b == [] {
      assert a + b == a;
    } else {
      var init, last := b[..|b| - 1], b[|b| - 1];
      assert b == init + [last];
      assert a + b == (a + init) + [last];
      NormalizeItemsAppend(a, init);
      NormalizeItemsSnoc(init, last);
      NormalizeItemsSnoc(a + init, last);
    }
  }

  function ItemsOf(resp: SearchListResponse): seq<SearchResult> {
    if resp.items.Some? then resp.items.value else []
  }

  /** The concatenation, channel by channel, of the normalised responses. */
  function NormalizeResponses(responses: seq<SearchListResponse>): (r: seq<FeedVideo>)
    ensures forall v :: v in r ==> IsEnvelope(v)
    ensures forall v :: v in r <==>
      exists i, j :: 0 <= i < |responses| && 0 <= j < |ItemsOf(responses[i])|
        && Usable(ItemsOf(responses[i])[j]) && v == NormalizeSearchResult(ItemsOf(responses[i])[j])
  {
    if responses == [] then []
    else
      var init := responses[..|responses| - 1];
      var rest := NormalizeResponses(init);
      var last := NormalizeItems(ItemsOf(responses[|responses| - 1]));
      assert forall i :: 0 <= i < |init| ==> init[i] == responses[i];
      rest + last
  }

  /** One more response contributes its normalised items at the end. */
  lemma NormalizeResponsesSnoc(responses: seq<SearchListResponse>, resp: SearchListResponse)
    ensures NormalizeResponses(responses + [resp]) == NormalizeResponses(responses) + NormalizeItems(ItemsOf(resp))
  {
    assert (responses + [resp])[..|responses|] == responses;
  }

  /** The feed before sorting is channel by channel: normalising distributes over concatenation. */
  lemma {:induction false} NormalizeResponsesAppend(a: seq<SearchListResponse>, b: seq<SearchListResponse>)
    ensures NormalizeResponses(a + b) == NormalizeResponses(a) + NormalizeResponses(b)
  {
    if b == [] {
      assert a + b == a;
    } else {
      var init, last := b[..|b| - 1], b[|b| - 1];
      assert b == init + [last];
      assert a + b == (a + init) + [last];
      NormalizeResponsesAppend(a, init);
      NormalizeResponsesSnoc(init, last);
      NormalizeResponsesSnoc(a + init, last);
      var ra, ri, x := NormalizeResponses(a), NormalizeResponses(init), NormalizeItems(ItemsOf(last));
      assert (ra + ri) + x == ra + (ri + x);
    }
  }

  // ---------------------------------------------------------------------
  // getSubscriptionVideos

  /**
   * `getSubscriptionVideos` on the store and the API: `[]` without subscriptions
   * or usable channel ids, otherwise the sorted normalisation of every channel's
   * search response. Its `maxResults` parameter is never read, so it does not
   * appear here.
   */
  function SubscriptionVideos(t: Tables, api: YouTubeApi, parseDate: string -> int, userId: Id): Result<seq<FeedVideo>, Error> {
    var subs :- Subscriptions(t, api, userId);
    if |subs| == 0 then Success([])
    else
      var ids := LimitChannels(ChannelIds(subs));
      if |ids| == 0 then Success([])
      else
        var client :- AuthClientFor(t, userId);
        var responses :- FetchAll(api, client.credentials, ids);
        Success(SortByPublished(NormalizeResponses(responses), parseDate))
  }

  /** A feed that is served is sorted, and every item in it is a well-formed envelope. */
  lemma SubscriptionFeedShape(t: Tables, api: YouTubeApi, parseDate: string -> int, userId: Id)
    ensures var r := SubscriptionVideos(t, api, parseDate, userId);
      r.Success? ==> SortedByPublished(r.value, parseDate) && forall v :: v in r.value ==> IsEnvelope(v)
  {
    var r := SubscriptionVideos(t, api, parseDate, userId);
    if r.Success? && r.value != [] {
      var subs := Subscriptions(t, api, userId).value;
      var client := AuthClientFor(t, userId).value;
      var responses := FetchAll(api, client.credentials, SearchRequests(subs)).value;
      var all := NormalizeResponses(responses);
      SortByPublishedSorted(all, parseDate);
      forall v | v in r.value ensures IsEnvelope(v) {
        assert v in multiset(r.value);
        assert v in all;
      }
    }
  }

  /** Exactly the channels of `SearchRequests` are searched, and one failed search fails the whole call. */
  lemma SubscriptionFeedFailFast(t: Tables, api: YouTubeApi, parseDate: string -> int, userId: Id, i: nat)
    requires Subscriptions(t, api, userId).Success?
    requires i < |SearchRequests(Subscriptions(t, api, userId).value)|
    requires api.searchList(AuthClientFor(t, userId).value.credentials, SearchRequests(Subscriptions(t, api, userId).value)[i]).Failure?
    ensures SubscriptionVideos(t, api, parseDate, userId).Failure?
    ensures var c, ids := AuthClientFor(t, userId).value.credentials, SearchRequests(Subscriptions(t, api, userId).value);
      (forall k :: 0 <= k < i ==> api.searchList(c, ids[k]).Success?) ==>
        SubscriptionVideos(t, api, parseDate, userId) == Failure(api.searchList(c, ids[i]).error)
  {
    var c, ids := AuthClientFor(t, userId).value.credentials, SearchRequests(Subscriptions(t, api, userId).value);
    var f := FetchAll(api, c, ids);
    assert f.Failure?;
    var j :| 0 <= j < |ids| && api.searchList(c, ids[j]) == Failure(f.error)
      && forall k :: 0 <= k < j ==> api.searchList(c, ids[k]).Success?;
    if forall k :: 0 <= k < i ==> api.searchList(c, ids[k]).Success? {
      assert !(j < i) && !(i < j);
    }
  }

  /** No subscriptions, or none with a channel id: an empty feed and no search request. */
  lemma SubscriptionFeedEmpty(t: Tables, api: YouTubeApi, parseDate: string -> int, userId: Id)
    requires Subscriptions(t, api, userId).Success?
    requires forall s :: s in Subscriptions(t, api, userId).value ==> ChannelIdOf(s).None?
    ensures SearchRequests(Subscriptions(t, api, userId).value) == []
    ensures SubscriptionVideos(t, api, parseDate, userId) == Success([])
  {
    var subs := Subscriptions(t, api, userId).value;
    NoChannelIdNoRequest(subs);
  }

  // ---------------------------------------------------------------------
  // getRecommendedVideos

  /**
   * A chart item in the envelope: the id defaults to `''`, but the url is built
   * from the raw id, which prints as "undefined" when it is missing.
   */
  function NormalizeVideo(x: Video): (v: FeedVideo)
    requires x.snippet.Some?
    ensures v.platform == YOUTUBE && v.kind == "video" && v.id == OrEmpty(x.id)
    ensures v.url == WATCH_PREFIX + (if x.id.Some? then x.id.value else "undefined")
    ensures v.thumbnail == ThumbnailOf(x.snippet.value)
    ensures v.viewCount == (if x.statistics.Some? then x.statistics.value.viewCount else None)
    ensures v.likeCount == (if x.statistics.Some? then x.statistics.value.likeCount else None)
    ensures v.duration == (if x.contentDetails.Some? then x.contentDetails.value.duration else None)
  {
    var s := x.snippet.value;
    FeedVideo(OrEmpty(x.id), YOUTUBE, "video", OrEmpty(s.title), OrEmpty(s.description),
              WATCH_PREFIX + (if x.id.Some? then x.id.value else "undefined"),
              ThumbnailOf(s), OrEmpty(s.channelTitle), OrEmpty(s.channelId), OrEmpty(s.publishedAt),
              if x.statistics.Some? then x.statistics.value.viewCount else None,
              if x.statistics.Some? then x.statistics.value.likeCount else None,
              if x.contentDetails.Some? then x.contentDetails.value.duration else None)
  }

  /** The chart items that have a snippet, normalised, in response order and unsorted. */
  function NormalizeChart(items: seq<Video>): (r: seq<FeedVideo>)
    ensures |r| <= |items|
    ensures forall v :: v in r <==> exists i :: 0 <= i < |items| && items[i].snippet.Some? && v == NormalizeVideo(items[i])
  {
    if items == [] then []
    else
      var init := items[..|items| - 1];
      var last := items[|items| - 1];
      var rest := NormalizeChart(init);
      assert forall i :: 0 <= i < |init| ==> init[i] == items[i];
      if last.snippet.Some? then rest + [NormalizeVideo(last)] else rest
  }

  /** Normalising a chart in two parts is normalising each and concatenating: the order is the response's. */
  lemma {:induction false} NormalizeChartAppend(a: seq<Video>, b: seq<Video>)
    ensures NormalizeChart(a + b) == NormalizeChart(a) + NormalizeChart(b)
  {
    if b != [] {
      var init := b[..|b| - 1];
      assert (a + b)[..|a + b| - 1] == a + init;
      assert (a + b)[|a + b| - 1] == b[|b| - 1];
      NormalizeChartAppend(a, init);
    } else {
      assert a + b == a;
    }
  }

  /** When every item has a snippet, the i-th video is the i-th item's. */
  lemma {:induction false} NormalizeChartAll(items: seq<Video>)
    requires forall i :: 0 <= i < |items| ==> items[i].snippet.Some?
    ensures |NormalizeChart(items)| == |items|
    ensures forall i :: 0 <= i < |items| ==> NormalizeChart(items)[i] == NormalizeVideo(items[i])
  {
    if items != [] {
      NormalizeChartAll(items[..|items| - 1]);
    }
  }

  function ChartItems(resp: VideoListResponse): seq<Video> {
    if resp.items.Some? then resp.items.value else []
  }

  /** `getRecommendedVideos`: the mostPopular chart with the given page size, normalised, unsorted. */
  function RecommendedVideos(t: Tables, api: YouTubeApi, userId: Id, maxResults: int): (r: Result<seq<FeedVideo>, Error>)
    ensures AuthClientFor(t, userId).Failure? ==> r == Failure(NoYouTubeAccount)
    ensures AuthClientFor(t, userId).Success? ==>
      var resp := api.videosList(AuthClientFor(t, userId).value.credentials, maxResults);
      && (resp.Failure? ==> r == Failure(resp.error))
      && (resp.Success? ==> r == Success(NormalizeChart(ChartItems(resp.value))))
  {
    var client :- AuthClientFor(t, userId);
    var resp :- api.videosList(client.credentials, maxResults);
    Success(NormalizeChart(ChartItems(resp)))
  }

  // ---------------------------------------------------------------------
  // The loops that fill the arrays

  /** The loop that collects the channel ids. */
  method CollectChannelIds(subs: seq<Subscription>) returns (channelIds: seq<string>)
    ensures channelIds == ChannelIds(subs)
  {
    channelIds := [];
    for i := 0 to |subs|
      invariant channelIds == ChannelIds(subs[..i])
    {
      assert subs[..i + 1][..i] == subs[..i];
      var id := ChannelIdOf(subs[i]);
      if id.Some? {
        channelIds := channelIds + [id.value];
      }
    }
    assert subs[..|subs|] == subs;
  }

  /** The two nested loops that push the usable search results. */
  method CollectVideos(responses: seq<SearchListResponse>) returns (videos: seq<FeedVideo>)
    ensures videos == NormalizeResponses(responses)
  {
    videos := [];
    for i := 0 to |responses|
      invariant videos == NormalizeResponses(responses[..i])
    {
      assert responses[..i + 1][..i] == responses[..i];
      var before := videos;
      if responses[i].items.Some? {
        var items := responses[i].items.value;
        for j := 0 to |items|
          invariant videos == before + NormalizeItems(items[..j])
        {
          assert items[..j + 1][..j] == items[..j];
          if Usable(items[j]) {
            videos := videos + [NormalizeSearchResult(items[j])];
          }
        }
        assert items[..|items|] == items;
      }
    }
    assert responses[..|responses|] == responses;
  }

  /** The loop that pushes the chart items with a snippet. */
  method CollectChart(items: seq<Video>) returns (videos: seq<FeedVideo>)
    ensures videos == NormalizeChart(items)
  {
    videos := [];
    for i := 0 to |items|
      invariant videos == NormalizeChart(items[..i])
    {
      assert items[..i + 1][..i] == items[..i];
      if items[i].snippet.Some? {
        videos := videos + [NormalizeVideo(items[i])];
      }
    }
    assert items[..|items|] == items;
  }

  // ---------------------------------------------------------------------
  // The service

  class YouTubeService {
    const prisma: Database
    const api: YouTubeApi
    /** `new Date(s).getTime()` on a non-empty publishedAt. */
    const parseDate: string -> int

    constructor (prisma: Database, api: YouTubeApi, parseDate: string -> int)
      ensures this.prisma == prisma && this.api == api && this.parseDate == parseDate
    {
      this.prisma := prisma;
      this.api := api;
      this.parseDate := parseDate;
    }

    /** `getAuthClient`. */
    method GetAuthClient(userId: Id) returns (r: Result<AuthClient, Error>)
      ensures r == AuthClientFor(prisma.State(), userId)
    {
      var login := prisma.FindFirstLogin(WhereYouTube(userId));
      if login.None? {
        return Failure(NoYouTubeAccount);
      }
      var l := login.value;
      var refreshToken := if Truthy(l.refreshToken) then l.refreshToken else None;
      var expiryDate := if TruthyNumber(l.expiresAt) then l.expiresAt else None;
      return Success(AuthClient(l.id, Credentials(l.accessToken, refreshToken, expiryDate)));
    }

    /** The 'tokens' handler registered on a client. */
    method OnTokens(client: AuthClient, tokens: Tokens) returns (r: Result<(), Error>)
      requires prisma.Valid()
      modifies prisma
      ensures prisma.Valid()
      ensures var a := ApplyTokens(old(prisma.State()), client.loginId, tokens);
        if a.Success? then r.Success? && prisma.State() == a.value
        else r == Failure(a.error) && prisma.State() == old(prisma.State())
    {
      ApplyTokensConsistent(prisma.State(), client.loginId, tokens);
      if Truthy(tokens.accessToken) {
        var d := RefreshUpdate(tokens).value;
        var updated := prisma.UpdateLogin(client.loginId, d);
        if updated.Failure? {
          return Failure(updated.error);
        }
      }
      return Success(());
    }

    /** `getSubscriptions`. */
    method GetSubscriptions(userId: Id) returns (r: Result<seq<Subscription>, Error>)
      ensures r == Subscriptions(prisma.State(), api, userId)
    {
      var client :- GetAuthClient(userId);
      var resp :- api.subscriptionsList(client.credentials);
      return Success(if resp.items.Some? then resp.items.value else []);
    }

    /** `getUserInfo`. */
    method GetUserInfo(userId: Id) returns (r: Result<Option<Channel>, Error>)
      ensures r == UserInfo(prisma.State(), api, userId)
    {
      var client :- GetAuthClient(userId);
      var resp :- api.channelsList(client.credentials);
      if resp.items.None? || |resp.items.value| == 0 {
        return Success(None);
      }
      return Success(Some(resp.items.value[0]));
    }

    /** `getSubscriptionVideos`; `maxResults` is accepted and ignored. */
    method GetSubscriptionVideos(userId: Id, maxResults: int) returns (r: Result<seq<FeedVideo>, Error>)
      ensures r == SubscriptionVideos(prisma.State(), api, parseDate, userId)
    {
      var subscriptions :- GetSubscriptions(userId);
      if |subscriptions| == 0 {
        return Success([]);
      }
      var channelIds := CollectChannelIds(subscriptions);
      var limitedChannelIds := LimitChannels(channelIds);
      if |limitedChannelIds| == 0 {
        return Success([]);
      }
      var auth := GetAuthClient(userId);
      match auth {
        case Failure(e) => return Failure(e);
        case Success(_) =>
      }
      var client := auth.value;
      var responses :- FetchAll(api, client.credentials, limitedChannelIds);
      var videos := CollectVideos(responses);
      return Success(SortByPublished(videos, parseDate));
    }

    /** `getRecommendedVideos`. */
    method GetRecommendedVideos(userId: Id, maxResults: int) returns (r: Result<seq<FeedVideo>, Error>)
      ensures r == RecommendedVideos(prisma.State(), api, userId, maxResults)
    {
      var client :- GetAuthClient(userId);
      var resp :- api.videosList(client.credentials, maxResults);
      var videos := CollectChart(ChartItems(resp));
      return Success(videos);
    }
  }
}
