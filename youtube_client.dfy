/** The video-platform client of services/youtube_client.py: a search for the
    channel's latest video ids, then a statistics request for those ids, whose
    records become content items. Both responses are input values. */
module YouTubeClient {
  import opened Common

  const Platform: string := "YouTube"
  const WatchUrlPrefix: string := "https://www.youtube.com/watch?v="
  const DefaultTitlePrefix: string := "Video "

  /** Environment configuration; "" stands for an unset variable. */
  datatype Config = Config(apiKey: string, channelId: string)

  /** The YouTubeAPIError raised by the client, by cause. */
  datatype YouTubeError =
    | MissingConfig            // YOUTUBE_API_KEY or YOUTUBE_CHANNEL_ID unset
    | SearchFailed(status: int)
    | VideosFailed(status: int)

  /** One `items[k]` of the search response: its `id.videoId`. */
  datatype SearchHit = SearchHit(videoId: string)

  datatype SearchResponse = SearchResponse(status: int, items: seq<SearchHit>)

  /** One `items[k]` of the videos response: the id, `snippet.title` and the
      `statistics` counts, each possibly absent. */
  datatype VideoRecord = VideoRecord(
    id: string,
    title: Option<string>,
    viewCount: Option<int>,
    likeCount: Option<int>,
    commentCount: Option<int>)

  datatype VideosResponse = VideosResponse(status: int, items: seq<VideoRecord>)

  /** `[item["id"]["videoId"] for item in search_data["items"]]`. */
  function VideoIds(hits: seq<SearchHit>): (ids: seq<string>)
    ensures |ids| == |hits|
    ensures forall i :: 0 <= i < |hits| ==> ids[i] == hits[i].videoId
  {
    if hits == [] then [] else [hits[0].videoId] + VideoIds(hits[1..])
  }

  function WatchUrl(id: string): string {
    WatchUrlPrefix + id
  }

  /** The content item for one video record. */
  function ToContentItem(v: VideoRecord): (c: ContentItem)
    ensures c.platform == Platform && c.externalId == v.id
    ensures c.url == WatchUrlPrefix + v.id
    ensures v.title.None? ==> c.title == DefaultTitlePrefix + v.id
    ensures v.title.Some? ==> c.title == v.title.value
    ensures v.viewCount.None? ==> c.views == 0
    ensures v.likeCount.None? ==> c.likes == 0
    ensures v.commentCount.None? ==> c.commentsCount == 0
    ensures v.viewCount.Some? ==> c.views == v.viewCount.value
    ensures v.likeCount.Some? ==> c.likes == v.likeCount.value
    ensures v.commentCount.Some? ==> c.commentsCount == v.commentCount.value
  {
    var title := if v.title.Some? then v.title.value else DefaultTitlePrefix + v.id;
    ContentItem(Platform, v.id, WatchUrl(v.id), title,
                CountOrZero(v.viewCount), CountOrZero(v.likeCount), CountOrZero(v.commentCount))
  }

  /** Distinct videos get distinct watch URLs. */
  lemma WatchUrlInjective(a: string, b: string)
    requires WatchUrl(a) == WatchUrl(b)
    ensures a == b
  {
    assert a == WatchUrl(a)[|WatchUrlPrefix|..];
    assert b == WatchUrl(b)[|WatchUrlPrefix|..];
  }

  function ToContentItems(videos: seq<VideoRecord>): (r: seq<ContentItem>)
    ensures |r| == |videos|
    ensures forall i :: 0 <= i < |videos| ==> r[i] == ToContentItem(videos[i])
  {
    if videos == [] then [] else [ToContentItem(videos[0])] + ToContentItems(videos[1..])
  }

  /** `fetch_channel_videos` as a value. */
  function ChannelVideos(cfg: Config, search: SearchResponse, videos: VideosResponse)
    : (r: Result<seq<ContentItem>, YouTubeError>)
    ensures (cfg.apiKey == "" || cfg.channelId == "") ==> r == Err(MissingConfig)
    ensures r == Err(SearchFailed(search.status))
            <==> cfg.apiKey != "" && cfg.channelId != "" && search.status != 200
    ensures r == Err(VideosFailed(videos.status))
            <==> cfg.apiKey != "" && cfg.channelId != "" && search.status == 200
                 && search.items != [] && videos.status != 200
    ensures r.Ok? <==> cfg.apiKey != "" && cfg.channelId != "" && search.status == 200
                       && (search.items == [] || videos.status == 200)
    ensures r.Ok? ==> search.status == 200
    ensures r.Ok? && search.items != [] ==> r.value == ToContentItems(videos.items)
    ensures r.Ok? && search.items != [] ==> videos.status == 200 && |r.value| == |videos.items|
    ensures r.Ok? && search.items != [] ==> forall i :: 0 <= i < |videos.items| ==>
              r.value[i].externalId == videos.items[i].id && r.value[i].platform == Platform
              && r.value[i].url == WatchUrl(videos.items[i].id)
    ensures search.items == [] && r.Ok? ==> r.value == []
  {
    if cfg.apiKey == "" || cfg.channelId == "" then Err(MissingConfig)
    else if search.status != 200 then Err(SearchFailed(search.status))
    else if VideoIds(search.items) == [] then Ok([])
    else if videos.status != 200 then Err(VideosFailed(videos.status))
    else Ok(ToContentItems(videos.items))
  }

  /** The number of requests `fetch_channel_videos` sends. */
  function RequestsSent(cfg: Config, search: SearchResponse): nat {
    if cfg.apiKey == "" || cfg.channelId == "" then 0
    else if search.status != 200 || search.items == [] then 1
    else 2
  }

  /** `fetch_channel_videos`: the result list is appended one video record at a
      time. `requests` counts the API calls made: none without configuration,
      no second one after a failed or empty search. */
  method FetchChannelVideos(cfg: Config, search: SearchResponse, videos: VideosResponse)
    returns (r: Result<seq<ContentItem>, YouTubeError>, requests: nat)
    ensures r == ChannelVideos(cfg, search, videos)
    ensures requests == RequestsSent(cfg, search)
  {
    if cfg.apiKey == "" || cfg.channelId == "" {
      return Err(MissingConfig), 0;
    }
    requests := 1;
    if search.status != 200 {
      return Err(SearchFailed(search.status)), requests;
    }
    var ids := VideoIds(search.items);
    if |ids| == 0 {
      return Ok([]), requests;
    }
    requests := 2;
    if videos.status != 200 {
      return Err(VideosFailed(videos.status)), requests;
    }
    var result: seq<ContentItem> := [];
    var i := 0;
    while i < |videos.items|
      invariant 0 <= i <= |videos.items|
      invariant |result| == i
      invariant forall j :: 0 <= j < i ==> result[j] == ToContentItem(videos.items[j])
    {
      var v := videos.items[i];
      var title := if v.title.Some? then v.title.value else DefaultTitlePrefix + v.id;
      var url := WatchUrlPrefix + v.id;
      var views := CountOrZero(v.viewCount);
      var likes := if v.likeCount.Some? then v.likeCount.value else 0;
      var comments := if v.commentCount.Some? then v.commentCount.value else 0;
      result := result + [ContentItem(Platform, v.id, url, title, views, likes, comments)];
      i := i + 1;
    }
    assert result == ToContentItems(videos.items);
    r := Ok(result);
  }
}
