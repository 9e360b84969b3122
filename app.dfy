/** The two endpoints of main.py that shape data: `/sync` (fetch from the video
    platform, fall back to two fixed items, store the new ones, return what was
    fetched) and `/chat` (take items from the table store, else from the video
    platform, else the fixed items, and ask for an answer). Every collaborator's
    outcome is an input value. */
module App {
  import opened Common
  import LlmClient
  import MwsClient
  import YouTubeClient

  /** `fetch_content_items(limit=5)` in `/chat`. */
  const ChatStoreLimit: int := 5

  /** The two items both endpoints use when the video platform fails. */
  const DummyItems: seq<ContentItem> := [
    ContentItem("YouTube", "video_1", "https://youtube.com/watch?v=video_1",
                "Тестовое видео №1", 1234, 150, 12),
    ContentItem("YouTube", "video_2", "https://youtube.com/watch?v=video_2",
                "Тестовое видео №2", 5678, 430, 45)
  ]

  datatype SyncResult = SyncResult(synced: nat, items: seq<ContentItem>)

  /** The items of a video-platform outcome, or the dummy items when it failed. */
  function PlatformItemsOr(yt: Result<seq<ContentItem>, YouTubeClient.YouTubeError>): (r: seq<ContentItem>)
    ensures yt.Ok? ==> r == yt.value
    ensures yt.Err? ==> r == DummyItems
  {
    if yt.Ok? then yt.value else DummyItems
  }

  /** `/sync`. `stored` is what the write to the table store came to; its
      failure is swallowed. */
  method SyncContent(
    ytCfg: YouTubeClient.Config, search: YouTubeClient.SearchResponse, videos: YouTubeClient.VideosResponse,
    storeCfg: MwsClient.Config, listResp: MwsClient.ListResponse, createStatus: int)
    returns (result: SyncResult, stored: Result<nat, MwsClient.MwsError>)
    ensures result.items == PlatformItemsOr(YouTubeClient.ChannelVideos(ytCfg, search, videos))
    ensures result.synced == |result.items|
    ensures stored == MwsClient.UpsertResult(storeCfg, result.items, listResp, createStatus)
  {
    var items: seq<ContentItem> := [];
    var fetched, _ := YouTubeClient.FetchChannelVideos(ytCfg, search, videos);
    if fetched.Ok? {
      var data := fetched.value;
      var i := 0;
      while i < |data|
        invariant 0 <= i <= |data|
        invariant items == data[..i]
      {
        var it := data[i];
        items := items + [ContentItem(it.platform, it.externalId, it.url, it.title,
                                      it.views, it.likes, it.commentsCount)];
        i := i + 1;
      }
      assert data[..i] == data;
    } else {
      items := DummyItems;
    }
    var created;
    stored, created := MwsClient.UpsertContentItems(storeCfg, items, listResp, createStatus);
    result := SyncResult(|items|, items);
  }

  /** A content item as the dict `ask_llm` receives: every key present. */
  function AsRaw(c: ContentItem): LlmClient.RawItem {
    LlmClient.RawItem(Some(c.platform), Some(c.externalId), Some(c.url), Some(c.title),
                      Some(c.views), Some(c.likes), Some(c.commentsCount))
  }

  function AsRawItems(items: seq<ContentItem>): (r: seq<LlmClient.RawItem>)
    ensures |r| == |items|
    ensures forall i :: 0 <= i < |items| ==> r[i] == AsRaw(items[i])
  {
    if items == [] then [] else [AsRaw(items[0])] + AsRawItems(items[1..])
  }

  /** The content part of items read from the table store (`ask_llm` does not
      read the stored engagement rate). */
  function StoredContent(stored: seq<MwsClient.StoredItem>): (r: seq<ContentItem>)
    ensures |r| == |stored|
    ensures forall i :: 0 <= i < |stored| ==> r[i] == stored[i].item
  {
    if stored == [] then [] else [stored[0].item] + StoredContent(stored[1..])
  }

  /** The items `/chat` answers over: the store's when it returns some, else the
      video platform's, else the dummy items. */
  function ChatItems(
    store: Result<seq<MwsClient.StoredItem>, MwsClient.MwsError>,
    yt: Result<seq<ContentItem>, YouTubeClient.YouTubeError>): (r: seq<ContentItem>)
    ensures store.Ok? && store.value != [] ==> r == StoredContent(store.value)
    ensures (store.Err? || store.value == []) && yt.Ok? ==> r == yt.value
    ensures (store.Err? || store.value == []) && yt.Err? ==> r == DummyItems
  {
    if store.Ok? && store.value != [] then StoredContent(store.value) else PlatformItemsOr(yt)
  }

  /** The first part of `/chat`: the dict items to answer over.
      `askedPlatform` says whether the video platform was asked. */
  method ChatSource(
    storeCfg: MwsClient.Config, listResp: MwsClient.ListResponse,
    ytCfg: YouTubeClient.Config, search: YouTubeClient.SearchResponse, videos: YouTubeClient.VideosResponse)
    returns (dictItems: seq<LlmClient.RawItem>, askedPlatform: bool)
    ensures var store := MwsClient.ContentItemsOf(storeCfg, Some(ChatStoreLimit), listResp);
            && dictItems == AsRawItems(ChatItems(store, YouTubeClient.ChannelVideos(ytCfg, search, videos)))
            && (askedPlatform <==> store.Err? || store.value == [])
  {
    dictItems := [];
    var stored := MwsClient.FetchContentItems(storeCfg, Some(ChatStoreLimit), listResp);
    if stored.Ok? {
      dictItems := AsRawItems(StoredContent(stored.value));
    }
    askedPlatform := |dictItems| == 0;
    if askedPlatform {
      var fetched, _ := YouTubeClient.FetchChannelVideos(ytCfg, search, videos);
      if fetched.Ok? {
        dictItems := AppendAsDicts(dictItems, fetched.value);
        assert dictItems == AsRawItems(fetched.value);
      } else {
        dictItems := AsRawItems(DummyItems);
      }
    }
  }

  /** The append loop of `/chat` that copies the video platform's items into dicts. */
  method AppendAsDicts(dictItems: seq<LlmClient.RawItem>, data: seq<ContentItem>)
    returns (r: seq<LlmClient.RawItem>)
    ensures r == dictItems + AsRawItems(data)
  {
    r := dictItems;
    var i := 0;
    while i < |data|
      invariant 0 <= i <= |data|
      invariant r == dictItems + AsRawItems(data[..i])
    {
      assert AsRawItems(data[..i + 1]) == AsRawItems(data[..i]) + [AsRaw(data[i])];
      r := r + [AsRaw(data[i])];
      i := i + 1;
    }
    assert data[..i] == data;
  }

  /** `/chat`: the answer is `ask_llm`'s over the chosen items. */
  method Chat(
    question: string,
    storeCfg: MwsClient.Config, listResp: MwsClient.ListResponse,
    ytCfg: YouTubeClient.Config, search: YouTubeClient.SearchResponse, videos: YouTubeClient.VideosResponse,
    apiKey: string, llm: LlmClient.LlmResponse)
    returns (answer: LlmClient.Reply)
    ensures var store := MwsClient.ContentItemsOf(storeCfg, Some(ChatStoreLimit), listResp);
            var yt := YouTubeClient.ChannelVideos(ytCfg, search, videos);
            answer == LlmClient.Ask(apiKey, question, AsRawItems(ChatItems(store, yt)), llm)
  {
    var dictItems, askedPlatform := ChatSource(storeCfg, listResp, ytCfg, search, videos);
    var request;
    answer, request := LlmClient.AskLlm(apiKey, question, dictItems, llm);
  }

  // ---------------------------------------------------------------------------
  // The fallback answer for an answering-service error

  /** `x.get("views", 0)` of a dict item. */
  function ViewsOf(x: LlmClient.RawItem): int {
    CountOrZero(x.views)
  }

  /** Python's `max(items, key=views)`: the position of the first item with the
      most views. */
  function FirstMaxViews(items: seq<LlmClient.RawItem>): (k: nat)
    requires items != []
    ensures k < |items|
    ensures forall j :: 0 <= j < |items| ==> ViewsOf(items[j]) <= ViewsOf(items[k])
    ensures forall j :: 0 <= j < k ==> ViewsOf(items[j]) < ViewsOf(items[k])
  {
    if |items| == 1 then 0
    else
      var best := FirstMaxViews(items[..|items| - 1]);
      if ViewsOf(items[|items| - 1]) > ViewsOf(items[best]) then |items| - 1 else best
  }

  /** The fallback text's content: the most viewed item's title, views and likes,
      or the fixed "no data" text. */
  datatype Fallback = NoDataFallback | MostViewed(title: Option<string>, views: int, likes: int)

  /** The answer `/chat` gives when asking raises LLMClientError. */
  function ErrorFallback(items: seq<LlmClient.RawItem>): (f: Fallback)
    ensures f.NoDataFallback? <==> items == []
    ensures items != [] ==>
              exists k :: (&& 0 <= k < |items|
                           && (forall j :: 0 <= j < |items| ==> ViewsOf(items[j]) <= ViewsOf(items[k]))
                           && (forall j :: 0 <= j < k ==> ViewsOf(items[j]) < ViewsOf(items[k]))
                           && f == MostViewed(items[k].title, ViewsOf(items[k]),
                                              CountOrZero(items[k].likes)))
  {
    if items == [] then NoDataFallback
    else
      var top := items[FirstMaxViews(items)];
      MostViewed(top.title, ViewsOf(top), CountOrZero(top.likes))
  }

  /** With the dummy items, the fallback names the second one, the more viewed. */
  lemma DummyFallbackNamesSecondVideo()
    ensures ErrorFallback(AsRawItems(DummyItems)) == MostViewed(Some("Тестовое видео №2"), 5678, 430)
  {
    var raw := AsRawItems(DummyItems);
    assert raw[..1] == [AsRaw(DummyItems[0])];
    assert FirstMaxViews(raw) == 1;
  }
}
