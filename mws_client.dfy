/** The table-store client of services/mws_client.py: reading the content
    table into typed items (keeping the last `limit` records and skipping
    records whose fields do not convert), and writing only the items whose
    external id the table does not hold yet. The list and create requests are
    input values: their status and the records they carry. */
module MwsClient {
  import opened Common

  /** Environment configuration; "" stands for an unset variable. */
  datatype Config = Config(token: string, baseUrl: string, tableId: string)

  /** The MWSClientError raised by the client, by cause. */
  datatype MwsError =
    | MissingTableConfig      // MWS_BASE_URL or MWS_CONTENT_TABLE_ID unset
    | MissingToken            // MWS_API_TOKEN unset (`_get_headers`)
    | ListFailed(status: int)
    | CreateFailed(status: int)

  /** A stored field as `int(x or 0)` / `float(x or 0)` sees it: missing,
      falsy, a convertible value, or a value whose conversion raises. */
  datatype Raw<T> = Missing | Falsy | Value(v: T) | Unconvertible

  /** The `fields` of one stored record; a record without `fields` has every
      field Missing. */
  datatype StoredFields = StoredFields(
    platform: Option<string>,
    externalId: Option<string>,
    url: Option<string>,
    title: Option<string>,
    views: Raw<int>,
    likes: Raw<int>,
    commentsCount: Raw<int>,
    engagementRate: Raw<real>)

  /** The list request's outcome: its status and the `records` of its JSON. */
  datatype ListResponse = ListResponse(status: int, records: seq<StoredFields>)

  /** An item read from the table: the content fields and the stored rate. */
  datatype StoredItem = StoredItem(item: ContentItem, engagementRate: real)

  /** One record of the create request: the item and its computed rate. */
  datatype Payload = Payload(item: ContentItem, engagementRate: real)

  // ---------------------------------------------------------------------------
  // fetch_content_items

  /** Python's `s[-limit:]`, negative start counted from the end. */
  function PySuffix<T>(s: seq<T>, limit: int): seq<T> {
    var start := -limit;
    if start >= 0 then s[Min(start, |s|)..] else s[Max(0, |s| + start)..]
  }

  /** The record selection of `fetch_content_items` as written:
      `if limit is not None and len(records) > limit: records = records[-limit:]`. */
  function LastRecordsAsWritten<T>(records: seq<T>, limit: Option<int>): seq<T> {
    if limit.Some? && |records| > limit.value then PySuffix(records, limit.value) else records
  }

  /** As written, a limit of 0 keeps every record instead of none, because
      `records[-0:]` is the whole list. */
  lemma ZeroLimitKeepsEverything(r: StoredFields)
    ensures LastRecordsAsWritten([r], Some(0)) == [r]
    ensures |LastRecordsAsWritten([r], Some(0))| > 0
  {
  }

  /** The record selection as intended: the last `limit` records (none for a
      limit of 0 or less), or all of them when there is no limit. */
  function LastRecords<T>(records: seq<T>, limit: Option<int>): (r: seq<T>)
    ensures limit.None? ==> r == records
    ensures limit.Some? ==> |r| == Min(Max(limit.value, 0), |records|)
    ensures r == records[|records| - |r|..]
  {
    if limit.Some? && |records| > limit.value then records[|records| - Max(limit.value, 0)..]
    else records
  }

  /** For the positive limits the service passes, the two selections agree. */
  lemma LastRecordsAgreeForPositiveLimits<T>(records: seq<T>, limit: int)
    requires limit > 0
    ensures LastRecordsAsWritten(records, Some(limit)) == LastRecords(records, Some(limit))
  {
  }

  function RawInt(x: Raw<int>): Option<int> {
    match x
    case Missing => Some(0)
    case Falsy => Some(0)
    case Value(v) => Some(v)
    case Unconvertible => None
  }

  function RawReal(x: Raw<real>): Option<real> {
    match x
    case Missing => Some(0.0)
    case Falsy => Some(0.0)
    case Value(v) => Some(v)
    case Unconvertible => None
  }

  /** A record converts unless one of its numeric fields fails conversion. */
  predicate Convertible(f: StoredFields) {
    RawInt(f.views).Some? && RawInt(f.likes).Some? && RawInt(f.commentsCount).Some?
    && RawReal(f.engagementRate).Some?
  }

  /** The item built from one convertible record, with the defaults for missing fields. */
  function ToStoredItem(f: StoredFields): (s: StoredItem)
    requires Convertible(f)
    ensures f.platform.None? ==> s.item.platform == "YouTube"
    ensures f.externalId.None? ==> s.item.externalId == ""
    ensures f.url.None? ==> s.item.url == ""
    ensures f.title.None? ==> s.item.title == ""
    ensures (f.views.Missing? || f.views.Falsy?) ==> s.item.views == 0
    ensures (f.likes.Missing? || f.likes.Falsy?) ==> s.item.likes == 0
    ensures (f.commentsCount.Missing? || f.commentsCount.Falsy?) ==> s.item.commentsCount == 0
    ensures (f.engagementRate.Missing? || f.engagementRate.Falsy?) ==> s.engagementRate == 0.0
    ensures f.platform.Some? ==> s.item.platform == f.platform.value
    ensures f.externalId.Some? ==> s.item.externalId == f.externalId.value
    ensures f.url.Some? ==> s.item.url == f.url.value
    ensures f.title.Some? ==> s.item.title == f.title.value
    ensures f.views.Value? ==> s.item.views == f.views.v
    ensures f.likes.Value? ==> s.item.likes == f.likes.v
    ensures f.commentsCount.Value? ==> s.item.commentsCount == f.commentsCount.v
    ensures f.engagementRate.Value? ==> s.engagementRate == f.engagementRate.v
  {
    StoredItem(
      ContentItem(
        TextOr(f.platform, "YouTube"),
        TextOr(f.externalId, ""),
        TextOr(f.url, ""),
        TextOr(f.title, ""),
        RawInt(f.views).value,
        RawInt(f.likes).value,
        RawInt(f.commentsCount).value),
      RawReal(f.engagementRate).value)
  }

  /** The conversion loop as a value: convertible records in order, the others skipped. */
  function ConvertAll(records: seq<StoredFields>): seq<StoredItem> {
    if records == [] then []
    else
      var init, last := records[..|records| - 1], records[|records| - 1];
      ConvertAll(init) + (if Convertible(last) then [ToStoredItem(last)] else [])
  }

  lemma {:induction false} ConvertAllAppend(a: seq<StoredFields>, b: seq<StoredFields>)
    ensures ConvertAll(a + b) == ConvertAll(a) + ConvertAll(b)
    decreases |b|
  {
    if b == [] {
      assert a + b == a;
    } else {
      var init := b[..|b| - 1];
      assert (a + b)[..|a + b| - 1] == a + init;
      ConvertAllAppend(a, init);
    }
  }

  /** A record that fails conversion is dropped and changes nothing else;
      a convertible one contributes exactly its own item, in place. */
  lemma ConvertAllSkipsOnlyBadRecords(a: seq<StoredFields>, r: StoredFields, b: seq<StoredFields>)
    ensures ConvertAll(a + [r] + b)
            == ConvertAll(a) + (if Convertible(r) then [ToStoredItem(r)] else []) + ConvertAll(b)
  {
    ConvertAllAppend(a + [r], b);
    ConvertAllAppend(a, [r]);
    assert [r][..0] == [];
  }

  /** At most one item per record, and one per record exactly when all convert. */
  lemma {:induction false} ConvertAllLength(records: seq<StoredFields>)
    ensures |ConvertAll(records)| <= |records|
    ensures (forall i :: 0 <= i < |records| ==> Convertible(records[i]))
            ==> |ConvertAll(records)| == |records|
  {
    if records != [] {
      ConvertAllLength(records[..|records| - 1]);
    }
  }

  /** `fetch_content_items` as a value. */
  function ContentItemsOf(cfg: Config, limit: Option<int>, resp: ListResponse): (r: Result<seq<StoredItem>, MwsError>)
    ensures (cfg.baseUrl == "" || cfg.tableId == "") ==> r == Err(MissingTableConfig)
    ensures cfg.baseUrl != "" && cfg.tableId != "" && cfg.token == "" ==> r == Err(MissingToken)
    ensures cfg.baseUrl != "" && cfg.tableId != "" && cfg.token != "" && resp.status != 200
            ==> r == Err(ListFailed(resp.status))
    ensures r.Ok? <==> cfg.baseUrl != "" && cfg.tableId != "" && cfg.token != "" && resp.status == 200
    ensures r.Ok? && limit.Some? ==> |r.value| <= Max(limit.value, 0)
    ensures r.Ok? ==> r.value == ConvertAll(LastRecords(resp.records, limit))
  {
    if cfg.baseUrl == "" || cfg.tableId == "" then Err(MissingTableConfig)
    else if cfg.token == "" then Err(MissingToken)
    else if resp.status != 200 then Err(ListFailed(resp.status))
    else
      ConvertAllLength(LastRecords(resp.records, limit));
      Ok(ConvertAll(LastRecords(resp.records, limit)))
  }

  /** An item is in the list of a conversion exactly when some record converts to it. */
  lemma {:induction false} ConvertAllMembers(records: seq<StoredFields>, x: StoredItem)
    ensures x in ConvertAll(records)
            <==> exists i :: 0 <= i < |records| && Convertible(records[i]) && x == ToStoredItem(records[i])
  {
    if records != [] {
      var init, last := records[..|records| - 1], records[|records| - 1];
      ConvertAllMembers(init, x);
      assert forall i :: 0 <= i < |init| ==> init[i] == records[i];
    }
  }

  /** The items read are the conversions of the convertible records among the
      last `limit` stored records, in stored order and once each: the list is
      the conversion of that suffix, and an item is in it exactly when one of
      those records converts to it. */
  lemma FetchedItemsComeFromLastRecords(cfg: Config, limit: int, resp: ListResponse, x: StoredItem)
    requires ContentItemsOf(cfg, Some(limit), resp).Ok?
    ensures var kept := Min(Max(limit, 0), |resp.records|);
            ContentItemsOf(cfg, Some(limit), resp).value == ConvertAll(resp.records[|resp.records| - kept..])
    ensures var kept := Min(Max(limit, 0), |resp.records|);
            x in ContentItemsOf(cfg, Some(limit), resp).value
            <==> exists i :: |resp.records| - kept <= i < |resp.records|
                             && Convertible(resp.records[i]) && x == ToStoredItem(resp.records[i])
  {
    var last := LastRecords(resp.records, Some(limit));
    var off := |resp.records| - |last|;
    ConvertAllMembers(last, x);
    if x in ContentItemsOf(cfg, Some(limit), resp).value {
      var i :| 0 <= i < |last| && Convertible(last[i]) && x == ToStoredItem(last[i]);
      assert last[i] == resp.records[off + i];
    } else {
      forall i | off <= i < |resp.records| && Convertible(resp.records[i])
        ensures x != ToStoredItem(resp.records[i])
      {
        assert resp.records[i] == last[i - off];
      }
    }
  }

  /** `fetch_content_items`: `records` is cut to its last `limit` entries, then
      the items are appended one convertible record at a time. */
  method FetchContentItems(cfg: Config, limit: Option<int>, resp: ListResponse)
    returns (r: Result<seq<StoredItem>, MwsError>)
    ensures r == ContentItemsOf(cfg, limit, resp)
  {
    if cfg.baseUrl == "" || cfg.tableId == "" {
      return Err(MissingTableConfig);
    }
    if cfg.token == "" {
      return Err(MissingToken);
    }
    if resp.status != 200 {
      return Err(ListFailed(resp.status));
    }
    var records := resp.records;
    records := LastRecords(records, limit);
    var items: seq<StoredItem> := [];
    var i := 0;
    while i < |records|
      invariant 0 <= i <= |records|
      invariant items == ConvertAll(records[..i])
    {
      assert records[..i + 1][..i] == records[..i];
      if Convertible(records[i]) {
        items := items + [ToStoredItem(records[i])];
      }
      i := i + 1;
    }
    assert records[..i] == records;
    r := Ok(items);
  }

  // ---------------------------------------------------------------------------
  // upsert_content_items

  /** The truthy external ids of the stored records, as the `.add` loop collects them. */
  function ExistingIds(records: seq<StoredFields>): (ids: set<string>)
    ensures forall id :: id in ids <==> id != "" && exists i :: 0 <= i < |records| && records[i].externalId == Some(id)
  {
    if records == [] then {}
    else
      var init, last := records[..|records| - 1], records[|records| - 1];
      var ids := ExistingIds(init);
      assert forall i :: 0 <= i < |init| ==> init[i] == records[i];
      if last.externalId.Some? && last.externalId.value != "" then ids + {last.externalId.value} else ids
  }

  /** The input items whose external id is not stored yet, in input order. */
  function NewItems(items: seq<ContentItem>, existing: set<string>): seq<ContentItem> {
    if items == [] then []
    else
      var init, last := items[..|items| - 1], items[|items| - 1];
      NewItems(init, existing) + (if last.externalId !in existing then [last] else [])
  }

  /** Each item occurs in NewItems exactly as often as in the input when its id is
      not stored, and not at all otherwise: the filter neither drops new items nor
      collapses duplicates within the input. */
  lemma {:induction false} NewItemsCounts(items: seq<ContentItem>, existing: set<string>, x: ContentItem)
    ensures multiset(NewItems(items, existing))[x]
            == if x.externalId in existing then 0 else multiset(items)[x]
  {
    if items != [] {
      var init, last := items[..|items| - 1], items[|items| - 1];
      NewItemsCounts(init, existing, x);
      assert items == init + [last];
    }
  }

  lemma {:induction false} NewItemsAppend(a: seq<ContentItem>, b: seq<ContentItem>, existing: set<string>)
    ensures NewItems(a + b, existing) == NewItems(a, existing) + NewItems(b, existing)
    decreases |b|
  {
    if b == [] {
      assert a + b == a;
    } else {
      var init := b[..|b| - 1];
      assert (a + b)[..|a + b| - 1] == a + init;
      NewItemsAppend(a, init, existing);
    }
  }

  /** The filter keeps input order: NewItems is a subsequence of the input, and
      no item of it has a stored id. */
  lemma {:induction false} NewItemsOrdered(items: seq<ContentItem>, existing: set<string>)
    ensures forall x :: x in NewItems(items, existing) ==> x in items && x.externalId !in existing
    ensures forall a, b :: NewItems(a + b, existing) == NewItems(a, existing) + NewItems(b, existing)
  {
    forall x | x in NewItems(items, existing) ensures x in items && x.externalId !in existing {
      NewItemsCounts(items, existing, x);
    }
    forall a, b ensures NewItems(a + b, existing) == NewItems(a, existing) + NewItems(b, existing) {
      NewItemsAppend(a, b, existing);
    }
  }

  ghost predicate DistinctIds(items: seq<ContentItem>) {
    forall i, j :: 0 <= i < j < |items| ==> items[i].externalId != items[j].externalId
  }

  /** When the input's ids are distinct, the items created carry distinct ids
      none of which the table holds: the table stays free of duplicate ids. */
  lemma {:induction false} NewItemsKeepTableDuplicateFree(items: seq<ContentItem>, existing: set<string>)
    requires DistinctIds(items)
    ensures DistinctIds(NewItems(items, existing))
    ensures forall x :: x in NewItems(items, existing) ==> x.externalId !in existing
  {
    if items != [] {
      var init, last := items[..|items| - 1], items[|items| - 1];
      assert DistinctIds(init);
      NewItemsKeepTableDuplicateFree(init, existing);
      var prev := NewItems(init, existing);
      forall x | x in prev ensures x.externalId != last.externalId {
        NewItemsCounts(init, existing, x);
        assert x in multiset(init);
        var i :| 0 <= i < |init| && init[i] == x;
      }
    }
  }

  /** Duplicates within the input are both sent: the id is not collapsed. */
  lemma InputDuplicatesAreNotCollapsed(x: ContentItem, existing: set<string>)
    requires x.externalId !in existing
    ensures NewItems([x, x], existing) == [x, x]
  {
    assert [x, x][..1] == [x];
    assert [x][..0] == [];
    assert NewItems([x], existing) == [x];
  }

  /** The payload of one new item: its fields and its computed engagement rate. */
  function PayloadOf(item: ContentItem): (p: Payload)
    ensures p.item == item
    ensures item.views > 0 ==> p.engagementRate * item.views as real == (item.likes + item.commentsCount) as real
    ensures item.views <= 0 ==> p.engagementRate == 0.0
  {
    Payload(item, EngagementRate(item.views, item.likes, item.commentsCount))
  }

  /** The create request's records: one payload per new item, in order. */
  function Payloads(items: seq<ContentItem>): (r: seq<Payload>)
    ensures |r| == |items|
    ensures forall i :: 0 <= i < |items| ==> r[i] == PayloadOf(items[i])
  {
    if items == [] then [] else [PayloadOf(items[0])] + Payloads(items[1..])
  }

  /** `upsert_content_items` as a value: the count of items written or the error. */
  function UpsertResult(cfg: Config, items: seq<ContentItem>, listResp: ListResponse, createStatus: int)
    : (r: Result<nat, MwsError>)
    ensures (cfg.baseUrl == "" || cfg.tableId == "") ==> r == Err(MissingTableConfig)
    ensures cfg.baseUrl != "" && cfg.tableId != "" && cfg.token == "" ==> r == Err(MissingToken)
    ensures r.Ok? ==> r.value == |NewItems(items, ExistingIds(listResp.records))| <= |items|
    ensures r.Ok? <==> cfg.baseUrl != "" && cfg.tableId != "" && cfg.token != "" && listResp.status == 200
                       && (NewItems(items, ExistingIds(listResp.records)) == []
                           || createStatus == 200 || createStatus == 201)
    ensures r.Ok? && r.value > 0 ==> createStatus == 200 || createStatus == 201
    ensures cfg.baseUrl != "" && cfg.tableId != "" && cfg.token != "" && listResp.status != 200
            ==> r == Err(ListFailed(listResp.status))
    ensures r == Err(CreateFailed(createStatus))
            <==> cfg.baseUrl != "" && cfg.tableId != "" && cfg.token != "" && listResp.status == 200
                 && NewItems(items, ExistingIds(listResp.records)) != []
                 && createStatus != 200 && createStatus != 201
  {
    if cfg.baseUrl == "" || cfg.tableId == "" then Err(MissingTableConfig)
    else if cfg.token == "" then Err(MissingToken)
    else if listResp.status != 200 then Err(ListFailed(listResp.status))
    else
      var newItems := NewItems(items, ExistingIds(listResp.records));
      NewItemsLength(items, ExistingIds(listResp.records));
      if newItems == [] then Ok(0)
      else if createStatus != 200 && createStatus != 201 then Err(CreateFailed(createStatus))
      else Ok(|newItems|)
  }

  lemma {:induction false} NewItemsLength(items: seq<ContentItem>, existing: set<string>)
    ensures |NewItems(items, existing)| <= |items|
  {
    if items != [] {
      NewItemsLength(items[..|items| - 1], existing);
    }
  }

  /** The create request sent, if any: the payloads of the new items. */
  function CreateRequestOf(cfg: Config, items: seq<ContentItem>, listResp: ListResponse): Option<seq<Payload>> {
    if cfg.baseUrl == "" || cfg.tableId == "" || cfg.token == "" || listResp.status != 200 then None
    else
      var newItems := NewItems(items, ExistingIds(listResp.records));
      if newItems == [] then None else Some(Payloads(newItems))
  }

  /** Step 1 of `upsert_content_items`: the `.add` loop over the stored records. */
  method CollectExistingIds(records: seq<StoredFields>) returns (existing: set<string>)
    ensures existing == ExistingIds(records)
  {
    existing := {};
    var i := 0;
    while i < |records|
      invariant 0 <= i <= |records|
      invariant existing == ExistingIds(records[..i])
    {
      assert records[..i + 1][..i] == records[..i];
      var extId := records[i].externalId;
      if extId.Some? && extId.value != "" {
        existing := existing + {extId.value};
      }
      i := i + 1;
    }
    assert records[..i] == records;
  }

  /** Step 2: the append loop keeping the items whose id is not stored. */
  method FilterNewItems(items: seq<ContentItem>, existing: set<string>) returns (newItems: seq<ContentItem>)
    ensures newItems == NewItems(items, existing)
  {
    newItems := [];
    var i := 0;
    while i < |items|
      invariant 0 <= i <= |items|
      invariant newItems == NewItems(items[..i], existing)
    {
      assert items[..i + 1][..i] == items[..i];
      if items[i].externalId !in existing {
        newItems := newItems + [items[i]];
      }
      i := i + 1;
    }
    assert items[..i] == items;
  }

  /** Step 3: the append loop building one payload record per new item. */
  method BuildPayloads(newItems: seq<ContentItem>) returns (payload: seq<Payload>)
    ensures payload == Payloads(newItems)
  {
    payload := [];
    var i := 0;
    while i < |newItems|
      invariant 0 <= i <= |newItems|
      invariant |payload| == i
      invariant forall j :: 0 <= j < i ==> payload[j] == PayloadOf(newItems[j])
    {
      var item := newItems[i];
      var rate := if item.views > 0 then (item.likes + item.commentsCount) as real / item.views as real else 0.0;
      payload := payload + [Payload(item, rate)];
      i := i + 1;
    }
  }

  /** `upsert_content_items`. `created` is the create request's records, `None`
      when no create request is sent. */
  method UpsertContentItems(cfg: Config, items: seq<ContentItem>, listResp: ListResponse, createStatus: int)
    returns (r: Result<nat, MwsError>, created: Option<seq<Payload>>)
    ensures r == UpsertResult(cfg, items, listResp, createStatus)
    ensures created == CreateRequestOf(cfg, items, listResp)
  {
    if cfg.baseUrl == "" || cfg.tableId == "" {
      return Err(MissingTableConfig), None;
    }
    if cfg.token == "" {
      return Err(MissingToken), None;
    }
    if listResp.status != 200 {
      return Err(ListFailed(listResp.status)), None;
    }
    var existing := CollectExistingIds(listResp.records);
    var newItems := FilterNewItems(items, existing);
    if |newItems| == 0 {
      return Ok(0), None;
    }
    var payload := BuildPayloads(newItems);
    created := Some(payload);
    if createStatus != 200 && createStatus != 201 {
      return Err(CreateFailed(createStatus)), created;
    }
    r := Ok(|newItems|);
  }
}
