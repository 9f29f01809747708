/** The service layer (`src/services/api.ts`): the record shapes the screens
    share, the mappings `getItems` and `getSuppliers` apply to the server's
    records, and the 30-second inventory cache held by `ApiService`. The
    network itself is a parameter: every request is answered by a `Response`
    the caller supplies. */
module Api {
  import opened Common

  /** `InventoryItem`. A missing picture is "". */
  datatype InventoryItem = InventoryItem(
    recordId: string,
    itemId: string,
    itemName: string,
    color: string,
    itemCategory: string,
    itemDescription: string,
    expiryDays: int,
    itemPicture: string,
    currentBalance: int)

  /** `Supplier`. */
  datatype Supplier = Supplier(
    supplierId: string,
    supplierName: string,
    orderPageUrl: string,
    messageUrl: string)

  /** `BalanceUpdateRequest`. */
  datatype BalanceUpdateRequest = BalanceUpdateRequest(
    recordId: string,
    quantityChange: int,
    transactionType: string,
    description: string)

  /** `BalanceUpdateResponse` (the transaction details are left out). */
  datatype BalanceUpdateResponse = BalanceUpdateResponse(
    success: bool,
    transactionId: string,
    newBalance: int)

  /** The outcome of one HTTP request: the body, or the rejected promise. */
  datatype Response<T> = Ok(body: T) | Failed(message: string)

  // ---------------------------------------------------------------------------
  // Record mappings
  // ---------------------------------------------------------------------------

  /** An Airtable attachment as far as the mappings read it. */
  datatype RawAttachment = RawAttachment(url: Option<string>)

  datatype RawItemFields = RawItemFields(
    itemId: Option<string>,
    itemName: Option<string>,
    color: Option<string>,
    itemCategory: Option<string>,
    itemDescription: Option<string>,
    expiryDays: Option<int>,
    itemPicture: Option<seq<RawAttachment>>)

  /** A record of `GET /items`; `fields` may be absent. */
  datatype RawItem = RawItem(id: string, fields: Option<RawItemFields>)

  datatype RawSupplierFields = RawSupplierFields(
    supplierName: Option<string>,
    orderPageUrl: Option<string>,
    messageUrl: Option<string>)

  /** A record of `GET /suppliers`. */
  datatype RawSupplier = RawSupplier(id: string, fields: Option<RawSupplierFields>)

  /** `value || ''` for an optional string. */
  function OrEmpty(o: Option<string>): (r: string)
    ensures o.Some? ==> r == o.value
    ensures o.None? ==> r == ""
  {
    if o.Some? then o.value else ""
  }

  /** `item.fields?.item_picture?.[0]?.url || ''`. */
  function FirstPictureUrl(p: Option<seq<RawAttachment>>): (r: string)
    ensures p.Some? && |p.value| > 0 && p.value[0].url.Some? ==> r == p.value[0].url.value
    ensures !(p.Some? && |p.value| > 0 && p.value[0].url.Some?) ==> r == ""
  {
    if p.Some? && |p.value| > 0 then OrEmpty(p.value[0].url) else ""
  }

  /** The per-record mapping of `getItems`: present fields are copied,
      missing strings become "", a missing expiry becomes 0, the balance is
      always 0 and the picture is the first attachment's url. */
  function MapItem(raw: RawItem): (r: InventoryItem)
    ensures r.recordId == raw.id
    ensures r.currentBalance == 0
    ensures raw.fields.None? ==>
      r == InventoryItem(raw.id, "", "", "", "", "", 0, "", 0)
    ensures raw.fields.Some? ==>
      var f := raw.fields.value;
      && (f.itemName.Some? ==> r.itemName == f.itemName.value)
      && (f.itemName.None? ==> r.itemName == "")
      && (f.color.Some? ==> r.color == f.color.value)
      && (f.color.None? ==> r.color == "")
      && (f.expiryDays.Some? ==> r.expiryDays == f.expiryDays.value)
      && (f.expiryDays.None? ==> r.expiryDays == 0)
      && (f.itemId.Some? ==> r.itemId == f.itemId.value)
      && (f.itemId.None? ==> r.itemId == "")
      && (f.itemCategory.Some? ==> r.itemCategory == f.itemCategory.value)
      && (f.itemCategory.None? ==> r.itemCategory == "")
      && (f.itemDescription.Some? ==> r.itemDescription == f.itemDescription.value)
      && (f.itemDescription.None? ==> r.itemDescription == "")
      && r.itemPicture == FirstPictureUrl(f.itemPicture)
  {
    match raw.fields
    case None => InventoryItem(raw.id, "", "", "", "", "", 0, "", 0)
    case Some(f) =>
      InventoryItem(
        raw.id,
        OrEmpty(f.itemId),
        OrEmpty(f.itemName),
        OrEmpty(f.color),
        OrEmpty(f.itemCategory),
        OrEmpty(f.itemDescription),
        if f.expiryDays.Some? then f.expiryDays.value else 0,
        FirstPictureUrl(f.itemPicture),
        0)
  }

  /** `getItems`: one item per record, in order. */
  function GetItems(raws: seq<RawItem>): (r: seq<InventoryItem>)
    ensures |r| == |raws|
    ensures forall i :: 0 <= i < |raws| ==> r[i] == MapItem(raws[i])
    ensures forall i :: 0 <= i < |raws| ==> r[i].recordId == raws[i].id && r[i].currentBalance == 0
  {
    seq(|raws|, i requires 0 <= i < |raws| => MapItem(raws[i]))
  }

  /** The per-record mapping of `getSuppliers`. */
  function MapSupplier(raw: RawSupplier): (r: Supplier)
    ensures r.supplierId == raw.id
    ensures raw.fields.None? ==> r == Supplier(raw.id, "", "", "")
    ensures raw.fields.Some? ==>
      r.supplierName == OrEmpty(raw.fields.value.supplierName)
      && r.orderPageUrl == OrEmpty(raw.fields.value.orderPageUrl)
      && r.messageUrl == OrEmpty(raw.fields.value.messageUrl)
  {
    match raw.fields
    case None => Supplier(raw.id, "", "", "")
    case Some(f) => Supplier(raw.id, OrEmpty(f.supplierName), OrEmpty(f.orderPageUrl), OrEmpty(f.messageUrl))
  }

  /** `getSuppliers`: one supplier per record, in order. */
  function GetSuppliers(raws: seq<RawSupplier>): (r: seq<Supplier>)
    ensures |r| == |raws|
    ensures forall i :: 0 <= i < |raws| ==> r[i] == MapSupplier(raws[i])
  {
    seq(|raws|, i requires 0 <= i < |raws| => MapSupplier(raws[i]))
  }

  // ---------------------------------------------------------------------------
  // The inventory cache
  // ---------------------------------------------------------------------------

  /** `ApiService.inventoryCache`. Times are milliseconds. */
  datatype InventoryCache = InventoryCache(data: Option<seq<InventoryItem>>, timestamp: int, expiry: int)

  const CacheExpiry: int := 30000

  const InitialCache: InventoryCache := InventoryCache(None, 0, CacheExpiry)

  /** `getInventoryWithBalance` answers from the cache without a request. */
  predicate CacheHit(c: InventoryCache, forceRefresh: bool, now: int)
  {
    !forceRefresh && c.data.Some? && now - c.timestamp < c.expiry
  }

  /** What one call of `getInventoryWithBalance` leaves behind: the new
      cache, what it resolves to, and whether it sent a request. */
  datatype CacheStep = CacheStep(cache: InventoryCache, result: Response<seq<InventoryItem>>, requested: bool)

  /** One call of `getInventoryWithBalance(forceRefresh)` at time `now`;
      `server` is what the request would return. */
  function GetInventoryStep(c: InventoryCache, forceRefresh: bool, now: int,
                            server: Response<seq<InventoryItem>>): (r: CacheStep)
    ensures r.requested <==> !CacheHit(c, forceRefresh, now)
    ensures !r.requested ==> r.cache == c && r.result == Ok(c.data.value)
    ensures r.requested ==> r.result == server
    ensures r.requested && server.Ok? ==>
      r.cache == InventoryCache(Some(server.body), now, c.expiry)
    ensures server.Failed? ==> r.cache == c
    ensures r.cache.expiry == c.expiry
  {
    if CacheHit(c, forceRefresh, now) then CacheStep(c, Ok(c.data.value), false)
    else if server.Ok? then CacheStep(InventoryCache(Some(server.body), now, c.expiry), server, true)
    else CacheStep(c, server, true)
  }

  /** `clearInventoryCache`. */
  function ClearCache(c: InventoryCache): (r: InventoryCache)
    ensures r.data.None? && r.timestamp == 0 && r.expiry == c.expiry
  {
    c.(data := None, timestamp := 0)
  }

  /** A successful fetch is served from the cache by every call that comes
      before the expiry runs out and does not force a refresh. */
  lemma FetchThenHit(c: InventoryCache, t: int, body: seq<InventoryItem>, t': int,
                     server': Response<seq<InventoryItem>>)
    requires !CacheHit(c, false, t) && t <= t' < t + c.expiry
    ensures var first := GetInventoryStep(c, false, t, Ok(body));
            var second := GetInventoryStep(first.cache, false, t', server');
            !second.requested && second.result == Ok(body) && second.cache == first.cache
  {
  }

  /** Once the expiry has passed, the next call goes to the server again. */
  lemma ExpiredRefetches(c: InventoryCache, t: int, body: seq<InventoryItem>, t': int,
                         server': Response<seq<InventoryItem>>)
    requires !CacheHit(c, false, t) && t' >= t + c.expiry
    ensures GetInventoryStep(GetInventoryStep(c, false, t, Ok(body)).cache, false, t', server').requested
  {
  }

  /** After `clearInventoryCache` the next call always sends a request. */
  lemma ClearForcesFetch(c: InventoryCache, forceRefresh: bool, now: int, server: Response<seq<InventoryItem>>)
    ensures GetInventoryStep(ClearCache(c), forceRefresh, now, server).requested
  {
  }

  /** The expiry stays 30000 through any run of calls and clears. */
  lemma {:induction false} ExpiryConstant(c: InventoryCache, calls: seq<(bool, int, Response<seq<InventoryItem>>, bool)>)
    requires c.expiry == CacheExpiry
    ensures RunCache(c, calls).expiry == CacheExpiry
    decreases |calls|
  {
    if calls != [] {
      var (force, now, server, clear) := calls[0];
      var next := if clear then ClearCache(c) else GetInventoryStep(c, force, now, server).cache;
      ExpiryConstant(next, calls[1..]);
    }
  }

  /** The cache after a run of calls; a call with the last flag set is a
      `clearInventoryCache`, the others are `getInventoryWithBalance`. */
  function RunCache(c: InventoryCache, calls: seq<(bool, int, Response<seq<InventoryItem>>, bool)>): InventoryCache
    decreases |calls|
  {
    if calls == [] then c
    else
      var (force, now, server, clear) := calls[0];
      RunCache(if clear then ClearCache(c) else GetInventoryStep(c, force, now, server).cache, calls[1..])
  }

  /** `ApiService`, reduced to its one piece of mutable state. */
  class ApiService {
    var inventoryCache: InventoryCache

    ghost predicate Valid()
      reads this
    {
      inventoryCache.expiry == CacheExpiry
    }

    constructor ()
      ensures Valid() && inventoryCache == InitialCache
    {
      inventoryCache := InitialCache;
    }

    /** `getInventoryWithBalance(forceRefresh)` at time `now`. */
    method GetInventoryWithBalance(forceRefresh: bool, now: int, server: Response<seq<InventoryItem>>)
      returns (result: Response<seq<InventoryItem>>, requested: bool)
      requires Valid()
      modifies this
      ensures Valid()
      ensures var step := GetInventoryStep(old(inventoryCache), forceRefresh, now, server);
              inventoryCache == step.cache && result == step.result && requested == step.requested
    {
      if !forceRefresh && inventoryCache.data.Some? && now - inventoryCache.timestamp < inventoryCache.expiry {
        return Ok(inventoryCache.data.value), false;
      }
      requested := true;
      result := server;
      if server.Ok? {
        inventoryCache := InventoryCache(Some(server.body), now, inventoryCache.expiry);
      }
    }

    /** `clearInventoryCache()`. */
    method ClearInventoryCache()
      requires Valid()
      modifies this
      ensures Valid() && inventoryCache == ClearCache(old(inventoryCache))
    {
      inventoryCache := inventoryCache.(data := None);
      inventoryCache := inventoryCache.(timestamp := 0);
    }

    /** `updateItemBalance(updateData)`: the POST, then a cache clear. When
        the POST is rejected the promise rejects before the clear. */
    method UpdateItemBalance(updateData: BalanceUpdateRequest, server: Response<BalanceUpdateResponse>)
      returns (result: Response<BalanceUpdateResponse>)
      requires Valid()
      modifies this
      ensures Valid() && result == server
      ensures server.Ok? ==> inventoryCache == ClearCache(old(inventoryCache))
      ensures server.Failed? ==> inventoryCache == old(inventoryCache)
    {
      result := server;
      if server.Ok? {
        ClearInventoryCache();
      }
    }
  }
}
