/**
 * Collecting developers from the register's paginated bulk interface, which is not trusted: pages are read
 * until every requested developer is found or nothing new arrives, and the rest are read one by one.
 */
module BulkDevelopers {
  import opened Wrappers
  import opened Json
  import opened Contracts
  import opened Sorting

  type RawDeveloper = Fields

  datatype Fetch = FetchFailed | Fetched(items: seq<RawDeveloper>, count: nat)

  /** What the n-th call answers when asked for the page at an offset. */
  type Server = (nat, nat) -> Fetch

  datatype ClientError =
    | Unavailable | ItemsWithZeroCount | BadDeveloperId | DifferingRecords(developerId: int)
    | WrongDetail(developerId: int) | NotNormalized(developerId: int)

  const DEVELOPER_API_BATCH_SIZE := 1000

  /** `_read_raw_developer_id`: an integer that is not a boolean. */
  function DeveloperId(raw: RawDeveloper): Option<int> {
    if "devId" in raw && raw["devId"].JInt? then Some(raw["devId"].number) else None
  }

  ghost predicate NamesDeveloper(raw: RawDeveloper, id: int) {
    "devId" in raw && raw["devId"] == JInt(id)
  }

  /** What Python's `==` looks at: booleans and integers count as the numbers they equal. */
  function ComparedJson(j: Json): Json {
    match j
    case JBool(b) => JFloat(if b then 1.0 else 0.0)
    case JInt(n) => JFloat(n as real)
    case JArray(items) => JArray(seq(|items|, i requires 0 <= i < |items| => ComparedJson(items[i])))
    case JObject(members) => JObject(map k | k in members :: ComparedJson(members[k]))
    case _ => j
  }

  predicate SameRecord(a: RawDeveloper, b: RawDeveloper) {
    ComparedJson(JObject(a)) == ComparedJson(JObject(b))
  }

  ghost predicate IsJsonNumber(j: Json, r: real) {
    j == JFloat(r) || (j.JInt? && j.number as real == r) || (j.JBool? && r == if j.flag then 1.0 else 0.0)
  }

  /** Python's `==` on JSON values, part by part. */
  ghost predicate JsonEquals(a: Json, b: Json) {
    || (a == b && (a.JNull? || a.JString?))
    || (exists r :: IsJsonNumber(a, r) && IsJsonNumber(b, r))
    || (a.JArray? && b.JArray? && |a.items| == |b.items|
        && forall i :: 0 <= i < |a.items| ==> JsonEquals(a.items[i], b.items[i]))
    || (a.JObject? && b.JObject? && a.members.Keys == b.members.Keys
        && forall k <- a.members :: JsonEquals(a.members[k], b.members[k]))
  }

  lemma {:induction false} ComparedNumber(j: Json)
    ensures forall r :: IsJsonNumber(j, r) <==> ComparedJson(j) == JFloat(r)
  {
  }

  lemma {:induction false} ComparedMeaning(a: Json, b: Json)
    ensures ComparedJson(a) == ComparedJson(b) <==> JsonEquals(a, b)
    decreases a, 1
  {
    ComparedNumber(a);
    ComparedNumber(b);
    if a.JArray? && b.JArray? {
      ComparedItems(a, b);
    } else if a.JObject? && b.JObject? {
      ComparedMembers(a, b);
    } else if ComparedJson(a).JFloat? && ComparedJson(a) == ComparedJson(b) {
      assert IsJsonNumber(a, ComparedJson(a).real_) && IsJsonNumber(b, ComparedJson(a).real_);
    }
  }

  lemma {:induction false} ComparedItems(a: Json, b: Json)
    requires a.JArray? && b.JArray?
    ensures ComparedJson(a) == ComparedJson(b) <==> JsonEquals(a, b)
    decreases a, 0
  {
    var x, y := ComparedJson(a).items, ComparedJson(b).items;
    forall i | 0 <= i < |a.items| && i < |b.items|
      ensures x[i] == y[i] <==> JsonEquals(a.items[i], b.items[i])
    {
      ComparedMeaning(a.items[i], b.items[i]);
    }
    assert x == y <==> |x| == |y| && forall i :: 0 <= i < |x| ==> x[i] == y[i];
  }

  lemma {:induction false} ComparedMembers(a: Json, b: Json)
    requires a.JObject? && b.JObject?
    ensures ComparedJson(a) == ComparedJson(b) <==> JsonEquals(a, b)
    decreases a, 0
  {
    var x, y := ComparedJson(a).members, ComparedJson(b).members;
    forall k | k in a.members && k in b.members
      ensures x[k] == y[k] <==> JsonEquals(a.members[k], b.members[k])
    {
      ComparedMeaning(a.members[k], b.members[k]);
    }
    assert x.Keys == a.members.Keys && y.Keys == b.members.Keys;
    assert x == y <==> x.Keys == y.Keys && forall k <- x :: x[k] == y[k];
  }

  // ----- what the records read so far amount to -----

  /** The records of the first pages; the next page is asked for at the number of records read. */
  function RecordsRead(server: Server, pages: nat): seq<RawDeveloper> {
    if pages == 0 then []
    else
      var before := RecordsRead(server, pages - 1);
      var fetch := server(pages - 1, |before|);
      before + if fetch.Fetched? then fetch.items else []
  }

  function PageAt(server: Server, page: nat): Fetch {
    server(page, |RecordsRead(server, page)|)
  }

  /** The first record of every developer. */
  function Registry(records: seq<RawDeveloper>): map<int, RawDeveloper> {
    if records == [] then map[]
    else
      var before, last := Registry(records[..|records| - 1]), records[|records| - 1];
      if DeveloperId(last).None? || DeveloperId(last).value in before then before
      else before[DeveloperId(last).value := last]
  }

  /** The latest record of every requested developer. */
  function Requested(records: seq<RawDeveloper>, ids: set<int>): map<int, RawDeveloper> {
    if records == [] then map[]
    else
      var before, last := Requested(records[..|records| - 1], ids), records[|records| - 1];
      if DeveloperId(last).Some? && DeveloperId(last).value in ids then before[DeveloperId(last).value := last]
      else before
  }

  /** Every record names its developer, and no developer has two different records. */
  ghost predicate Consistent(records: seq<RawDeveloper>) {
    && (forall i :: 0 <= i < |records| ==> DeveloperId(records[i]).Some?)
    && (forall i, j | 0 <= i < j < |records| && DeveloperId(records[i]) == DeveloperId(records[j]) ::
          SameRecord(records[i], records[j]))
  }

  ghost predicate NamesSomeone(raw: RawDeveloper) {
    exists id :: NamesDeveloper(raw, id)
  }

  /** Records of one developer are equal. */
  ghost predicate SameIfSameDeveloper(a: RawDeveloper, b: RawDeveloper) {
    forall id :: NamesDeveloper(a, id) && NamesDeveloper(b, id) ==> JsonEquals(JObject(a), JObject(b))
  }

  lemma {:induction false} RecordMeaning(a: RawDeveloper, b: RawDeveloper)
    ensures DeveloperId(a).Some? <==> NamesSomeone(a)
    ensures DeveloperId(a).Some? ==>
              ((DeveloperId(a) == DeveloperId(b) ==> SameRecord(a, b)) <==> SameIfSameDeveloper(a, b))
  {
    ComparedMeaning(JObject(a), JObject(b));
    if DeveloperId(a).Some? {
      assert NamesDeveloper(a, DeveloperId(a).value);
    }
  }

  /** The same as Consistent, in terms of the records alone. */
  lemma {:induction false} ConsistentMeaning(records: seq<RawDeveloper>)
    ensures Consistent(records) <==>
              && (forall i :: 0 <= i < |records| ==> NamesSomeone(records[i]))
              && (forall i, j :: 0 <= i < j < |records| ==> SameIfSameDeveloper(records[i], records[j]))
  {
    forall i, j | 0 <= i < |records| && 0 <= j < |records|
      ensures DeveloperId(records[i]).Some? <==> NamesSomeone(records[i])
      ensures DeveloperId(records[i]).Some? ==>
                ((DeveloperId(records[i]) == DeveloperId(records[j]) ==> SameRecord(records[i], records[j]))
                 <==> SameIfSameDeveloper(records[i], records[j]))
    {
      RecordMeaning(records[i], records[j]);
    }
  }

  lemma {:induction false} RegistryIsFirst(records: seq<RawDeveloper>, id: int)
    ensures id in Registry(records) <==> exists i :: 0 <= i < |records| && DeveloperId(records[i]) == Some(id)
    ensures id in Registry(records) ==> exists i :: 0 <= i < |records| && records[i] == Registry(records)[id]
                                                    && DeveloperId(records[i]) == Some(id)
  {
    if records != [] {
      RegistryIsFirst(records[..|records| - 1], id);
      assert records == records[..|records| - 1] + [records[|records| - 1]];
    }
  }

  lemma {:induction false} RequestedIsRead(records: seq<RawDeveloper>, ids: set<int>, id: int)
    ensures id in Requested(records, ids) <==>
              id in ids && exists i :: 0 <= i < |records| && DeveloperId(records[i]) == Some(id)
    ensures id in Requested(records, ids) ==>
              exists i ::
                && 0 <= i < |records| && records[i] == Requested(records, ids)[id]
                && DeveloperId(records[i]) == Some(id)
  {
    if records != [] {
      RequestedIsRead(records[..|records| - 1], ids, id);
      assert records == records[..|records| - 1] + [records[|records| - 1]];
    }
  }

  /** The requested map is the registry restricted to the requested ids. */
  lemma {:induction false} RequestedIsRestrictedRegistry(records: seq<RawDeveloper>, ids: set<int>)
    requires Consistent(records)
    ensures Requested(records, ids).Keys == Registry(records).Keys * ids
    ensures forall id <- Requested(records, ids) ::
              id in Registry(records) && SameRecord(Requested(records, ids)[id], Registry(records)[id])
              && DeveloperId(Requested(records, ids)[id]) == Some(id)
  {
    var requested, registry := Requested(records, ids), Registry(records);
    forall id
      ensures id in requested <==> id in registry && id in ids
      ensures id in requested ==> SameRecord(requested[id], registry[id]) && DeveloperId(requested[id]) == Some(id)
    {
      RegistryIsFirst(records, id);
      RequestedIsRead(records, ids, id);
      if id in requested {
        var i :| 0 <= i < |records| && records[i] == requested[id] && DeveloperId(records[i]) == Some(id);
        var j :| 0 <= j < |records| && records[j] == registry[id] && DeveloperId(records[j]) == Some(id);
        assert i < j || j < i || i == j;
      }
    }
  }

  // ----- the collection loop -----

  /** Nothing wrong up to this page: every fetch answered, no count of zero with records, records consistent. */
  ghost predicate Sound(server: Server, pages: nat) {
    && (forall page: nat | page < pages ::
          PageAt(server, page).Fetched? && (PageAt(server, page).count == 0 ==> PageAt(server, page).items == []))
    && Consistent(RecordsRead(server, pages))
  }

  /** After this page there is no reason to go on: all found, a short page, or a page with nothing new. */
  ghost predicate Exhausted(server: Server, pages: nat, ids: set<int>)
    requires pages > 0 && PageAt(server, pages - 1).Fetched?
  {
    var records := RecordsRead(server, pages);
    || ids <= Requested(records, ids).Keys
    || |PageAt(server, pages - 1).items| < 1000
    || Registry(records).Keys == Registry(RecordsRead(server, pages - 1)).Keys
  }

  /** After every page before this one, nothing was wrong and there was reason to go on. */
  ghost predicate WentOn(server: Server, pages: nat, ids: set<int>) {
    forall p | 1 <= p < pages :: Sound(server, p) && !Exhausted(server, p, ids)
  }

  lemma {:induction false} GoesOn(server: Server, pages: nat, ids: set<int>)
    requires pages >= 1 && WentOn(server, pages, ids) && Sound(server, pages) && !Exhausted(server, pages, ids)
    ensures WentOn(server, pages + 1, ids)
  {
  }

  /** The collection stops at this page: with success if nothing was wrong, and then there is nothing left to do. */
  ghost predicate Collected(server: Server, ids: set<int>, pages: nat, r: Result<map<int, RawDeveloper>, ClientError>) {
    && pages >= 1 && WentOn(server, pages, ids)
    && (r.Ok? <==> Sound(server, pages))
    && (r.Ok? ==> Exhausted(server, pages, ids) && r.value == Requested(RecordsRead(server, pages), ids))
  }

  lemma {:induction false} NothingAfterTheStop(server: Server, ids: set<int>, p: nat, q: nat,
      r: Result<map<int, RawDeveloper>, ClientError>)
    requires Collected(server, ids, p, r) && WentOn(server, q, ids)
    ensures q <= p
  {
    if p < q {
      assert false;
    }
  }

  /** There is only one page to stop at, so what is collected, and whether it is, depends on the server alone. */
  lemma {:induction false} CollectionIsDetermined(server: Server, ids: set<int>, p: nat, q: nat,
      r: Result<map<int, RawDeveloper>, ClientError>, other: Result<map<int, RawDeveloper>, ClientError>)
    requires Collected(server, ids, p, r) && Collected(server, ids, q, other)
    ensures p == q && r.Ok? == other.Ok? && (r.Ok? ==> r.value == other.value)
  {
    NothingAfterTheStop(server, ids, p, q, r);
    NothingAfterTheStop(server, ids, q, p, other);
  }

  /** The server draws its records from finitely many developers. */
  ghost predicate DrawsFrom(server: Server, universe: set<int>) {
    forall call, offset | server(call, offset).Fetched? ::
      forall raw <- server(call, offset).items :: DeveloperId(raw).Some? ==> DeveloperId(raw).value in universe
  }

  lemma {:induction false} RegistryWithin(server: Server, universe: set<int>, pages: nat)
    requires DrawsFrom(server, universe)
    ensures Registry(RecordsRead(server, pages)).Keys <= universe
  {
    forall id <- Registry(RecordsRead(server, pages))
      ensures id in universe
    {
      RegistryIsFirst(RecordsRead(server, pages), id);
      var i :| 0 <= i < |RecordsRead(server, pages)| && DeveloperId(RecordsRead(server, pages)[i]) == Some(id);
      RecordsDrawn(server, universe, pages, i);
    }
  }

  lemma {:induction false} RecordsDrawn(server: Server, universe: set<int>, pages: nat, i: nat)
    requires DrawsFrom(server, universe) && i < |RecordsRead(server, pages)|
    requires DeveloperId(RecordsRead(server, pages)[i]).Some?
    ensures DeveloperId(RecordsRead(server, pages)[i]).value in universe
  {
    var before := RecordsRead(server, pages - 1);
    if i < |before| {
      RecordsDrawn(server, universe, pages - 1, i);
    } else {
      assert RecordsRead(server, pages)[i] in server(pages - 1, |before|).items;
    }
  }

  /** One page into the registry and the requested developers, record by record. */
  method TakePage(ghost before: seq<RawDeveloper>, items: seq<RawDeveloper>, ids: set<int>,
      registryIndex: map<int, RawDeveloper>, requestedDevelopers: map<int, RawDeveloper>)
    returns (r: Result<(map<int, RawDeveloper>, map<int, RawDeveloper>, bool), ClientError>)
    requires Consistent(before) && registryIndex == Registry(before) && requestedDevelopers == Requested(before, ids)
    ensures r.Ok? <==> Consistent(before + items)
    ensures r.Ok? ==>
              && r.value.0 == Registry(before + items) && r.value.1 == Requested(before + items, ids)
              && (r.value.2 <==> Registry(before + items).Keys != Registry(before).Keys)
  {
    var registry, requested, hasNew := registryIndex, requestedDevelopers, false;
    assert before + items[..0] == before;
    for i := 0 to |items|
      invariant Consistent(before + items[..i])
      invariant registry == Registry(before + items[..i]) && requested == Requested(before + items[..i], ids)
      invariant Registry(before).Keys <= registry.Keys && (hasNew <==> registry.Keys != Registry(before).Keys)
    {
      var raw := items[i];
      ghost var read := before + items[..i];
      SplitAtRecord(before, items, i);
      var id := DeveloperId(raw);
      if id.None? {
        return Err(BadDeveloperId);
      }
      RegistryIsFirst(read, id.value);
      if id.value in registry && !SameRecord(registry[id.value], raw) {
        DiffersFromRegistry(read, raw, items[i + 1..]);
        return Err(DifferingRecords(id.value));
      }
      StillConsistent(read, raw);
      RegistryNext(read, raw, ids);
      if id.value !in registry {
        registry := registry[id.value := raw];
        hasNew := true;
      }
      if id.value in ids {
        requested := requested[id.value := raw];
      }
    }
    assert items[..|items|] == items;
    return Ok((registry, requested, hasNew));
  }

  lemma {:induction false} SplitAtRecord(before: seq<RawDeveloper>, items: seq<RawDeveloper>, i: nat)
    requires i < |items|
    ensures before + items[..i + 1] == before + items[..i] + [items[i]]
    ensures before + items == before + items[..i] + [items[i]] + items[i + 1..]
    ensures DeveloperId(items[i]).None? ==> !Consistent(before + items)
  {
    assert (before + items)[|before| + i] == items[i];
  }

  lemma {:induction false} RegistryNext(read: seq<RawDeveloper>, raw: RawDeveloper, ids: set<int>)
    requires DeveloperId(raw).Some?
    ensures var id := DeveloperId(raw).value;
            && Registry(read + [raw]) == (if id in Registry(read) then Registry(read) else Registry(read)[id := raw])
            && Requested(read + [raw], ids)
               == if id in ids then Requested(read, ids)[id := raw] else Requested(read, ids)
  {
    assert (read + [raw])[..|read|] == read;
  }

  lemma {:induction false} DiffersFromRegistry(read: seq<RawDeveloper>, raw: RawDeveloper, later: seq<RawDeveloper>)
    requires DeveloperId(raw).Some? && DeveloperId(raw).value in Registry(read)
    requires !SameRecord(Registry(read)[DeveloperId(raw).value], raw)
    ensures !Consistent(read + [raw] + later)
  {
    var all := read + [raw] + later;
    var id := DeveloperId(raw).value;
    RegistryIsFirst(read, id);
    var j :| 0 <= j < |read| && read[j] == Registry(read)[id] && DeveloperId(read[j]) == Some(id);
    assert all[j] == read[j] && all[|read|] == raw;
  }

  lemma {:induction false} StillConsistent(read: seq<RawDeveloper>, raw: RawDeveloper)
    requires Consistent(read) && DeveloperId(raw).Some?
    requires DeveloperId(raw).value in Registry(read) ==> SameRecord(Registry(read)[DeveloperId(raw).value], raw)
    ensures Consistent(read + [raw])
  {
    var id := DeveloperId(raw).value;
    forall i | 0 <= i < |read| && DeveloperId(read[i]) == Some(id)
      ensures SameRecord(read[i], raw)
    {
      RegistryIsFirst(read, id);
      var j :| 0 <= j < |read| && read[j] == Registry(read)[id] && DeveloperId(read[j]) == Some(id);
      assert i < j || j < i || i == j;
    }
  }

  lemma {:induction false} ReadNextPage(server: Server, pages: nat, fetch: Fetch)
    requires fetch == PageAt(server, pages)
    ensures RecordsRead(server, pages + 1) == RecordsRead(server, pages) + if fetch.Fetched? then fetch.items else []
  {
  }

  lemma {:induction false} NextPageSound(server: Server, pages: nat)
    requires Sound(server, pages)
    ensures Sound(server, pages + 1) <==>
              var fetch := PageAt(server, pages);
              && fetch.Fetched? && (fetch.count == 0 ==> fetch.items == [])
              && Consistent(RecordsRead(server, pages) + fetch.items)
  {
    if PageAt(server, pages).Fetched? {
      ReadNextPage(server, pages, PageAt(server, pages));
    }
  }

  /** The registry, the requested developers, whether a record was new, and the number of records of the page. */
  datatype Progress = Progress(
    registry: map<int, RawDeveloper>, requested: map<int, RawDeveloper>, hasNew: bool, size: nat)

  /** Fetches one page and takes it in; fails exactly if something is wrong with it. */
  method ReadPage(server: Server, ids: set<int>, call: nat, offset: nat, registryIndex: map<int, RawDeveloper>,
      requestedDevelopers: map<int, RawDeveloper>) returns (r: Result<Progress, ClientError>)
    requires Sound(server, call) && offset == |RecordsRead(server, call)|
    requires registryIndex == Registry(RecordsRead(server, call))
    requires requestedDevelopers == Requested(RecordsRead(server, call), ids)
    ensures r.Ok? <==> Sound(server, call + 1)
    ensures r.Ok? ==>
              && r.value.registry == Registry(RecordsRead(server, call + 1))
              && r.value.requested == Requested(RecordsRead(server, call + 1), ids)
              && (r.value.hasNew <==> r.value.registry.Keys != registryIndex.Keys)
              && r.value.size == |PageAt(server, call).items|
              && |RecordsRead(server, call + 1)| == offset + r.value.size
              && registryIndex.Keys <= r.value.registry.Keys
  {
    var batch := server(call, offset);
    NextPageSound(server, call);
    if batch.FetchFailed? {
      return Err(Unavailable);
    }
    if batch.count == 0 && batch.items != [] {
      return Err(ItemsWithZeroCount);
    }
    ReadNextPage(server, call, batch);
    RegistryGrows(RecordsRead(server, call), batch.items);
    var page := TakePage(RecordsRead(server, call), batch.items, ids, registryIndex, requestedDevelopers);
    match page {
      case Err(error) => r := Err(error);
      case Ok((registry, requested, hasNew)) => r := Ok(Progress(registry, requested, hasNew, |batch.items|));
    }
  }

  /**
   * `_collect_bulk_developers`. It reads pages until the first that leaves no reason to go on, and fails exactly
   * if something is wrong on the way; it ends because every page but the last adds a developer of the universe.
   */
  method CollectBulkDevelopers(server: Server, ids: set<int>, ghost universe: set<int>)
    returns (r: Result<map<int, RawDeveloper>, ClientError>)
    requires DrawsFrom(server, universe)
    ensures exists pages: nat :: Collected(server, ids, pages, r)
  {
    var registryIndex, requestedDevelopers: map<int, RawDeveloper> := map[], map[];
    var offset, call := 0, 0;
    while true
      invariant Sound(server, call) && WentOn(server, call + 1, ids)
      invariant offset == |RecordsRead(server, call)|
      invariant registryIndex == Registry(RecordsRead(server, call))
      invariant requestedDevelopers == Requested(RecordsRead(server, call), ids)
      decreases universe - registryIndex.Keys
    {
      var page := ReadPage(server, ids, call, offset, registryIndex, requestedDevelopers);
      if page.Err? {
        r := Err(page.error);
        break;
      }
      var progress := page.value;
      RegistryWithin(server, universe, call + 1);
      if ids <= progress.requested.Keys {
        r := Ok(progress.requested);
        break;
      }
      if progress.size < DEVELOPER_API_BATCH_SIZE {
        r := Ok(progress.requested);
        break;
      }
      if !progress.hasNew {
        r := Ok(progress.requested);
        break;
      }
      GoesOn(server, call + 1, ids);
      registryIndex, requestedDevelopers := progress.registry, progress.requested;
      offset := offset + progress.size;
      call := call + 1;
    }
    assert Collected(server, ids, call + 1, r);
  }

  lemma {:induction false} RegistryGrows(before: seq<RawDeveloper>, items: seq<RawDeveloper>)
    ensures Registry(before).Keys <= Registry(before + items).Keys
  {
    forall id <- Registry(before)
      ensures id in Registry(before + items)
    {
      RegistryIsFirst(before, id);
      var i :| 0 <= i < |before| && DeveloperId(before[i]) == Some(id);
      assert (before + items)[i] == before[i];
      RegistryIsFirst(before + items, id);
    }
  }

  // ----- get_developers -----

  /** The page of one developer: its record, or nothing when it cannot be read. */
  type Details = int -> Option<RawDeveloper>

  /** The normaliser takes the id from `devId`, and refuses what breaks the contract. */
  type Normalizer = RawDeveloper -> Option<ExtractedDeveloper>

  ghost predicate KeepsIds(normalize: Normalizer) {
    forall raw: RawDeveloper :: normalize(raw).Some? ==> NamesDeveloper(raw, normalize(raw).value.id)
  }

  /** The record a developer is made from: the bulk one, or the one of its own page. */
  function RecordOf(bulk: map<int, RawDeveloper>, details: Details, id: int): Option<RawDeveloper> {
    if id in bulk then Some(bulk[id])
    else if details(id).Some? && DeveloperId(details(id).value) == Some(id) then details(id)
    else None
  }

  method ReadDetailDeveloper(details: Details, id: int) returns (r: Result<RawDeveloper, ClientError>)
    ensures r.Ok? <==> details(id).Some? && DeveloperId(details(id).value) == Some(id)
    ensures r.Ok? ==> Some(r.value) == details(id)
  {
    var raw := details(id);
    if raw.None? {
      return Err(Unavailable);
    }
    if DeveloperId(raw.value).None? {
      return Err(BadDeveloperId);
    }
    if DeveloperId(raw.value).value != id {
      return Err(WrongDetail(id));
    }
    return Ok(raw.value);
  }

  /** Every requested developer has a record, and the map holds them. */
  ghost predicate AllRecorded(raw: map<int, RawDeveloper>, bulk: map<int, RawDeveloper>, details: Details,
      ids: set<int>)
  {
    forall id <- ids :: id in raw && RecordOf(bulk, details, id) == Some(raw[id])
  }

  /** The detail fallback: developers the bulk pages did not have are read one by one. */
  method ReadMissing(bulk: map<int, RawDeveloper>, details: Details, ids: set<int>)
    returns (r: Result<map<int, RawDeveloper>, ClientError>)
    ensures r.Ok? <==> forall id <- ids :: RecordOf(bulk, details, id).Some?
    ensures r.Ok? ==> AllRecorded(r.value, bulk, details, ids)
  {
    var raw := bulk;
    var missing := Sorted(ids - bulk.Keys);
    for i := 0 to |missing|
      invariant bulk.Keys <= raw.Keys && forall k :: 0 <= k < i ==> missing[k] in raw
      invariant forall id <- raw :: RecordOf(bulk, details, id) == Some(raw[id])
    {
      var detail := ReadDetailDeveloper(details, missing[i]);
      if detail.Err? {
        assert missing[i] in ids && RecordOf(bulk, details, missing[i]) == None;
        return Err(detail.error);
      }
      raw := raw[missing[i] := detail.value];
    }
    forall id <- ids
      ensures id in raw
    {
      assert id in bulk || id in missing;
    }
    return Ok(raw);
  }

  ghost predicate AllNormalized(raw: map<int, RawDeveloper>, normalize: Normalizer, ids: set<int>)
    requires forall id <- ids :: id in raw
  {
    forall id <- ids :: normalize(raw[id]).Some?
  }

  method NormalizeDevelopers(raw: map<int, RawDeveloper>, normalize: Normalizer, ids: set<int>)
    returns (r: Result<seq<ExtractedDeveloper>, ClientError>)
    requires forall id <- ids :: id in raw
    ensures r.Ok? <==> AllNormalized(raw, normalize, ids)
    ensures r.Ok? ==>
              && |r.value| == |Sorted(ids)|
              && forall i :: 0 <= i < |r.value| ==> normalize(raw[Sorted(ids)[i]]) == Some(r.value[i])
  {
    var sorted := Sorted(ids);
    var developers := [];
    for i := 0 to |sorted|
      invariant |developers| == i
      invariant forall k :: 0 <= k < i ==> normalize(raw[sorted[k]]) == Some(developers[k])
    {
      var developer := normalize(raw[sorted[i]]);
      if developer.None? {
        return Err(NotNormalized(sorted[i]));
      }
      developers := developers + [developer.value];
    }
    forall id <- ids
      ensures normalize(raw[id]).Some?
    {
      assert id in sorted;
    }
    return Ok(developers);
  }

  /** What the returned developers are: in ascending order exactly the requested ones, each from its own record. */
  ghost predicate AreTheRequested(developers: seq<ExtractedDeveloper>, bulk: map<int, RawDeveloper>, details: Details,
      normalize: Normalizer, ids: set<int>)
  {
    && |developers| == |Sorted(ids)|
    && forall i :: 0 <= i < |developers| ==>
         var id := Sorted(ids)[i];
         && developers[i].id == id
         && RecordOf(bulk, details, id).Some? && NamesDeveloper(RecordOf(bulk, details, id).value, id)
         && normalize(RecordOf(bulk, details, id).value) == Some(developers[i])
  }

  lemma {:induction false} NormalizedAreRequested(developers: seq<ExtractedDeveloper>, records: seq<RawDeveloper>,
      raw: map<int, RawDeveloper>, details: Details, normalize: Normalizer, ids: set<int>)
    requires Consistent(records) && KeepsIds(normalize)
    requires AllRecorded(raw, Requested(records, ids), details, ids)
    requires |developers| == |Sorted(ids)|
    requires forall i :: 0 <= i < |developers| ==> normalize(raw[Sorted(ids)[i]]) == Some(developers[i])
    ensures AreTheRequested(developers, Requested(records, ids), details, normalize, ids)
  {
    RequestedIsRestrictedRegistry(records, ids);
    forall i | 0 <= i < |developers|
      ensures developers[i].id == Sorted(ids)[i]
    {
      assert Sorted(ids)[i] in ids;
      assert DeveloperId(raw[Sorted(ids)[i]]) == Some(Sorted(ids)[i]);
    }
  }

  /**
   * Exactly the requested developers, in ascending order of id, each from its bulk record or its own page. It
   * fails exactly if the collection fails or some developer has no record or none that can be normalised.
   */
  method GetDevelopers(server: Server, details: Details, normalize: Normalizer, ids: set<int>, ghost universe: set<int>)
    returns (r: Result<seq<ExtractedDeveloper>, ClientError>, ghost pages: nat)
    requires DrawsFrom(server, universe) && KeepsIds(normalize)
    ensures ids == {} ==> r == Ok([])
    ensures ids != {} ==> exists collected :: Collected(server, ids, pages, collected)
    ensures ids != {} ==>
              var bulk := Requested(RecordsRead(server, pages), ids);
              && (r.Ok? <==>
                  && Sound(server, pages)
                  && forall id <- ids ::
                       RecordOf(bulk, details, id).Some? && normalize(RecordOf(bulk, details, id).value).Some?)
              && (r.Ok? ==> AreTheRequested(r.value, bulk, details, normalize, ids))
  {
    if ids == {} {
      return Ok([]), 0;
    }
    var collected := CollectBulkDevelopers(server, ids, universe);
    pages :| Collected(server, ids, pages, collected);
    if collected.Err? {
      return Err(collected.error), pages;
    }
    var raw := ReadMissing(collected.value, details, ids);
    if raw.Err? {
      return Err(raw.error), pages;
    }
    r := NormalizeDevelopers(raw.value, normalize, ids);
    if r.Ok? {
      NormalizedAreRequested(r.value, RecordsRead(server, pages), raw.value, details, normalize, ids);
    }
  }
}
