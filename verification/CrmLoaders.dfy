/**
 * The CrmProvider loaders: what of the CRM's answers becomes the existing index. Every loader refuses
 * ambiguous data, so the index it returns has one entry per natural key.
 */
module CrmLoaders {
  import opened Wrappers
  import opened Text
  import opened Json
  import opened Contracts
  import opened Unique
  import opened Readings
  import opened Transformer
  import opened Indexing

  datatype LoaderError =
    | InvalidId
    | MissingField
    | DuplicateSourceId(sourceId: int)
    | AmbiguousInn
    | InvalidInn
    | ManagerUnresolved(name: string)

  // ----- source id pairs -----

  /** A CRM record without a link to the source. */
  predicate IsBlank(value: Json) {
    value.JNull? || (value.JString? && !HasText(value.text))
  }

  /** The (source id, CRM id) a record carries; None for a record without a link. */
  function Link(record: Fields, field: string): Result<Option<(int, int)>, LoaderError> {
    if RecordId(record, "id").None? then Err(InvalidId)
    else if field !in record then Err(MissingField)
    else if IsBlank(record[field]) then Ok(None)
    else if ParseId(record[field], true).None? then Err(InvalidId)
    else Ok(Some((ParseId(record[field], true).value, RecordId(record, "id").value)))
  }

  predicate HasSource(pairs: seq<(int, int)>, id: int) {
    exists i :: 0 <= i < |pairs| && pairs[i].0 == id
  }

  function SourceIdPairs(records: seq<Fields>, field: string, allowDuplicates: bool)
    : Result<seq<(int, int)>, LoaderError>
  {
    if records == [] then Ok([])
    else
      var pairs :- SourceIdPairs(records[..|records| - 1], field, allowDuplicates);
      var link :- Link(records[|records| - 1], field);
      if link.None? then Ok(pairs)
      else if !HasSource(pairs, link.value.0) then Ok(pairs + [link.value])
      else if allowDuplicates then Ok(pairs)
      else Err(DuplicateSourceId(link.value.0))
  }

  lemma {:induction false} PairsStayFailed(records: seq<Fields>, n: nat, field: string, allowDuplicates: bool)
    requires n <= |records| && SourceIdPairs(records[..n], field, allowDuplicates).Err?
    ensures SourceIdPairs(records, field, allowDuplicates) == SourceIdPairs(records[..n], field, allowDuplicates)
    decreases |records| - n
  {
    if n == |records| {
      assert records[..n] == records;
    } else {
      assert records[..n + 1][..n] == records[..n];
      PairsStayFailed(records, n + 1, field, allowDuplicates);
    }
  }

  method LoadSourceIdPairs(records: seq<Fields>, field: string, allowDuplicates: bool)
    returns (result: Result<seq<(int, int)>, LoaderError>)
    ensures result == SourceIdPairs(records, field, allowDuplicates)
  {
    var pairs: seq<(int, int)>, seen: map<int, int> := [], map[];
    for n := 0 to |records|
      invariant SourceIdPairs(records[..n], field, allowDuplicates) == Ok(pairs)
      invariant forall id :: id in seen <==> HasSource(pairs, id)
    {
      assert records[..n + 1][..n] == records[..n];
      var record := records[n];
      var crmId := RecordId(record, "id");
      if crmId.None? {
        PairsStayFailed(records, n + 1, field, allowDuplicates);
        return Err(InvalidId);
      }
      if field !in record {
        PairsStayFailed(records, n + 1, field, allowDuplicates);
        return Err(MissingField);
      }
      if IsBlank(record[field]) {
        continue;
      }
      var sourceId := ParseId(record[field], true);
      if sourceId.None? {
        PairsStayFailed(records, n + 1, field, allowDuplicates);
        return Err(InvalidId);
      }
      if sourceId.value in seen {
        if allowDuplicates {
          continue;
        }
        PairsStayFailed(records, n + 1, field, allowDuplicates);
        return Err(DuplicateSourceId(sourceId.value));
      }
      seen := seen[sourceId.value := crmId.value];
      HasSourceSnoc(pairs, (sourceId.value, crmId.value));
      pairs := pairs + [(sourceId.value, crmId.value)];
    }
    assert records[..|records|] == records;
    return Ok(pairs);
  }

  lemma {:induction false} HasSourceSnoc(pairs: seq<(int, int)>, pair: (int, int))
    ensures forall id :: HasSource(pairs + [pair], id) <==> HasSource(pairs, id) || id == pair.0
  {
    assert (pairs + [pair])[|pairs|] == pair;
    forall id | HasSource(pairs, id)
      ensures HasSource(pairs + [pair], id)
    {
      var i :| 0 <= i < |pairs| && pairs[i].0 == id;
      assert (pairs + [pair])[i].0 == id;
    }
  }

  /** The record links an entity of the CRM to one of the source. */
  ghost predicate LinksTo(record: Fields, field: string, sourceId: int, crmId: int) {
    FieldReadsAs(record, "id", crmId) && field in record && ReadsAs(record[field], sourceId, true)
  }

  ghost predicate Links(record: Fields, field: string, id: int) {
    exists crmId :: LinksTo(record, field, id, crmId)
  }

  /** The record has an id, and a source id unless that is null or blank. */
  ghost predicate Linkable(record: Fields, field: string) {
    && HasId(record, "id") && field in record
    && (record[field] == JNull || (record[field].JString? && !HasText(record[field].text))
        || exists id :: ReadsAs(record[field], id, true))
  }

  lemma {:induction false} BlankHasNoId(value: Json)
    requires IsBlank(value)
    ensures ParseId(value, true) == None
  {
    if value.JString? {
      var s, p := value.text, DotPosition(value.text);
      assert forall i :: 0 <= i < p ==> s[..p][i] == s[i] && IsSpace(s[i]);
    }
  }

  /** What a record carries, and when it is malformed. */
  lemma {:induction false} LinkMeaning(record: Fields, field: string)
    ensures Link(record, field).Ok? <==> Linkable(record, field)
    ensures forall id, crmId :: Link(record, field) == Ok(Some((id, crmId))) <==> LinksTo(record, field, id, crmId)
    ensures Link(record, field).Ok? ==> forall id :: IsOf(Link(record, field).value, id) <==> Links(record, field, id)
  {
    RecordIdReading(record, "id");
    if field in record {
      forall n
        ensures ParseId(record[field], true) == Some(n) <==> ReadsAs(record[field], n, true)
      {
        IdReading(record[field], n, true);
      }
      if IsBlank(record[field]) {
        BlankHasNoId(record[field]);
      }
      if Link(record, field).Ok? && Link(record, field).value.Some? {
        var pair := Link(record, field).value.value;
        assert LinksTo(record, field, pair.0, pair.1);
      }
    }
  }

  /** Record `k` is the first of its source id, and `pair` is what it carries. */
  ghost predicate FirstOf(records: seq<Fields>, field: string, k: nat, pair: (int, int)) {
    && k < |records| && LinksTo(records[k], field, pair.0, pair.1)
    && forall m :: 0 <= m < k ==> !Links(records[m], field, pair.0)
  }

  ghost predicate AnyLinks(records: seq<Fields>, field: string, id: int) {
    exists k :: 0 <= k < |records| && Links(records[k], field, id)
  }

  lemma {:induction false} AnyLinksSnoc(head: seq<Fields>, last: Fields, field: string)
    ensures forall id :: AnyLinks(head + [last], field, id) <==> AnyLinks(head, field, id) || Links(last, field, id)
  {
    var records := head + [last];
    assert records[|head|] == last;
    forall id
      ensures AnyLinks(records, field, id) <==> AnyLinks(head, field, id) || Links(last, field, id)
    {
      if k :| 0 <= k < |head| && Links(head[k], field, id) {
        assert Links(records[k], field, id);
      }
    }
  }

  ghost predicate IsOf(link: Option<(int, int)>, id: int) {
    link.Some? && link.value.0 == id
  }

  lemma {:induction false} KeysStep(before: seq<(int, int)>, link: Option<(int, int)>, after: seq<(int, int)>)
    requires DistinctKeys(before)
    requires after == if link.None? || HasSource(before, link.value.0) then before else before + [link.value]
    ensures DistinctKeys(after) && forall id :: HasSource(after, id) <==> HasSource(before, id) || IsOf(link, id)
  {
    if link.Some? && !HasSource(before, link.value.0) {
      HasSourceSnoc(before, link.value);
      assert forall i :: 0 <= i < |before| ==> HasSource(before, before[i].0);
    }
  }

  lemma {:induction false} PairsStep(records: seq<Fields>, field: string, allowDuplicates: bool)
    requires records != [] && SourceIdPairs(records, field, allowDuplicates).Ok?
    ensures SourceIdPairs(records[..|records| - 1], field, allowDuplicates).Ok?
    ensures Link(records[|records| - 1], field).Ok?
    ensures var before := SourceIdPairs(records[..|records| - 1], field, allowDuplicates).value;
            var link := Link(records[|records| - 1], field).value;
            SourceIdPairs(records, field, allowDuplicates).value ==
            if link.None? || HasSource(before, link.value.0) then before else before + [link.value]
  {
  }

  /** One pair per linked source id. */
  lemma {:induction false} PairsKeys(records: seq<Fields>, field: string, allowDuplicates: bool)
    requires SourceIdPairs(records, field, allowDuplicates).Ok?
    ensures var pairs := SourceIdPairs(records, field, allowDuplicates).value;
            DistinctKeys(pairs) && forall id :: HasSource(pairs, id) <==> AnyLinks(records, field, id)
  {
    if records != [] {
      var head, last := records[..|records| - 1], records[|records| - 1];
      PairsStep(records, field, allowDuplicates);
      PairsKeys(head, field, allowDuplicates);
      assert records == head + [last];
      AnyLinksSnoc(head, last, field);
      var link := Link(last, field).value;
      KeysStep(SourceIdPairs(head, field, allowDuplicates).value, link,
               SourceIdPairs(records, field, allowDuplicates).value);
      LinkMeaning(last, field);
    }
  }

  /** Each pair comes from the first record with its source id. */
  lemma {:induction false} PairsAreFirst(records: seq<Fields>, field: string, allowDuplicates: bool, i: nat)
    returns (k: nat)
    requires SourceIdPairs(records, field, allowDuplicates).Ok?
    requires i < |SourceIdPairs(records, field, allowDuplicates).value|
    ensures FirstOf(records, field, k, SourceIdPairs(records, field, allowDuplicates).value[i])
  {
    var head, last := records[..|records| - 1], records[|records| - 1];
    var before := SourceIdPairs(head, field, allowDuplicates).value;
    assert forall m :: 0 <= m < |head| ==> head[m] == records[m];
    if i < |before| {
      k := PairsAreFirst(head, field, allowDuplicates, i);
    } else {
      k := |head|;
      PairsKeys(head, field, allowDuplicates);
      LinkMeaning(last, field);
      var id := Link(last, field).value.value.0;
      assert !AnyLinks(head, field, id);
      assert forall m :: 0 <= m < k ==> !Links(head[m], field, id);
    }
  }

  /** Without permission for duplicates, records sharing a source id are refused. */
  lemma {:induction false} PairsRefuseDuplicates(records: seq<Fields>, field: string, k: nat, m: nat, id: int)
    requires SourceIdPairs(records, field, false).Ok? && k < m < |records|
    requires Links(records[k], field, id)
    ensures !Links(records[m], field, id)
  {
    var n := |records| - 1;
    if m < n {
      PairsRefuseDuplicates(records[..n], field, k, m, id);
    } else {
      PairsKeys(records[..n], field, false);
      assert Links(records[..n][k], field, id);
      LinkMeaning(records[n], field);
    }
  }

  ghost predicate AllLinkable(records: seq<Fields>, field: string) {
    forall record <- records :: Linkable(record, field)
  }

  ghost predicate SourcesDistinct(records: seq<Fields>, field: string) {
    forall k, m, id :: 0 <= k < m < |records| && Links(records[k], field, id) ==> !Links(records[m], field, id)
  }

  /** One pair per source id: what the first record that links to it carries. */
  ghost predicate PairsLoaded(pairs: seq<(int, int)>, records: seq<Fields>, field: string) {
    DistinctKeys(pairs) && forall pair :: pair in pairs <==> exists k: nat :: FirstOf(records, field, k, pair)
  }

  lemma {:induction false} PairsFail(records: seq<Fields>, field: string, allowDuplicates: bool)
    requires SourceIdPairs(records, field, allowDuplicates).Err?
    ensures !AllLinkable(records, field) || (!allowDuplicates && !SourcesDistinct(records, field))
  {
    var head, last := records[..|records| - 1], records[|records| - 1];
    if SourceIdPairs(head, field, allowDuplicates).Err? {
      PairsFail(head, field, allowDuplicates);
      assert SourcesDistinct(records, field) ==> SourcesDistinct(head, field);
    } else {
      LinkMeaning(last, field);
      PairsKeys(head, field, allowDuplicates);
      if Link(last, field).Ok? {
        var id := Link(last, field).value.value.0;
        assert AnyLinks(head, field, id) && Links(last, field, id);
        assert IsOf(Link(last, field).value, id);
      }
    }
  }

  lemma {:induction false} PairsAreLinkable(records: seq<Fields>, field: string, allowDuplicates: bool)
    requires SourceIdPairs(records, field, allowDuplicates).Ok?
    ensures AllLinkable(records, field)
  {
    if records != [] {
      var head, last := records[..|records| - 1], records[|records| - 1];
      PairsStep(records, field, allowDuplicates);
      PairsAreLinkable(head, field, allowDuplicates);
      LinkMeaning(last, field);
      assert records == head + [last];
    }
  }

  /**
   * Loading fails exactly on a malformed record or, without permission for duplicates, when two records link to one
   * source id. Otherwise it gives one pair per source id: the first record's.
   */
  lemma {:induction false} PairsMeaning(records: seq<Fields>, field: string, allowDuplicates: bool)
    ensures SourceIdPairs(records, field, allowDuplicates).Ok? <==>
              AllLinkable(records, field) && (allowDuplicates || SourcesDistinct(records, field))
    ensures SourceIdPairs(records, field, allowDuplicates).Ok? ==>
              PairsLoaded(SourceIdPairs(records, field, allowDuplicates).value, records, field)
  {
    if SourceIdPairs(records, field, allowDuplicates).Err? {
      PairsFail(records, field, allowDuplicates);
    } else {
      PairsAreLinkable(records, field, allowDuplicates);
      PairsKeys(records, field, allowDuplicates);
      var pairs := SourceIdPairs(records, field, allowDuplicates).value;
      forall pair
        ensures pair in pairs <==> exists k: nat :: FirstOf(records, field, k, pair)
      {
        PairIsFirst(records, field, allowDuplicates, pair);
      }
      if !allowDuplicates {
        forall k, m, id | 0 <= k < m < |records| && Links(records[k], field, id)
          ensures !Links(records[m], field, id)
        {
          PairsRefuseDuplicates(records, field, k, m, id);
        }
      }
    }
  }

  lemma {:induction false} PairIsFirst(records: seq<Fields>, field: string, allowDuplicates: bool, pair: (int, int))
    requires SourceIdPairs(records, field, allowDuplicates).Ok?
    ensures pair in SourceIdPairs(records, field, allowDuplicates).value <==>
              exists k: nat :: FirstOf(records, field, k, pair)
  {
    var pairs := SourceIdPairs(records, field, allowDuplicates).value;
    if pair in pairs {
      var i :| 0 <= i < |pairs| && pairs[i] == pair;
      var k := PairsAreFirst(records, field, allowDuplicates, i);
    }
    if k: nat :| FirstOf(records, field, k, pair) {
      assert Links(records[k], field, pair.0);
      PairsKeys(records, field, allowDuplicates);
      assert HasSource(pairs, pair.0);
      var i :| 0 <= i < |pairs| && pairs[i].0 == pair.0;
      var first := PairsAreFirst(records, field, allowDuplicates, i);
      assert Links(records[first], field, pair.0);
      LinkMeaning(records[k], field);
    }
  }

  // ----- requisites and developers -----

  datatype ExistingRequisite = ExistingRequisite(inn: string, crmId: int, parentId: int)

  /** The requisite a record stands for; None when it belongs to another owner type or has no INN. */
  function RequisiteOf(record: Fields, ownerType: int): Result<Option<ExistingRequisite>, LoaderError> {
    if "ENTITY_TYPE_ID" in record && ParseId(record["ENTITY_TYPE_ID"], false).None? then Err(InvalidId)
    else if "ENTITY_TYPE_ID" in record && ParseId(record["ENTITY_TYPE_ID"], false).value != ownerType then Ok(None)
    else if RecordId(record, "ID").None? || RecordId(record, "ENTITY_ID").None? then Err(InvalidId)
    else if "RQ_INN" !in record || record["RQ_INN"].JNull? then Ok(None)
    else if !record["RQ_INN"].JString? then Err(InvalidInn)
    else
      var inn := Strip(record["RQ_INN"].text);
      if inn == [] then Ok(None)
      else Ok(Some(ExistingRequisite(inn, RecordId(record, "ID").value, RecordId(record, "ENTITY_ID").value)))
  }

  function Requisites(records: seq<Fields>, ownerType: int): Result<seq<ExistingRequisite>, LoaderError> {
    if records == [] then Ok([])
    else
      var requisites :- Requisites(records[..|records| - 1], ownerType);
      var requisite :- RequisiteOf(records[|records| - 1], ownerType);
      Ok(requisites + if requisite.Some? then [requisite.value] else [])
  }

  ghost predicate OfOtherOwner(record: Fields, ownerType: int) {
    exists other :: other != ownerType && FieldReadsAs(record, "ENTITY_TYPE_ID", other)
  }

  /** The ids of a requisite of the owner type can be read, and its INN is a text or missing. */
  ghost predicate IsReadable(record: Fields, ownerType: int) {
    && ("ENTITY_TYPE_ID" in record ==> HasId(record, "ENTITY_TYPE_ID"))
    && (OfOtherOwner(record, ownerType)
        || (&& HasId(record, "ID") && HasId(record, "ENTITY_ID")
            && ("RQ_INN" in record ==> record["RQ_INN"].JNull? || record["RQ_INN"].JString?)))
  }

  /** The record says that the INN is the company's: a requisite of the owner type with that INN between spaces. */
  ghost predicate GivesInn(record: Fields, ownerType: int, inn: string, company: int) {
    && ("ENTITY_TYPE_ID" in record ==> FieldReadsAs(record, "ENTITY_TYPE_ID", ownerType))
    && HasId(record, "ID") && FieldReadsAs(record, "ENTITY_ID", company)
    && "RQ_INN" in record && record["RQ_INN"].JString? && StripsTo(record["RQ_INN"].text, inn)
  }

  ghost predicate IsRequisite(record: Fields, ownerType: int, r: ExistingRequisite) {
    FieldReadsAs(record, "ID", r.crmId) && GivesInn(record, ownerType, r.inn, r.parentId)
  }

  /** What a requisite record stands for, and when it is malformed. */
  lemma {:induction false} RequisiteReading(record: Fields, ownerType: int)
    ensures RequisiteOf(record, ownerType).Ok? <==> IsReadable(record, ownerType)
    ensures forall r :: RequisiteOf(record, ownerType) == Ok(Some(r)) <==> IsRequisite(record, ownerType, r)
  {
    RecordIdReading(record, "ENTITY_TYPE_ID");
    RecordIdReading(record, "ID");
    RecordIdReading(record, "ENTITY_ID");
    if "RQ_INN" in record && record["RQ_INN"].JString? {
      StripReading(record["RQ_INN"].text);
    }
  }

  ghost predicate Yields(records: seq<Fields>, ownerType: int, r: ExistingRequisite) {
    exists k :: 0 <= k < |records| && IsRequisite(records[k], ownerType, r)
  }

  ghost predicate AllReadable(records: seq<Fields>, ownerType: int) {
    forall k :: 0 <= k < |records| ==> IsReadable(records[k], ownerType)
  }

  /** Loading fails exactly on a malformed record, and otherwise gives the requisites the records stand for. */
  lemma {:induction false} RequisitesMeaning(records: seq<Fields>, ownerType: int)
    ensures Requisites(records, ownerType).Ok? <==> AllReadable(records, ownerType)
    ensures Requisites(records, ownerType).Ok? ==>
              forall r :: r in Requisites(records, ownerType).value <==> Yields(records, ownerType, r)
  {
    if records != [] {
      var head, last := records[..|records| - 1], records[|records| - 1];
      RequisitesMeaning(head, ownerType);
      assert records == head + [last];
      ReadableSnoc(head, last, ownerType);
      RequisiteReading(last, ownerType);
      forall r
        ensures Yields(records, ownerType, r) <==> Yields(head, ownerType, r) || IsRequisite(last, ownerType, r)
      {
        YieldsSnoc(head, last, ownerType, r);
      }
    }
  }

  lemma {:induction false} ReadableSnoc(head: seq<Fields>, last: Fields, ownerType: int)
    ensures AllReadable(head + [last], ownerType) <==> AllReadable(head, ownerType) && IsReadable(last, ownerType)
  {
    var records := head + [last];
    assert records[|head|] == last;
    assert forall k :: 0 <= k < |head| ==> records[k] == head[k];
  }

  lemma {:induction false} YieldsSnoc(head: seq<Fields>, last: Fields, ownerType: int, r: ExistingRequisite)
    ensures Yields(head + [last], ownerType, r) <==>
              Yields(head, ownerType, r) || IsRequisite(last, ownerType, r)
  {
    var records := head + [last];
    assert records[|head|] == last;
    if Yields(head, ownerType, r) {
      var k :| 0 <= k < |head| && IsRequisite(head[k], ownerType, r);
      assert records[k] == head[k];
    }
  }

  lemma {:induction false} RequisitesStayFailed(records: seq<Fields>, n: nat, ownerType: int)
    requires n <= |records| && Requisites(records[..n], ownerType).Err?
    ensures Requisites(records, ownerType) == Requisites(records[..n], ownerType)
    decreases |records| - n
  {
    if n == |records| {
      assert records[..n] == records;
    } else {
      assert records[..n + 1][..n] == records[..n];
      RequisitesStayFailed(records, n + 1, ownerType);
    }
  }

  method LoadExistingRequisites(records: seq<Fields>, ownerType: int)
    returns (result: Result<seq<ExistingRequisite>, LoaderError>)
    ensures result == Requisites(records, ownerType)
  {
    var requisites: seq<ExistingRequisite> := [];
    for n := 0 to |records|
      invariant Requisites(records[..n], ownerType) == Ok(requisites)
    {
      assert records[..n + 1][..n] == records[..n];
      var requisite := RequisiteOf(records[n], ownerType);
      if requisite.Err? {
        RequisitesStayFailed(records, n + 1, ownerType);
        return Err(requisite.error);
      }
      if requisite.value.Some? {
        requisites := requisites + [requisite.value.value];
      } else {
        assert requisites + [] == requisites;
      }
    }
    assert records[..|records|] == records;
    return Ok(requisites);
  }

  /** The companies the requisites of known companies name, refused when an INN names two. */
  ghost predicate OwnsInn(requisites: seq<ExistingRequisite>, companies: set<int>, inn: string, company: int) {
    && company in companies
    && exists i :: 0 <= i < |requisites| && requisites[i].inn == inn && requisites[i].parentId == company
  }

  ghost predicate InnAmbiguous(requisites: seq<ExistingRequisite>, companies: set<int>) {
    exists inn, a, b :: a != b && OwnsInn(requisites, companies, inn, a) && OwnsInn(requisites, companies, inn, b)
  }

  lemma {:induction false} OwnsInnSnoc(head: seq<ExistingRequisite>, r: ExistingRequisite, companies: set<int>,
      inn: string, company: int)
    ensures OwnsInn(head + [r], companies, inn, company) <==>
              OwnsInn(head, companies, inn, company) || (company in companies && r.inn == inn && r.parentId == company)
  {
    var next := head + [r];
    assert next[|head|] == r;
    if OwnsInn(head, companies, inn, company) {
      var i :| 0 <= i < |head| && head[i].inn == inn && head[i].parentId == company;
      assert next[i] == head[i];
    }
  }

  /** `seen` holds the company of every INN of a known company. */
  ghost predicate Tracks(seen: map<string, int>, requisites: seq<ExistingRequisite>, companies: set<int>) {
    && (forall inn :: inn in seen ==> OwnsInn(requisites, companies, inn, seen[inn]))
    && (forall inn, company :: OwnsInn(requisites, companies, inn, company) ==> inn in seen && seen[inn] == company)
  }

  lemma {:induction false} TracksNext(seen: map<string, int>, head: seq<ExistingRequisite>, r: ExistingRequisite,
      companies: set<int>)
    requires Tracks(seen, head, companies)
    ensures r.parentId !in companies ==> Tracks(seen, head + [r], companies)
    ensures r.parentId in companies && r.inn in seen && seen[r.inn] == r.parentId ==>
              Tracks(seen, head + [r], companies)
    ensures r.parentId in companies && r.inn !in seen ==> Tracks(seen[r.inn := r.parentId], head + [r], companies)
    ensures r.parentId in companies ==> OwnsInn(head + [r], companies, r.inn, r.parentId)
  {
    forall inn, company
      ensures OwnsInn(head + [r], companies, inn, company) <==>
                || OwnsInn(head, companies, inn, company)
                || (company in companies && r.inn == inn && r.parentId == company)
    {
      OwnsInnSnoc(head, r, companies, inn, company);
    }
  }

  /** The loop over the requisites: one developer per INN of a known company, refused when an INN names two. */
  method MatchCompanies(companies: set<int>, requisites: seq<ExistingRequisite>)
    returns (result: Result<seq<ExistingDeveloper>, LoaderError>)
    ensures result.Err? <==> InnAmbiguous(requisites, companies)
    ensures result.Err? ==> result.error == AmbiguousInn
    ensures result.Ok? ==> DevelopersIndexed(result.value, requisites, companies)
  {
    var seen: map<string, int>, developers: seq<ExistingDeveloper> := map[], [];
    for n := 0 to |requisites|
      invariant Tracks(seen, requisites[..n], companies)
      invariant DistinctKeys(ExistingDeveloperEntries(developers))
      invariant forall i :: 0 <= i < |developers| ==>
                  developers[i].inn in seen && seen[developers[i].inn] == developers[i].crmId
      invariant forall inn :: inn in seen ==> exists i :: 0 <= i < |developers| && developers[i].inn == inn
    {
      var r := requisites[n];
      assert requisites[..n + 1] == requisites[..n] + [r];
      TracksNext(seen, requisites[..n], r, companies);
      if r.parentId !in companies {
        continue;
      }
      if r.inn in seen {
        if seen[r.inn] != r.parentId {
          OwnsInnWhole(requisites, n + 1, companies, r.inn, r.parentId);
          OwnsInnWhole(requisites, n, companies, r.inn, seen[r.inn]);
          return Err(AmbiguousInn);
        }
        continue;
      }
      ghost var before := developers;
      seen := seen[r.inn := r.parentId];
      developers := developers + [ExistingDeveloper(r.inn, r.parentId)];
      assert developers[|before|].inn == r.inn;
      assert forall i :: 0 <= i < |before| ==> before[i].inn != r.inn && developers[i] == before[i];
      DistinctConcat(ExistingDeveloperEntries(before), [(r.inn, r.parentId)]);
      assert ExistingDeveloperEntries(developers) == ExistingDeveloperEntries(before) + [(r.inn, r.parentId)];
      forall inn | inn in seen
        ensures exists i :: 0 <= i < |developers| && developers[i].inn == inn
      {
        if inn != r.inn {
          var i :| 0 <= i < |before| && before[i].inn == inn;
          assert developers[i].inn == inn;
        }
      }
    }
    assert requisites[..|requisites|] == requisites;
    return Ok(developers);
  }

  lemma {:induction false} OwnsInnWhole(requisites: seq<ExistingRequisite>, n: nat, companies: set<int>, inn: string,
      company: int)
    requires n <= |requisites| && OwnsInn(requisites[..n], companies, inn, company)
    ensures OwnsInn(requisites, companies, inn, company)
  {
    var i :| 0 <= i < n && requisites[..n][i].inn == inn && requisites[..n][i].parentId == company;
    assert requisites[i].inn == inn;
  }

  ghost predicate DevelopersIndexed(developers: seq<ExistingDeveloper>, requisites: seq<ExistingRequisite>,
      companies: set<int>)
  {
    && DistinctKeys(ExistingDeveloperEntries(developers))
    && (forall i :: 0 <= i < |developers| ==> OwnsInn(requisites, companies, developers[i].inn, developers[i].crmId))
    && (forall inn, company :: OwnsInn(requisites, companies, inn, company) ==>
          exists i :: 0 <= i < |developers| && developers[i].inn == inn)
  }

  ghost predicate CompaniesReadable(records: seq<Fields>) {
    forall k :: 0 <= k < |records| ==> HasId(records[k], "id")
  }

  ghost predicate IsCompanyId(records: seq<Fields>, company: int) {
    exists k :: 0 <= k < |records| && FieldReadsAs(records[k], "id", company)
  }

  /** The set comprehension over the company records, refused as soon as one has no id. */
  method CollectCompanyIds(records: seq<Fields>) returns (result: Result<set<int>, LoaderError>)
    ensures result.Ok? <==> CompaniesReadable(records)
    ensures result.Ok? ==> forall company :: company in result.value <==> IsCompanyId(records, company)
    ensures result.Err? ==> result.error == InvalidId
  {
    var ids: set<int> := {};
    for n := 0 to |records|
      invariant CompaniesReadable(records[..n])
      invariant forall company :: company in ids <==> IsCompanyId(records[..n], company)
    {
      var id := RecordId(records[n], "id");
      RecordIdReading(records[n], "id");
      if id.None? {
        return Err(InvalidId);
      }
      CompanyIdsSnoc(records[..n], records[n], id.value);
      assert records[..n + 1] == records[..n] + [records[n]];
      ids := ids + {id.value};
    }
    assert records[..|records|] == records;
    return Ok(ids);
  }

  lemma {:induction false} CompanyIdsSnoc(head: seq<Fields>, last: Fields, id: int)
    requires RecordId(last, "id") == Some(id)
    ensures CompaniesReadable(head) ==> CompaniesReadable(head + [last])
    ensures forall company :: IsCompanyId(head + [last], company) <==> IsCompanyId(head, company) || company == id
  {
    RecordIdReading(last, "id");
    var records := head + [last];
    assert records[|head|] == last;
    assert forall k :: 0 <= k < |head| ==> records[k] == head[k];
  }

  /** An existing company and a requisite that gives it the INN. */
  ghost predicate CompanyHasInn(companyRecords: seq<Fields>, requisiteRecords: seq<Fields>, ownerType: int, inn: string,
      company: int)
  {
    && IsCompanyId(companyRecords, company)
    && exists k :: 0 <= k < |requisiteRecords| && GivesInn(requisiteRecords[k], ownerType, inn, company)
  }

  ghost predicate InnsUnambiguous(companyRecords: seq<Fields>, requisiteRecords: seq<Fields>, ownerType: int) {
    forall inn, a, b ::
      (&& CompanyHasInn(companyRecords, requisiteRecords, ownerType, inn, a)
       && CompanyHasInn(companyRecords, requisiteRecords, ownerType, inn, b)) ==> a == b
  }

  /** One developer per INN of an existing company, with that company. */
  ghost predicate DevelopersLoaded(developers: seq<ExistingDeveloper>, companyRecords: seq<Fields>,
      requisiteRecords: seq<Fields>, ownerType: int)
  {
    && DistinctKeys(ExistingDeveloperEntries(developers))
    && forall inn, company: PositiveInt ::
         ExistingDeveloper(inn, company) in developers <==>
           CompanyHasInn(companyRecords, requisiteRecords, ownerType, inn, company)
  }

  lemma {:induction false} OwnsInnMeaning(companyRecords: seq<Fields>, requisiteRecords: seq<Fields>, ownerType: int,
      companies: set<int>, inn: string, company: int)
    requires Requisites(requisiteRecords, ownerType).Ok?
    requires company in companies <==> IsCompanyId(companyRecords, company)
    ensures OwnsInn(Requisites(requisiteRecords, ownerType).value, companies, inn, company) <==>
              CompanyHasInn(companyRecords, requisiteRecords, ownerType, inn, company)
  {
    var requisites := Requisites(requisiteRecords, ownerType).value;
    RequisitesMeaning(requisiteRecords, ownerType);
    if OwnsInn(requisites, companies, inn, company) {
      var i :| 0 <= i < |requisites| && requisites[i].inn == inn && requisites[i].parentId == company;
      assert Yields(requisiteRecords, ownerType, requisites[i]);
    }
    if CompanyHasInn(companyRecords, requisiteRecords, ownerType, inn, company) {
      var k :| 0 <= k < |requisiteRecords| && GivesInn(requisiteRecords[k], ownerType, inn, company);
      var id :| FieldReadsAs(requisiteRecords[k], "ID", id);
      assert IsRequisite(requisiteRecords[k], ownerType, ExistingRequisite(inn, id, company));
      assert ExistingRequisite(inn, id, company) in requisites;
    }
  }

  lemma {:induction false} MatchedAreLoaded(companyRecords: seq<Fields>, requisiteRecords: seq<Fields>, ownerType: int,
      companies: set<int>)
    requires Requisites(requisiteRecords, ownerType).Ok?
    requires forall company :: company in companies <==> IsCompanyId(companyRecords, company)
    ensures var requisites := Requisites(requisiteRecords, ownerType).value;
            && (InnAmbiguous(requisites, companies) <==> !InnsUnambiguous(companyRecords, requisiteRecords, ownerType))
            && forall developers: seq<ExistingDeveloper> ::
                 DevelopersIndexed(developers, requisites, companies) && !InnAmbiguous(requisites, companies) ==>
                   DevelopersLoaded(developers, companyRecords, requisiteRecords, ownerType)
  {
    var requisites := Requisites(requisiteRecords, ownerType).value;
    forall inn, company
      ensures OwnsInn(requisites, companies, inn, company) <==>
                CompanyHasInn(companyRecords, requisiteRecords, ownerType, inn, company)
    {
      OwnsInnMeaning(companyRecords, requisiteRecords, ownerType, companies, inn, company);
    }
  }

  /**
   * The existing developers, from the records of companies and requisites: one per INN of a known company. It fails
   * exactly on a malformed record or when an INN names two known companies.
   */
  method LoadExistingDevelopers(companyRecords: seq<Fields>, requisiteRecords: seq<Fields>, companyType: int)
    returns (result: Result<seq<ExistingDeveloper>, LoaderError>)
    ensures result.Ok? <==>
              && CompaniesReadable(companyRecords) && AllReadable(requisiteRecords, companyType)
              && InnsUnambiguous(companyRecords, requisiteRecords, companyType)
    ensures result.Ok? ==> DevelopersLoaded(result.value, companyRecords, requisiteRecords, companyType)
    ensures !CompaniesReadable(companyRecords) ==> result == Err(InvalidId)
    ensures CompaniesReadable(companyRecords) && Requisites(requisiteRecords, companyType).Err? ==>
              result == Err(Requisites(requisiteRecords, companyType).error)
    ensures CompaniesReadable(companyRecords) && AllReadable(requisiteRecords, companyType) && result.Err? ==>
              result.error == AmbiguousInn
  {
    RequisitesMeaning(requisiteRecords, companyType);
    var companies :- CollectCompanyIds(companyRecords);
    var requisites :- LoadExistingRequisites(requisiteRecords, companyType);
    MatchedAreLoaded(companyRecords, requisiteRecords, companyType, companies);
    result := MatchCompanies(companies, requisites);
  }

  // ----- managers -----

  /** The CRM's answer to a search for a configured name: the one matching employee, if there is exactly one. */
  type ManagerDirectory = string -> Option<PositiveInt>

  /** One employee per name, with the id the directory gives. */
  ghost predicate ManagersIndexed(managers: seq<Employee>, names: seq<string>, directory: ManagerDirectory) {
    && DistinctKeys(ManagerEntries(managers))
    && (forall name :: name in names <==> exists i :: 0 <= i < |managers| && managers[i].configuredName == name)
    && (forall i :: 0 <= i < |managers| ==> directory(managers[i].configuredName) == Some(managers[i].crmId))
  }

  /** One employee per configured name, or the first name that cannot be resolved. */
  method BuildManagers(defaultName: string, assignedNames: seq<string>, directory: ManagerDirectory)
    returns (result: Result<seq<Employee>, LoaderError>)
    ensures result.Ok? <==> forall name :: name in [defaultName] + assignedNames ==> directory(name).Some?
    ensures result.Ok? ==> ManagersIndexed(result.value, [defaultName] + assignedNames, directory)
  {
    var names := Dedup([defaultName] + assignedNames);
    DedupMeaning([defaultName] + assignedNames);
    var managers: seq<Employee> := [];
    for n := 0 to |names|
      invariant |managers| == n
      invariant forall i :: 0 <= i < n ==>
                  managers[i].configuredName == names[i] && directory(names[i]) == Some(managers[i].crmId)
    {
      if directory(names[n]).None? {
        assert names[n] in [defaultName] + assignedNames;
        return Err(ManagerUnresolved(names[n]));
      }
      managers := managers + [Employee(names[n], directory(names[n]).value)];
    }
    assert forall name :: name in names ==> exists i :: 0 <= i < |managers| && managers[i].configuredName == name;
    return Ok(managers);
  }
}
