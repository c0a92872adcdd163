/** The load report as the codec sees it: whatever a load returns can be saved and comes back. */
module StoredReports {
  import opened Wrappers
  import opened Contracts
  import opened Unique
  import opened Codec
  import opened ArtifactStore
  import opened StoredRecords

  // ----- the load report -----

  function StatusText(status: OperationStatus): string {
    match status
    case Success => "SUCCESS"
    case Failed => "FAILED"
    case Unknown => "UNKNOWN"
    case Blocked => "BLOCKED"
  }

  function ErrorText(error: ErrorType): string {
    match error
    case RequestFailedError => "BitrixRequestFailedError"
    case RequestUnknownError => "BitrixRequestUnknownError"
  }

  function StatusValue(status: OperationStatus): Value {
    VEnum("OperationStatus", StatusText(status))
  }

  function OptionalError(error: Option<ErrorType>): Value {
    if error.Some? then VStr(ErrorText(error.value)) else VNone
  }

  lemma {:induction false} StatusesDiffer(a: OperationStatus, b: OperationStatus)
    ensures HasType(PostInit, SEnum("OperationStatus", STATUSES), StatusValue(a))
    ensures StatusValue(a) == StatusValue(b) ==> a == b
  {
    assert STATUSES[0] == "SUCCESS" && STATUSES[1] == "FAILED" && STATUSES[2] == "UNKNOWN" && STATUSES[3] == "BLOCKED";
    assert "SUCCESS"[0] == 'S' && "UNKNOWN"[0] == 'U' && "BLOCKED"[0] == 'B';
  }

  lemma {:induction false} ErrorsDiffer(a: Option<ErrorType>, b: Option<ErrorType>)
    requires OptionalError(a) == OptionalError(b)
    ensures a == b
  {
    assert |"BitrixRequestFailedError"| < |"BitrixRequestUnknownError"|;
  }

  function ResultParts(r: OperationResult): Entries {
    [("operation_id", VStr(r.operationId)), ("status", StatusValue(r.status)), ("crm_id", OptionalId(r.crmId)),
     ("error_type", OptionalError(r.errorType)), ("blocked_by", VTuple(Values(r.blockedBy, TextValue)))]
  }

  function ResultValue(r: OperationResult): Value {
    RecordValue(OtherClass("OperationResult"), ResultParts(r))
  }

  const RESULT_NAMES := ["operation_id", "status", "crm_id", "error_type", "blocked_by"]

  lemma {:induction false} ResultNamesDiffer()
    ensures NoRepeats(RESULT_NAMES)
  {
    var n := RESULT_NAMES;
    assert n[1][0] == 's' && n[2][0] == 'c' && n[3][0] == 'e' && n[4][0] == 'b';
  }

  lemma {:induction false} ResultTyped(r: OperationResult)
    ensures HasType(PostInit, ResultSchema(), ResultValue(r))
  {
    ResultNamesDiffer();
    StatusesDiffer(r.status, r.status);
    ValuesKept(SStr, r.blockedBy, r.blockedBy, TextValue);
    FiveTyped("OperationResult", RESULT_NAMES, Field("operation_id", SStr),
              Field("status", SEnum("OperationStatus", STATUSES)), Field("crm_id", SOption(SInt)),
              Field("error_type", SOption(SStr)), Field("blocked_by", STuple(SStr)), VStr(r.operationId),
              StatusValue(r.status), OptionalId(r.crmId), OptionalError(r.errorType),
              VTuple(Values(r.blockedBy, TextValue)));
  }

  lemma {:induction false} ResultDiffer(a: OperationResult, b: OperationResult)
    requires ResultValue(a) == ResultValue(b)
    ensures a == b
  {
    var x, y := ResultParts(a), ResultParts(b);
    ResultNamesDiffer();
    RecordsDiffer(RESULT_NAMES, x, y);
    assert a.operationId == b.operationId by { assert x[0].1 == y[0].1; }
    assert a.status == b.status by {
      assert x[1].1 == y[1].1;
      StatusesDiffer(a.status, b.status);
    }
    assert a.crmId == b.crmId by { assert x[2].1 == y[2].1; }
    assert a.errorType == b.errorType by {
      assert x[3].1 == y[3].1;
      ErrorsDiffer(a.errorType, b.errorType);
    }
    assert a.blockedBy == b.blockedBy by {
      assert x[4].1 == y[4].1;
      ValuesDiffer(a.blockedBy, b.blockedBy, TextValue);
    }
  }

  function ReportParts(results: seq<OperationResult>): Entries {
    [("operations", VTuple(Values(results, ResultValue)))]
  }

  function ReportValue(results: seq<OperationResult>): Value {
    RecordValue(OtherClass("LoadResult"), ReportParts(results))
  }

  lemma {:induction false} ReportKept(a: seq<OperationResult>, b: seq<OperationResult>)
    ensures HasType(PostInit, LoadResultSchema(), ReportValue(a))
    ensures ReportValue(a) == ReportValue(b) ==> a == b
  {
    var x, y := ReportParts(a), ReportParts(b);
    forall r: OperationResult, q: OperationResult
      ensures HasType(PostInit, ResultSchema(), ResultValue(r))
      ensures ResultValue(r) == ResultValue(q) ==> r == q
    {
      ResultTyped(r);
      if ResultValue(r) == ResultValue(q) {
        ResultDiffer(r, q);
      }
    }
    ValuesKept(ResultSchema(), a, b, ResultValue);
    RecordKept("LoadResult", ["operations"], LoadResultSchema().fields, x, y);
    assert x == y ==> x[0].1 == y[0].1;
  }

  // ----- every report can be stored -----

  /** Every load report can be saved, and what is loaded back is the value of that report and of no other. */
  lemma {:induction false} StoredReportIsTheReport(results: seq<OperationResult>, other: seq<OperationResult>)
    ensures Storable(LoadResultSchema(), ReportValue(results))
    ensures Open(LoadResultSchema(), Envelope(Encode(ReportValue(results)).value)) == Some(ReportValue(other)) <==>
              results == other
  {
    ReportKept(results, other);
    TypedIsStored(LoadResultSchema(), ReportValue(results));
  }
}
