// The integration log: one row per exchange with an outside system,
// created by `log_success` / `log_failure`, with its type and result drawn
// from fixed lists and its payload kept as JSON text.

module IntegrationLogs {
  import opened Common
  import opened MultiTenant

  const IntegrationTypes: seq<string> := ["csv_export", "api_sync", "webhook", "external_system"]
  const Results: seq<string> := ["success", "failure", "pending"]

  /** One `integration_logs` row; `payload` is the JSON text of the payload. */
  datatype LogRow = LogRow(
    companyId: Option<Id>,
    orderId: Option<Id>,
    integrationType: Option<string>,
    result: Option<string>,
    errorMessage: Option<string>,
    payload: Option<string>)

  datatype LogError = CompanyIdBlank | TypeBlank | TypeNotIncluded | ResultBlank | ResultNotIncluded

  const AllLogErrors: seq<LogError> := [CompanyIdBlank, TypeBlank, TypeNotIncluded, ResultBlank, ResultNotIncluded]

  /** `inclusion: { in: list }`: nil is not in any list. */
  predicate Included(x: Option<string>, list: seq<string>)
  {
    x.Some? && x.value in list
  }

  predicate LogViolates(e: LogError, r: LogRow)
  {
    match e
    case CompanyIdBlank => !CompanyIdPresent(r.companyId)
    case TypeBlank => BlankOpt(r.integrationType)
    case TypeNotIncluded => !Included(r.integrationType, IntegrationTypes)
    case ResultBlank => BlankOpt(r.result)
    case ResultNotIncluded => !Included(r.result, Results)
  }

  function LogErrors(r: LogRow): (res: set<LogError>)
    ensures forall e :: e in res <==> LogViolates(e, r)
  {
    set e | e in AllLogErrors && LogViolates(e, r)
  }

  /** A row is valid exactly when it has a company and listed type and result. */
  lemma LogValidIff(r: LogRow)
    ensures LogErrors(r) == {} <==>
              r.companyId.Some? && Included(r.integrationType, IntegrationTypes) && Included(r.result, Results)
  {
    if r.companyId.Some? && Included(r.integrationType, IntegrationTypes) && Included(r.result, Results) {
      assert forall i :: 0 <= i < |IntegrationTypes| ==> !Blank(IntegrationTypes[i]) by {
        assert IntegrationTypes[0][0] == 'c' && IntegrationTypes[1][0] == 'a';
        assert IntegrationTypes[2][0] == 'w' && IntegrationTypes[3][0] == 'e';
      }
      assert forall i :: 0 <= i < |Results| ==> !Blank(Results[i]) by {
        assert Results[0][0] == 's' && Results[1][0] == 'f' && Results[2][0] == 'p';
      }
      assert forall e :: !LogViolates(e, r);
    } else {
      assert LogViolates(CompanyIdBlank, r) || LogViolates(TypeNotIncluded, r) || LogViolates(ResultNotIncluded, r);
    }
  }

  /** `success?`. */
  predicate Success(r: LogRow)
  {
    r.result == Some("success")
  }

  /** `failure?`. */
  predicate Failure(r: LogRow)
  {
    r.result == Some("failure")
  }

  lemma NotBothSuccessAndFailure(r: LogRow)
    ensures !(Success(r) && Failure(r))
  {
    assert "success" != "failure" by {
      assert "success"[0] != "failure"[0];
    }
  }

  /** The value `JSON.parse` produced, or why there is none. */
  datatype Parsed<J> = NoPayload | Value(value: J) | RawText(text: string)

  /** `parsed_payload`; `parse` is the JSON parser, `None` when it raises. */
  function ParsedPayload<J>(payload: Option<string>, parse: string -> Option<J>): (r: Parsed<J>)
    ensures BlankOpt(payload) <==> r.NoPayload?
    ensures r.Value? ==> parse(payload.value) == Some(r.value)
    ensures r.RawText? ==> payload == Some(r.text) && parse(r.text).None?
  {
    if BlankOpt(payload) then NoPayload
    else match parse(payload.value)
      case Some(v) => Value(v)
      case None => RawText(payload.value)
  }

  /** A payload logged as JSON text reads back as the value it encodes, when
    * the parser inverts the encoder on it. */
  lemma PayloadRoundTrip<J>(v: J, encode: J -> string, parse: string -> Option<J>)
    requires Present(encode(v)) && parse(encode(v)) == Some(v)
    ensures ParsedPayload(Some(encode(v)), parse) == Value(v)
  {
  }

  /** The `integration_logs` table and its two creating class methods. */
  class LogTable {
    var rows: map<Id, LogRow>

    constructor ()
      ensures rows == map[]
    {
      rows := map[];
    }

    /** `create!` of `r` under the fresh id `id`: the row is stored when valid,
      * otherwise the table is unchanged and the errors are returned. */
    method Create(id: Id, r: LogRow) returns (res: Result<LogRow, set<LogError>>)
      requires id !in rows
      modifies this
      ensures res.Ok? <==> LogErrors(r) == {}
      ensures res.Ok? ==> res.value == r && rows == old(rows)[id := r]
      ensures res.Err? ==> res.error == LogErrors(r) && rows == old(rows)
    {
      var errs := LogErrors(r);
      if errs != {} {
        return Err(errs);
      }
      rows := rows[id := r];
      return Ok(r);
    }

    /** `log_success(company:, type:, order:, payload:)`. */
    method LogSuccess(id: Id, companyId: Option<Id>, integrationType: Option<string>, orderId: Option<Id>,
                      payload: Option<string>) returns (res: Result<LogRow, set<LogError>>)
      requires id !in rows
      modifies this
      ensures res.Ok? <==> companyId.Some? && Included(integrationType, IntegrationTypes)
      ensures res.Ok? ==> Success(res.value) && res.value.errorMessage.None? && res.value.payload == payload
                          && rows == old(rows)[id := res.value]
      ensures res.Err? ==> rows == old(rows)
    {
      var r := LogRow(companyId, orderId, integrationType, Some("success"), None, payload);
      LogValidIff(r);
      assert Results[0] == "success";
      res := Create(id, r);
    }

    /** `log_failure(company:, type:, error:, order:, payload:)`. */
    method LogFailure(id: Id, companyId: Option<Id>, integrationType: Option<string>, error: Option<string>,
                      orderId: Option<Id>, payload: Option<string>) returns (res: Result<LogRow, set<LogError>>)
      requires id !in rows
      modifies this
      ensures res.Ok? <==> companyId.Some? && Included(integrationType, IntegrationTypes)
      ensures res.Ok? ==> Failure(res.value) && res.value.errorMessage == error && res.value.payload == payload
                          && rows == old(rows)[id := res.value]
      ensures res.Err? ==> rows == old(rows)
    {
      var r := LogRow(companyId, orderId, integrationType, Some("failure"), error, payload);
      LogValidIff(r);
      assert Results[1] == "failure";
      res := Create(id, r);
    }
  }
}
