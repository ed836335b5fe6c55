/** The response-envelope layer of src/pkg/rest/rest.go: the uniform JSON
    body every endpoint sends, the helpers that build it, and the
    `ErrorDetails` accumulator.

    Writing the body with `echo.Context.JSON` is recorded as a `Sent` value
    (status and envelope); `uuid.GetUUID()` is the `uuid` argument, the token
    the generator hands out at that call. */
module Rest {
  import opened GoLib

  /** A token produced by the UUID generator: never the empty string. */
  type Uuid = s: string | s != "" witness "0"

  /** What an envelope's `result` can carry. `Opaque` stands for any value a
      caller passes through untouched (an account read from the service). */
  datatype Payload =
    | Opaque(id: nat)
    | Token(token: string)
    | Page(page: PaginationResult)

  /** ResponsePaginationResult. */
  datatype PaginationResult = PaginationResult(data: Payload, totalData: int, page: int, totalPage: int)

  /** Response: the envelope. Every field is `omitempty`, so "" strings, an
      empty `detail`, a zero `status` and no `result` are all absent from the
      JSON; a nil and an empty `detail` map print and serialise alike, so the
      empty map stands for both. */
  datatype Response = Response(
    result: Option<Payload>,
    error: string,
    message: string,
    detail: map<string, string>,
    status: int)

  /** One `ctx.JSON(status, response)` call. */
  datatype Sent = Sent(status: int, body: Response)

  /** ResponseResult: the context, here the response it received, and the
      correlation id handed back to the caller. */
  datatype ResponseResult = ResponseResult(sent: Sent, uuid: string)

  /** The JSON keys that survive `omitempty`. */
  function WireKeys(r: Response): (keys: set<string>)
    ensures keys <= {"result", "error", "message", "detail", "status"}
    ensures "error" in keys <==> r.error != ""
    ensures "status" in keys <==> r.status != 0
    ensures "detail" in keys <==> r.detail != map[]
    ensures "result" in keys <==> r.result.Some?
    ensures "message" in keys <==> r.message != ""
  {
    (if r.result.Some? then {"result"} else {})
    + (if r.error != "" then {"error"} else {})
    + (if r.message != "" then {"message"} else {})
    + (if r.detail != map[] then {"detail"} else {})
    + (if r.status != 0 then {"status"} else {})
  }

  // ---------------------------------------------------------------------
  // ErrorDetails
  // ---------------------------------------------------------------------

  /** Reading a Go map: a missing key reads as "". */
  function Lookup(m: map<string, string>, key: string): string
  {
    if key in m then m[key] else ""
  }

  /** The value `Add` leaves under its key: the new reason alone when the key
      held "" (or nothing), otherwise the old text, " | ", the new reason. */
  function Joined(prev: string, val: string): string
  {
    if prev == "" then val else prev + " | " + val
  }

  /** The map after `Add(key, val)`. */
  function Added(m: map<string, string>, key: string, val: string): (r: map<string, string>)
    ensures key in r
    ensures Lookup(m, key) == "" ==> r[key] == val
    ensures Lookup(m, key) != "" ==> r[key] == m[key] + " | " + val
    ensures forall k :: k != key ==> (k in r <==> k in m)
    ensures forall k :: k != key && k in m ==> r[k] == m[k]
  {
    m[key := Joined(Lookup(m, key), val)]
  }

  /** ErrorDetails: a field name to '|'-separated reasons map that handlers
      fill in place through a pointer. */
  class ErrorDetails {
    var entries: map<string, string>

    constructor ()
      ensures entries == map[]
    {
      entries := map[];
    }

    /** Add appends `val` to the reasons recorded under `key`. */
    method Add(key: string, val: string)
      modifies this
      ensures entries == Added(old(entries), key, val)
    {
      if Lookup(entries, key) != "" {
        entries := entries[key := entries[key] + " | "];
        assert entries[key] + val == old(entries)[key] + " | " + val;
      } else {
        assert Lookup(entries, key) + val == val;
      }
      entries := entries[key := Lookup(entries, key) + val];
    }
  }

  /** `vals` added one after another under one key. */
  function AddAll(m: map<string, string>, key: string, vals: seq<string>): map<string, string>
  {
    if vals == [] then m else Added(AddAll(m, key, vals[..|vals| - 1]), key, vals[|vals| - 1])
  }

  /** The reasons joined by " | ", in order. */
  function Join(vals: seq<string>): string
  {
    if |vals| == 0 then ""
    else if |vals| == 1 then vals[0]
    else Join(vals[..|vals| - 1]) + " | " + vals[|vals| - 1]
  }

  /** Adding "a" then "b" to a fresh key gives "a | b". */
  lemma AddTwiceJoins(m: map<string, string>, key: string)
    requires key !in m
    ensures AddAll(m, key, ["a", "b"])[key] == "a | b"
  {
    assert ["a", "b"][..1] == ["a"];
    assert ["a"][..0] == [];
    assert AddAll(m, key, ["a"]) == Added(m, key, "a");
  }

  /** A reason added while the key still reads "" is kept alone: an empty
      first reason is swallowed rather than joined. */
  lemma EmptyReasonSwallowed(m: map<string, string>, key: string, val: string)
    requires key !in m
    ensures AddAll(m, key, ["", val])[key] == val
  {
    assert ["", val][..1] == [""];
    assert [""][..0] == [];
    assert AddAll(m, key, [""]) == Added(m, key, "");
  }

  /** Adding reasons one by one, the first of them non-empty, to a key that
      reads "" leaves exactly their " | "-join under it (a later empty reason
      is joined like any other), and every other key as it was. */
  lemma {:induction false} AddAllJoins(m: map<string, string>, key: string, vals: seq<string>)
    requires Lookup(m, key) == ""
    requires vals == [] || vals[0] != ""
    ensures Lookup(AddAll(m, key, vals), key) == Join(vals)
    ensures forall k :: k != key ==> (k in AddAll(m, key, vals) <==> k in m)
    ensures forall k :: k != key && k in m ==> AddAll(m, key, vals)[k] == m[k]
  {
    if vals != [] {
      var init := vals[..|vals| - 1];
      var last := vals[|vals| - 1];
      assert init == [] || init[0] == vals[0];
      AddAllJoins(m, key, init);
      var before := AddAll(m, key, init);
      if init == [] {
        assert Lookup(before, key) == "";
      } else {
        assert Join(init) != "" by {
          JoinNonEmpty(init);
        }
        assert (init + [last])[..|init|] == init;
      }
    }
  }

  /** A join whose first reason is non-empty is non-empty. */
  lemma {:induction false} JoinNonEmpty(vals: seq<string>)
    requires |vals| > 0
    requires vals[0] != ""
    ensures Join(vals) != ""
  {
  }

  // ---------------------------------------------------------------------
  // Envelope builders
  // ---------------------------------------------------------------------

  /** The message every builder uses: the first message given, extra ones
      ignored, and the reason phrase of `status` when none is given. */
  function PickMessage(status: int, msg: seq<string>): (m: string)
    ensures |msg| == 0 ==> m == StatusText(status)
    ensures |msg| > 0 ==> m == msg[0]
  {
    if |msg| == 0 then StatusText(status) else msg[0]
  }

  /** ResponseData: `result` is the payload, no `error` and no `detail`; the
      id handed back is a fresh token that the body does not carry. */
  function ResponseData(status: int, payload: Payload, msg: seq<string>, uuid: Uuid): (r: ResponseResult)
    ensures r.sent.status == status
    ensures r.sent.body.result == Some(payload)
    ensures r.sent.body.message == PickMessage(status, msg)
    ensures r.sent.body.error == "" && r.sent.body.detail == map[] && r.sent.body.status == 0
    ensures r.uuid == uuid && r.uuid != r.sent.body.error
  {
    ResponseResult(Sent(status, Response(Some(payload), "", PickMessage(status, msg), map[], 0)), uuid)
  }

  /** The pagination descriptor of go-utils. */
  datatype Pagination = Pagination(page: int, limit: int)

  /** What `Paginate` makes of a zero descriptor. */
  const DefaultPagination := Pagination(1, 10)

  /** ResponsePaginationParams. */
  datatype PaginationParams = PaginationParams(data: Payload, totalData: int, pagination: Option<Pagination>)

  /** The descriptor ResponsePagination uses: the one given, else the default. */
  function EffectivePagination(params: PaginationParams): (p: Pagination)
    ensures params.pagination.Some? ==> p == params.pagination.value
    ensures params.pagination.None? ==> p.page == 1 && p.limit > 0
  {
    if params.pagination.Some? then params.pagination.value else DefaultPagination
  }

  /** ResponsePagination: `total_page` is Go's truncating `total_data / limit`
      (for non-negative data and a positive limit, the number of FULL pages),
      `page` is copied, the message is the reason phrase. A missing
      descriptor is replaced by the default rather than rejected; a zero
      limit is a division by zero in Go, so callers must not pass one. */
  function ResponsePagination(status: int, params: PaginationParams, uuid: Uuid): (r: ResponseResult)
    requires params.pagination.None? || params.pagination.value.limit != 0
    ensures r.sent.status == status
    ensures r.sent.body.result.Some? && r.sent.body.result.value.Page?
    ensures var pr := r.sent.body.result.value.page;
      && pr.data == params.data
      && pr.totalData == params.totalData
      && pr.page == EffectivePagination(params).page
      && (params.totalData >= 0 && EffectivePagination(params).limit > 0 ==>
            pr.totalPage * EffectivePagination(params).limit <= params.totalData
            < (pr.totalPage + 1) * EffectivePagination(params).limit)
      && pr.totalPage == Quo(params.totalData, EffectivePagination(params).limit)
    ensures r.sent.body.message == StatusText(status)
    ensures r.sent.body.error == "" && r.sent.body.detail == map[] && r.sent.body.status == 0
    ensures r.uuid == uuid
  {
    var p := EffectivePagination(params);
    var totalPage := Quo(params.totalData, p.limit);
    var result := PaginationResult(params.data, params.totalData, p.page, totalPage);
    ResponseResult(Sent(status, Response(Some(Page(result)), "", StatusText(status), map[], 0)), uuid)
  }

  /** Ten rows at three per page report three pages: the partial fourth
      page is not counted. */
  lemma PartialPageNotCounted(data: Payload, uuid: Uuid)
    ensures ResponsePagination(200, PaginationParams(data, 10, Some(Pagination(1, 3))), uuid)
              .sent.body.result.value.page.totalPage == 3
  {
  }

  /** ResponseMessage: only a message; outside [200, 299] a fresh token goes
      into `error`, and that field is also the id handed back, so a success
      status hands back "". */
  function ResponseMessage(status: int, msg: seq<string>, uuid: Uuid): (r: ResponseResult)
    ensures r.sent.status == status
    ensures r.sent.body.message == PickMessage(status, msg)
    ensures r.sent.body.error != "" <==> !IsSuccess(status)
    ensures !IsSuccess(status) ==> r.sent.body.error == uuid
    ensures r.uuid == r.sent.body.error
    ensures r.sent.body.result.None? && r.sent.body.detail == map[] && r.sent.body.status == 0
  {
    var body := Response(None, "", PickMessage(status, msg), map[], 0);
    var body' := if status < 200 || status > 299 then body.(error := uuid) else body;
    ResponseResult(Sent(status, body'), body'.error)
  }

  /** One failed rule of go-playground's validator: the struct field and the
      tag of the rule it broke. */
  datatype FieldError = FieldError(field: string, tag: string)

  /** The dynamic type of ResponseError's `detail` argument. */
  datatype Detail =
    | ValidationErrors(errs: seq<FieldError>)
    | StringMap(m: map<string, string>)
    | ErrorDetailsPtr(entries: map<string, string>)  // *ErrorDetails, by the map it points to
    | Str(s: string)
    | OtherShape

  /** No validation error has the same lower-cased field after index `i`. */
  ghost predicate LastForField(errs: seq<FieldError>, i: int)
    requires 0 <= i < |errs|
  {
    forall j :: i < j < |errs| ==> ToLower(errs[j].field) != ToLower(errs[i].field)
  }

  /** The detail made of validation errors, in order, each one writing
      `lower(field) := tag`. */
  function ValidationDetail(errs: seq<FieldError>): map<string, string>
  {
    if errs == [] then map[]
    else ValidationDetail(errs[..|errs| - 1])[ToLower(errs[|errs| - 1].field) := errs[|errs| - 1].tag]
  }

  /** The keys of the validation detail are exactly the lower-cased fields
      that failed. */
  lemma {:induction false} ValidationDetailKeys(errs: seq<FieldError>, k: string)
    ensures k in ValidationDetail(errs) <==> exists i :: 0 <= i < |errs| && ToLower(errs[i].field) == k
  {
    if errs != [] {
      var init := errs[..|errs| - 1];
      ValidationDetailKeys(init, k);
      if k in ValidationDetail(init) {
        var i :| 0 <= i < |init| && ToLower(init[i].field) == k;
        assert errs[i] == init[i];
      }
      if exists i :: 0 <= i < |errs| && ToLower(errs[i].field) == k {
        var i :| 0 <= i < |errs| && ToLower(errs[i].field) == k;
        if i < |init| {
          assert init[i] == errs[i];
        }
      }
    }
  }

  /** Each key of the validation detail holds the tag of the LAST error
      naming that (lower-cased) field. */
  lemma {:induction false} ValidationDetailLastWins(errs: seq<FieldError>, i: int)
    requires 0 <= i < |errs| && LastForField(errs, i)
    ensures ToLower(errs[i].field) in ValidationDetail(errs)
    ensures ValidationDetail(errs)[ToLower(errs[i].field)] == errs[i].tag
  {
    if i < |errs| - 1 {
      var init := errs[..|errs| - 1];
      assert init[i] == errs[i];
      assert LastForField(init, i) by {
        forall j | i < j < |init| ensures ToLower(init[j].field) != ToLower(init[i].field) {
          assert init[j] == errs[j];
        }
      }
      ValidationDetailLastWins(init, i);
    }
  }

  /** The `detail` ResponseError derives from each shape. */
  function DetailOf(detail: Detail): (d: map<string, string>)
    ensures detail.ValidationErrors? ==> d == ValidationDetail(detail.errs)
    ensures detail.StringMap? ==> d == detail.m
    ensures detail.ErrorDetailsPtr? ==> d == detail.entries
    ensures detail.Str? ==> d == map["error" := detail.s]
    ensures detail.OtherShape? ==> d == map[]
  {
    match detail
    case ValidationErrors(errs) => ValidationDetail(errs)
    case StringMap(m) => m
    case ErrorDetailsPtr(entries) => entries
    case Str(s) => map["error" := s]
    case OtherShape => map[]
  }

  /** What ResponseError sends: always a fresh token in `error`, handed back
      as the id; the message; the detail derived from the argument's shape. */
  function ErrorResponse(status: int, detail: Detail, msg: seq<string>, uuid: Uuid): (r: ResponseResult)
    ensures r.sent.status == status
    ensures r.sent.body.error == uuid && r.uuid == uuid
    ensures r.sent.body.message == PickMessage(status, msg)
    ensures r.sent.body.detail == DetailOf(detail)
    ensures r.sent.body.result.None? && r.sent.body.status == 0
  {
    ResponseResult(Sent(status, Response(None, uuid, PickMessage(status, msg), DetailOf(detail), 0)), uuid)
  }

  /** ResponseError as written: the dispatch on the detail's dynamic type,
      with the loop over validation errors filling the map. */
  method ResponseError(status: int, detail: Detail, msg: seq<string>, uuid: Uuid) returns (r: ResponseResult)
    ensures r == ErrorResponse(status, detail, msg, uuid)
  {
    var response := Response(None, uuid, PickMessage(status, msg), map[], 0);
    match detail {
      case ValidationErrors(errs) =>
        var d := map[];
        var i := 0;
        while i < |errs|
          invariant 0 <= i <= |errs|
          invariant d == ValidationDetail(errs[..i])
        {
          assert errs[..i + 1][..i] == errs[..i];
          d := d[ToLower(errs[i].field) := errs[i].tag];
          i := i + 1;
        }
        assert errs[..i] == errs;
        response := response.(detail := d);
      case StringMap(m) =>
        response := response.(detail := m);
      case ErrorDetailsPtr(entries) =>
        response := response.(detail := entries);
      case Str(s) =>
        response := response.(detail := map["error" := s]);
      case OtherShape =>
    }
    r := ResponseResult(Sent(status, response), response.error);
  }

  /** A later validation error on the same lower-cased field overwrites an
      earlier one. */
  lemma LaterFieldErrorWins(f: string, g: string, t1: string, t2: string)
    requires ToLower(f) == ToLower(g)
    ensures ValidationDetail([FieldError(f, t1), FieldError(g, t2)]) == map[ToLower(f) := t2]
  {
    var errs := [FieldError(f, t1), FieldError(g, t2)];
    assert errs[..1] == [FieldError(f, t1)];
    assert errs[..1][..0] == [];
    assert ValidationDetail(errs[..1]) == map[ToLower(f) := t1];
  }

  /** None of the builders puts `status` in the body, and only the error
      paths carry a correlation token in it. */
  lemma BuildersWireKeys(status: int, payload: Payload, params: PaginationParams, detail: Detail,
                         msg: seq<string>, uuid: Uuid)
    requires params.pagination.None? || params.pagination.value.limit != 0
    ensures WireKeys(ResponseData(status, payload, msg, uuid).sent.body) <= {"result", "message"}
    ensures WireKeys(ResponsePagination(status, params, uuid).sent.body) <= {"result", "message"}
    ensures WireKeys(ResponseMessage(status, msg, uuid).sent.body) <= {"error", "message"}
    ensures "error" in WireKeys(ResponseMessage(status, msg, uuid).sent.body) <==> !IsSuccess(status)
    ensures "error" in WireKeys(ErrorResponse(status, detail, msg, uuid).sent.body)
    ensures "status" !in WireKeys(ErrorResponse(status, detail, msg, uuid).sent.body)
  {
  }
}
