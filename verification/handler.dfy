/**
 * The HTTP handlers (internal/handlers/http/company.go), reduced to their
 * decisions: which status and body a request gets, and whether (and with
 * what) the service is called. Each handler is split at the service call:
 * `...Call` is everything before it, `...Reply` everything after.
 */
module Handler {
  import opened Wrappers
  import opened Domain
  import opened Errors
  import opened JsonShapes

  type Status = int

  const StatusOK: Status := 200
  const StatusBadRequest: Status := 400
  const StatusForbidden: Status := 403
  const StatusNotAcceptable: Status := 406
  const StatusConflict: Status := 409

  datatype Body = NoBody | ErrorJson(error: ErrorBody) | RecordJson(record: GetBody)

  datatype Reply = Reply(status: Status, body: Body)

  /** Before the service call: a short-circuit reply, or the argument the service is called with. */
  datatype Handled<T> = Rejected(reply: Reply) | Call(arg: T)

  /**
   * net/http keeps the first status a handler writes; later `WriteHeader`
   * calls are ignored.
   */
  function FirstWritten(headers: seq<Status>): Status
    requires |headers| > 0
  {
    headers[0]
  }

  /**
   * `errors.As(err, &postres.X)` where X is a package-level `error`
   * variable: the target's type is the `error` interface, which every
   * error value satisfies, so the match succeeds for every error.
   */
  predicate ErrorsAsIntoErrorVar(err: Error) {
    true
  }

  // ---------------------------------------------------------------- create

  /** `create` up to the service call: decode, validate, parse the type, build the record. */
  function CreateCall(decoded: Option<CreateBody>, parse: string -> Option<CompanyType>): (h: Handled<Company>)
    ensures decoded.None? ==> h == Rejected(Reply(StatusBadRequest, NoBody))
    ensures decoded.Some? && !ValidCreate(decoded.value) ==> h == Rejected(Reply(StatusNotAcceptable, NoBody))
    ensures decoded.Some? && ValidCreate(decoded.value) && parse(decoded.value.typeName).None?
            ==> h == Rejected(Reply(StatusNotAcceptable, NoBody))
    ensures h.Call? <==> decoded.Some? && ValidCreate(decoded.value) && parse(decoded.value.typeName).Some?
    ensures h.Call? ==> var b := decoded.value;
      && Populated(h.arg)
      && h.arg.id == NilUuid && h.arg.name == b.name
      && h.arg.description == Some(b.description)
      && h.arg.employeesNumber == b.employeesNumber
      && h.arg.isRegistered == Some(b.isRegistered)
      && h.arg.companyType == parse(b.typeName)
      && h.arg.updatedAt == ZeroTime && h.arg.createdAt == ZeroTime
  {
    if decoded.None? then Rejected(Reply(StatusBadRequest, NoBody))
    else
      var b := decoded.value;
      if !ValidCreate(b) then Rejected(Reply(StatusNotAcceptable, NoBody))
      else
        match parse(b.typeName)
        case None => Rejected(Reply(StatusNotAcceptable, NoBody))
        case Some(ct) =>
          Call(Company(NilUuid, b.name, Some(b.description), b.employeesNumber,
                       Some(b.isRegistered), Some(ct), ZeroTime, ZeroTime))
  }

  /** `create` after the service call, with the status mapping the tests expect. */
  function CreateReply(err: Option<Error>): (r: Reply)
    ensures r.status == StatusOK <==> err.None?
    ensures r.status == StatusConflict <==> err == Some(DuplicateKey)
    ensures err.Some? && err != Some(DuplicateKey) ==> r == Reply(StatusNotAcceptable, NoBody)
    ensures err == Some(DuplicateKey) ==> r.body == ErrorJson(ErrorBody("duplicate name"))
    ensures err.None? ==> r.body == NoBody
  {
    match err
    case None => Reply(StatusOK, NoBody)
    case Some(DuplicateKey) => Reply(StatusConflict, ErrorJson(ErrorBody("duplicate name")))
    case Some(_) => Reply(StatusNotAcceptable, NoBody)
  }

  /**
   * `create`'s error branch as written: it writes 406, and then, since the
   * `errors.As` test matches every error, 409 and the "duplicate name" body.
   */
  function CreateReplyAsWritten(err: Error): (r: Reply)
    ensures r.status == StatusNotAcceptable
    ensures r.body == ErrorJson(ErrorBody("duplicate name"))
  {
    var matched := ErrorsAsIntoErrorVar(err);
    var headers := [StatusNotAcceptable] + (if matched then [StatusConflict] else []);
    Reply(FirstWritten(headers), if matched then ErrorJson(ErrorBody("duplicate name")) else NoBody)
  }

  /** As written, a duplicate name is answered 406, not the 409 the tests expect. */
  lemma DuplicateAnswered406AsWritten()
    ensures CreateReplyAsWritten(DuplicateKey).status == StatusNotAcceptable
    ensures CreateReply(Some(DuplicateKey)).status == StatusConflict
  {
  }

  // ------------------------------------------------------- get/delete/patch

  /** The path check shared by get, delete and patch: an empty `company_name` is 406. */
  function NameCall(nameParam: string): (h: Handled<string>)
    ensures h.Rejected? <==> nameParam == ""
    ensures h.Rejected? ==> h.reply == Reply(StatusNotAcceptable, NoBody)
    ensures h.Call? ==> h.arg == nameParam
  {
    if nameParam == "" then Rejected(Reply(StatusNotAcceptable, NoBody)) else Call(nameParam)
  }

  /** The status get, delete and patch intend for a service error: 409 for NoRowsErr, 400 otherwise. */
  function LookupStatus(err: Error): (s: Status)
    ensures s == StatusConflict <==> err == NoRowsErr
    ensures s != StatusConflict ==> s == StatusBadRequest
  {
    if err == NoRowsErr then StatusConflict else StatusBadRequest
  }

  /**
   * The error branch of get, delete and patch as written: 400, then (the
   * `errors.As` test matching every error) 409 and the message body.
   */
  function LookupReplyAsWritten(err: Error, message: string): (r: Reply)
    ensures r.status == StatusBadRequest
    ensures r.body == ErrorJson(ErrorBody(message))
  {
    var matched := ErrorsAsIntoErrorVar(err);
    var headers := [StatusBadRequest] + (if matched then [StatusConflict] else []);
    Reply(FirstWritten(headers), if matched then ErrorJson(ErrorBody(message)) else NoBody)
  }

  /** As written, a missing row is answered 400, not the 409 the tests expect. */
  lemma NoRowsAnswered400AsWritten(message: string)
    ensures LookupReplyAsWritten(NoRowsErr, message).status == StatusBadRequest
    ensures LookupStatus(NoRowsErr) == StatusConflict
  {
  }

  /** The GET response: every optional attribute dereferenced, the type rendered by `String`. */
  function ToGetBody(c: Company): (g: GetBody)
    requires Populated(c)
    ensures g.id == c.id && g.name == c.name
    ensures Some(g.description) == c.description
    ensures Some(g.employeesNumber) == c.employeesNumber
    ensures Some(g.isRegistered) == c.isRegistered
    ensures g.typeName == String(c.companyType.value)
    ensures g.updatedAt == c.updatedAt && g.createdAt == c.createdAt
  {
    GetBody(c.id, c.name, c.description.value, c.employeesNumber.value, c.isRegistered.value,
            String(c.companyType.value), c.updatedAt, c.createdAt)
  }

  /** `get` after the service call. A successful record must have every optional attribute. */
  function GetReply(value: Company, err: Option<Error>): (r: Reply)
    requires err.None? ==> Populated(value)
    ensures err.None? ==> r == Reply(StatusOK, RecordJson(ToGetBody(value)))
    ensures err == Some(NoRowsErr) ==> r == Reply(StatusConflict, ErrorJson(ErrorBody("no results")))
    ensures err.Some? && err != Some(NoRowsErr) ==> r == Reply(StatusBadRequest, NoBody)
  {
    match err
    case None => Reply(StatusOK, RecordJson(ToGetBody(value)))
    case Some(e) =>
      if LookupStatus(e) == StatusConflict then Reply(StatusConflict, ErrorJson(ErrorBody("no results")))
      else Reply(StatusBadRequest, NoBody)
  }

  /** `delete` and `patch` after the service call: both handlers end the same way. */
  function MutationReply(err: Option<Error>): (r: Reply)
    ensures err.None? <==> r == Reply(StatusOK, NoBody)
    ensures err == Some(NoRowsErr) ==> r == Reply(StatusConflict, ErrorJson(ErrorBody("no entries affected")))
    ensures err.Some? && err != Some(NoRowsErr) ==> r == Reply(StatusBadRequest, NoBody)
  {
    match err
    case None => Reply(StatusOK, NoBody)
    case Some(e) =>
      if LookupStatus(e) == StatusConflict then Reply(StatusConflict, ErrorJson(ErrorBody("no entries affected")))
      else Reply(StatusBadRequest, NoBody)
  }

  /**
   * The patch body turned into a domain record: the four copied fields
   * unchanged, an absent type left absent, a present one parsed (None when
   * the parser rejects it). The id and timestamps stay at their zero values.
   */
  function PatchToDomain(b: PatchBody, parse: string -> Option<CompanyType>): (r: Option<Company>)
    ensures r.None? <==> b.typeName.Some? && parse(b.typeName.value).None?
    ensures r.Some? ==>
      && r.value.id == NilUuid && r.value.name == b.name
      && r.value.description == b.description
      && r.value.employeesNumber == b.employeesNumber
      && r.value.isRegistered == b.isRegistered
      && (b.typeName.None? ==> r.value.companyType.None?)
      && (b.typeName.Some? ==> r.value.companyType == parse(b.typeName.value))
      && r.value.updatedAt == ZeroTime && r.value.createdAt == ZeroTime
  {
    var d := Company(NilUuid, b.name, b.description, b.employeesNumber, b.isRegistered, None, ZeroTime, ZeroTime);
    match b.typeName
    case None => Some(d)
    case Some(text) =>
      match parse(text)
      case None => None
      case Some(ct) => Some(d.(companyType := Some(ct)))
  }

  /**
   * `patch` up to the service call: the path check, decoding, then the type.
   * There is no validation step that can fail: the body has no tags.
   */
  function PatchCall(nameParam: string, decoded: Option<PatchBody>, parse: string -> Option<CompanyType>)
    : (h: Handled<(Company, string)>)
    ensures nameParam == "" ==> h == Rejected(Reply(StatusNotAcceptable, NoBody))
    ensures nameParam != "" && decoded.None? ==> h == Rejected(Reply(StatusBadRequest, NoBody))
    ensures h.Rejected? ==> h.reply.body == NoBody
    ensures h.Rejected? ==>
      (h.reply.status == StatusNotAcceptable <==>
         nameParam == "" || (decoded.Some? && PatchToDomain(decoded.value, parse).None?))
    ensures h.Call? <==> nameParam != "" && decoded.Some? && PatchToDomain(decoded.value, parse).Some?
    ensures h.Call? ==> h.arg == (PatchToDomain(decoded.value, parse).value, nameParam)
  {
    if nameParam == "" then Rejected(Reply(StatusNotAcceptable, NoBody))
    else if decoded.None? then Rejected(Reply(StatusBadRequest, NoBody))
    else
      match PatchToDomain(decoded.value, parse)
      case None => Rejected(Reply(StatusNotAcceptable, NoBody))
      case Some(d) => Call((d, nameParam))
  }
}
