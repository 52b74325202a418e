/**
  The form relay endpoint: it stores a contact record built from the
  posted body with JavaScript `||` fallbacks, ignores a failure of that
  save, forwards the body to the external forms API and relays the answer.
  The database, the external call and JSON parsing are inputs.
 */
module FormsRelay {
  import opened Wrappers
  import opened Text
  import opened Numbers

  /** The posted JSON, with string-valued `data`; any field may be missing. */
  datatype Body = Body(
    formName: Option<string>,
    data: Option<map<string, string>>,
    email: Option<string>,
    phone: Option<string>,
    source: Option<string>,
    tags: Option<string>)

  datatype Metadata = Metadata(
    formName: Option<string>,
    source: Option<string>,
    tags: Option<string>,
    organization: Option<string>,
    role: Option<string>,
    program: Option<string>,
    fullData: Option<map<string, string>>)

  /** The row written to the database; `None` stands for null or undefined. */
  datatype Record = Record(
    formType: string,
    name: string,
    email: string,
    phone: Option<string>,
    subject: string,
    message: Option<string>,
    metadata: Metadata,
    status: string)

  /** What a throw carried to a `catch`: an Error's message, or something else. */
  datatype Thrown = ErrorWith(message: string) | NotAnError

  /** The result of reading a JSON body: the value, or what the parser threw. */
  datatype Parsed<J> = Json(value: J) | NotJson(thrown: Thrown)

  /** The external call: it threw, or it answered with a status (and, when ok, a JSON body). */
  datatype External<J> = FetchThrew(thrown: Thrown) | Answered(status: int, result: Parsed<J>)

  datatype ReplyBody<J> = Relayed(result: J) | Failed(error: string)

  /** The endpoint's JSON reply and its HTTP status. */
  datatype Reply<J> = Reply(status: int, body: ReplyBody<J>)

  const ContactType: string := "CONTACT"
  const UnreadStatus: string := "UNREAD"
  const UnknownName: string := "Unknown"
  const DefaultSubject: string := "Demo Booking"
  const ExternalErrorPrefix: string := "External API error: "
  const UnknownError: string := "Unknown error"

  /** A string JavaScript treats as true: present and not empty. */
  predicate Truthy(x: Option<string>) {
    x.Some? && x.value != ""
  }

  /** `data?.[key]`. */
  function Field(data: Option<map<string, string>>, key: string): (r: Option<string>)
    ensures r.Some? <==> data.Some? && key in data.value
    ensures r.Some? ==> r.value == data.value[key]
  {
    if data.Some? && key in data.value then Some(data.value[key]) else None
  }

  /** `a || b || null`: the first truthy string, or null. */
  function FirstTruthy(a: Option<string>, b: Option<string>): (r: Option<string>)
    ensures r.None? <==> !Truthy(a) && !Truthy(b)
    ensures r.Some? ==> r.value != "" && (r == a || r == b)
    ensures Truthy(a) ==> r == a
  {
    if Truthy(a) then a else if Truthy(b) then b else None
  }

  /**
    The record saved for a body. `stringify` stands for `JSON.stringify`
    of the data object, used as the message when `data.message` is falsy.
   */
  function ToRecord(body: Body, stringify: map<string, string> -> string): (r: Record)
    ensures r.formType == ContactType && r.status == UnreadStatus
    ensures r.name != ""
    ensures Truthy(Field(body.data, "name")) ==> r.name == Field(body.data, "name").value
    ensures !Truthy(Field(body.data, "name")) ==> r.name == UnknownName
    ensures r.email == "" <==> !Truthy(body.email) && !Truthy(Field(body.data, "email"))
    ensures Truthy(body.email) ==> r.email == body.email.value
    ensures !Truthy(body.email) && Truthy(Field(body.data, "email")) ==> r.email == Field(body.data, "email").value
    ensures r.phone == FirstTruthy(body.phone, Field(body.data, "phone"))
    ensures r.subject != "" && (Truthy(body.formName) ==> r.subject == body.formName.value)
    ensures !Truthy(body.formName) ==> r.subject == DefaultSubject
    ensures r.message.None? <==> body.data.None?
    ensures Truthy(Field(body.data, "message")) ==> r.message == Field(body.data, "message")
    ensures body.data.Some? && !Truthy(Field(body.data, "message")) ==> r.message == Some(stringify(body.data.value))
    ensures r.metadata.fullData == body.data && r.metadata.formName == body.formName
    ensures r.metadata.source == body.source && r.metadata.tags == body.tags
    ensures r.metadata.organization == Field(body.data, "organization")
    ensures r.metadata.role == Field(body.data, "role")
    ensures r.metadata.program == Field(body.data, "program")
  {
    var message :=
      if Truthy(Field(body.data, "message")) then Field(body.data, "message")
      else if body.data.Some? then Some(stringify(body.data.value))
      else None;
    Record(
      ContactType,
      Or(Field(body.data, "name"), UnknownName),
      Or(body.email, Or(Field(body.data, "email"), "")),
      FirstTruthy(body.phone, Field(body.data, "phone")),
      Or(body.formName, DefaultSubject),
      message,
      Metadata(body.formName, body.source, body.tags, Field(body.data, "organization"),
               Field(body.data, "role"), Field(body.data, "program"), body.data),
      UnreadStatus)
  }

  /** `response.ok`. */
  predicate IsOk(status: int) {
    200 <= status <= 299
  }

  /** The message of a caught throw. */
  function ThrownMessage(t: Thrown): (m: string)
    ensures t.NotAnError? ==> m == UnknownError
    ensures t.ErrorWith? ==> m == t.message
  {
    match t
    case ErrorWith(msg) => msg
    case NotAnError => UnknownError
  }

  /** The error reply for a non-ok external status. */
  function ExternalError(status: int): (e: string)
    ensures |e| > |ExternalErrorPrefix| && e[..|ExternalErrorPrefix|] == ExternalErrorPrefix
    ensures e[|ExternalErrorPrefix|..] == IntToString(status)
  {
    ExternalErrorPrefix + IntToString(status)
  }

  /**
    How the database save ended: the record was written, or the write
    threw, which the inner `catch` logs and absorbs.
   */
  datatype SaveOutcome = Saved | SaveThrew(thrown: Thrown)

  /** What a request leaves behind: the record written, if any, and the reply. */
  datatype Effect<J> = Effect(stored: Option<Record>, reply: Reply<J>)

  /**
    `POST`, for a request body, the database save's outcome and the
    external call's outcome. A body that is not JSON stops before the save
    with 500. Otherwise the record is written unless the save threw, and
    the save's failure goes no further than the inner `catch`: a throwing
    external call or an unreadable ok reply gives 500, a non-ok status is
    relayed with an error naming it, and an ok reply's JSON is relayed
    with status 200.
   */
  function Handle<J>(request: Parsed<Body>, stringify: map<string, string> -> string,
                     save: SaveOutcome, external: External<J>): (r: Effect<J>)
    ensures r.stored.Some? <==> request.Json? && save.Saved?
    ensures r.stored.Some? ==> r.stored.value == ToRecord(request.value, stringify)
    ensures request.NotJson? ==> r.reply == Reply(500, Failed(ThrownMessage(request.thrown)))
    ensures request.Json? && external.FetchThrew? ==> r.reply == Reply(500, Failed(ThrownMessage(external.thrown)))
    ensures request.Json? && external.Answered? && !IsOk(external.status) ==>
              r.reply == Reply(external.status, Failed(ExternalError(external.status)))
    ensures request.Json? && external.Answered? && IsOk(external.status) ==>
              r.reply == (match external.result
                          case Json(v) => Reply(200, Relayed(v))
                          case NotJson(t) => Reply(500, Failed(ThrownMessage(t))))
  {
    if request.NotJson? then Effect(None, Reply(500, Failed(ThrownMessage(request.thrown))))
    else
      var stored := match save
        case Saved => Some(ToRecord(request.value, stringify))
        case SaveThrew(_) => None;
      Effect(stored, Relay(external))
  }

  /** The part of `POST` after the save: the external call and its answer. */
  function Relay<J>(external: External<J>): (r: Reply<J>)
    ensures external.FetchThrew? ==> r.body.Failed? && r.status == 500
    ensures external.Answered? && !IsOk(external.status) ==> r.status == external.status && r.body.Failed?
  {
    match external
    case FetchThrew(t) => Reply(500, Failed(ThrownMessage(t)))
    case Answered(status, result) =>
      if !IsOk(status) then Reply(status, Failed(ExternalError(status)))
      else
        match result
        case Json(v) => Reply(200, Relayed(v))
        case NotJson(t) => Reply(500, Failed(ThrownMessage(t)))
  }

  /**
    A failed save changes what is stored but never the reply: the inner
    `catch` absorbs it.
   */
  lemma SaveFailureDoesNotChangeReply<J>(request: Parsed<Body>, stringify: map<string, string> -> string,
                                         thrown: Thrown, external: External<J>)
    ensures Handle(request, stringify, Saved, external).reply
         == Handle(request, stringify, SaveThrew(thrown), external).reply
    ensures Handle(request, stringify, SaveThrew(thrown), external).stored.None?
  {
  }

  /** A reply fails exactly when its status is not a success status. */
  lemma {:induction false} FailureIffErrorStatus<J>(request: Parsed<Body>, stringify: map<string, string> -> string,
                                                    save: SaveOutcome, external: External<J>)
    ensures var reply := Handle(request, stringify, save, external).reply;
            reply.body.Failed? <==> !IsOk(reply.status)
  {
    if request.Json? && external.Answered? && !IsOk(external.status) {
      assert Handle(request, stringify, save, external).reply.status == external.status;
    }
  }
}
