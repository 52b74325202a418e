/**
  The demo-booking dialog: seven form fields, the payload posted to the
  form relay, the submitting and submitted flags, the error shown after a
  failed submission, and the delayed reset after a successful one. The
  request's outcome and the reset timer are events.
 */
module DemoBooking {
  import opened Wrappers
  import opened Text
  import opened Numbers
  import FormsRelay

  datatype DemoForm = DemoForm(
    name: string,
    email: string,
    phone: string,
    organization: string,
    role: string,
    program: string,
    message: string)

  datatype DemoField = Name | Email | Phone | Organization | Role | Program | Message

  /** The JSON posted to the relay. */
  datatype Payload = Payload(
    formName: string,
    data: DemoForm,
    email: string,
    phone: string,
    status: string,
    source: string,
    tags: string)

  /** What the `catch` receives: a TypeError, another Error, or something else. */
  datatype Failure = TypeErrorWith(message: string) | ErrorWith(message: string) | NonError

  /** How the request ended. */
  datatype SubmitOutcome =
    | Answered(success: bool, error: Option<string>)   // ok response; its JSON's `success` and `error`
    | ServerError(status: int, text: string)            // non-ok response and its text
    | Threw(failure: Failure)                           // fetch or JSON parsing threw

  const EmptyForm: DemoForm := DemoForm("", "", "", "", "", "", "")
  const DemoFormName: string := "Demo Booking"
  const NewStatus: string := "new"
  const Source: string := "TheoLingua Website"
  const Tags: string := "demo-request"
  const FetchFailed: string := "Failed to fetch"
  const NetworkMessage: string := "Network error: Unable to connect to the server. This might be due to CORS restrictions or network connectivity issues."
  const DefaultMessage: string := "Failed to submit demo request. Please try again."
  const UnsuccessfulMessage: string := "Failed to submit form"

  /** A character allowed before the '@' of a valid e-mail address in HTML. */
  predicate LocalChar(c: char) {
    || 'a' <= c <= 'z' || 'A' <= c <= 'Z' || '0' <= c <= '9'
    || c in ".!#$%&'*+/=?^_`{|}~-"
  }

  /** A character allowed in a domain label. */
  predicate LabelChar(c: char) {
    'a' <= c <= 'z' || 'A' <= c <= 'Z' || '0' <= c <= '9' || c == '-'
  }

  /** A domain label: 1 to 63 letters, digits and hyphens, not starting or ending with a hyphen. */
  predicate ValidLabel(l: string) {
    && 1 <= |l| <= 63
    && (forall i :: 0 <= i < |l| ==> LabelChar(l[i]))
    && l[0] != '-' && l[|l| - 1] != '-'
  }

  /** The position of the first dot, or the length when there is none. */
  function FirstDot(d: string): (j: nat)
    ensures j <= |d| && (j < |d| ==> d[j] == '.')
    ensures forall i :: 0 <= i < j ==> d[i] != '.'
  {
    if d == [] || d[0] == '.' then 0 else 1 + FirstDot(d[1..])
  }

  /** One or more labels separated by single dots. */
  predicate ValidDomain(d: string)
    decreases |d|
  {
    var j := FirstDot(d);
    ValidLabel(d[..j]) && (j == |d| || ValidDomain(d[j + 1..]))
  }

  /**
    What an `type="email"` input accepts as a valid e-mail address (the
    browser strips surrounding white space before the value reaches the
    state): local characters, one '@', then a domain.
   */
  predicate ValidEmail(s: string)
    ensures ValidEmail(s) ==> |s| >= 3 && '@' in s
  {
    exists i :: && 0 < i < |s| && s[i] == '@'
                && (forall k :: 0 <= k < i ==> LocalChar(s[k]))
                && ValidDomain(s[i + 1..])
  }

  /** The first dot of `a.b`, for a dot-free `a`, is the one after `a`. */
  lemma {:induction false} FirstDotAfter(a: string, b: string)
    requires '.' !in a
    ensures FirstDot(a + "." + b) == |a|
    ensures (a + "." + b)[..|a|] == a && (a + "." + b)[|a| + 1..] == b
    decreases |a|
  {
    if a != [] {
      assert (a + "." + b)[1..] == a[1..] + "." + b;
      assert a[0] in a;
      FirstDotAfter(a[1..], b);
    }
  }

  /** The address shown as the placeholder is a valid e-mail address. */
  lemma PlaceholderEmailIsValid()
    ensures ValidEmail("your@email.com")
  {
    var good := "your@email.com";
    FirstDotAfter("email", "com");
    assert "email" + "." + "com" == good[5..];
    assert FirstDot("com") == 3;
    assert ValidLabel("com") && ValidLabel("email");
    assert ValidDomain("com");
    assert ValidDomain(good[5..]);
    assert good[4] == '@';
  }

  /** An address without '@' is refused. */
  lemma AddressWithoutAtIsInvalid(s: string)
    requires '@' !in s
    ensures !ValidEmail(s)
  {
  }

  /** A domain whose first label starts with a hyphen is refused. */
  lemma LeadingHyphenLabelIsInvalid(local: string, rest: string)
    requires '@' !in local
    ensures !ValidEmail(local + "@-" + rest)
  {
    var s := local + "@-" + rest;
    forall i | 0 < i < |s| && s[i] == '@' && (forall k :: 0 <= k < i ==> LocalChar(s[k]))
      ensures !ValidDomain(s[i + 1..])
    {
      assert s[|local|] == '@' && !LocalChar('@');
      assert i == |local|;
      var d := s[i + 1..];
      assert d[0] == '-';
      assert d[..FirstDot(d)] == [] || d[..FirstDot(d)][0] == '-';
    }
  }

  /**
    The browser's check before the submit event: the name, e-mail and
    organisation inputs are `required`, and the e-mail must be valid.
   */
  predicate FormAccepted(f: DemoForm)
    ensures FormAccepted(f) ==> f.name != "" && f.organization != "" && '@' in f.email
  {
    f.name != "" && f.email != "" && ValidEmail(f.email) && f.organization != ""
  }

  function Get(f: DemoForm, field: DemoField): string {
    match field
    case Name => f.name
    case Email => f.email
    case Phone => f.phone
    case Organization => f.organization
    case Role => f.role
    case Program => f.program
    case Message => f.message
  }

  /** `handleInputChange` and `handleSelectChange`: only the named field changes. */
  function WithField(f: DemoForm, field: DemoField, value: string): (r: DemoForm)
    ensures Get(r, field) == value
    ensures forall g :: g != field ==> Get(r, g) == Get(f, g)
  {
    match field
    case Name => f.(name := value)
    case Email => f.(email := value)
    case Phone => f.(phone := value)
    case Organization => f.(organization := value)
    case Role => f.(role := value)
    case Program => f.(program := value)
    case Message => f.(message := value)
  }

  /** The request body: the whole form as `data`, its email and phone copied out, fixed labels. */
  function MakePayload(f: DemoForm): (p: Payload)
    ensures p.data == f && p.email == f.email && p.phone == f.phone
    ensures p.formName == DemoFormName && p.status == NewStatus && p.source == Source && p.tags == Tags
  {
    Payload(DemoFormName, f, f.email, f.phone, NewStatus, Source, Tags)
  }

  /** The message shown for what reached the `catch`. */
  function ErrorMessage(failure: Failure): (m: string)
    ensures failure == TypeErrorWith(FetchFailed) ==> m == NetworkMessage
    ensures failure.TypeErrorWith? && failure.message != FetchFailed ==> m == failure.message
    ensures failure.ErrorWith? ==> m == failure.message
    ensures failure.NonError? ==> m == DefaultMessage
  {
    match failure
    case TypeErrorWith(msg) => if msg == FetchFailed then NetworkMessage else msg
    case ErrorWith(msg) => msg
    case NonError => DefaultMessage
  }

  /**
    What the `try` block throws for an outcome: nothing for a successful
    answer; an Error naming the status and text for a non-ok response; the
    answer's `error`, or a fixed message, for an unsuccessful one.
   */
  function Raised(outcome: SubmitOutcome): (r: Option<Failure>)
    ensures r.None? <==> outcome.Answered? && outcome.success
    ensures outcome.ServerError? ==>
              r == Some(ErrorWith("Server error: " + IntToString(outcome.status) + " - " + outcome.text))
    ensures outcome.Answered? && !outcome.success ==> r == Some(ErrorWith(Or(outcome.error, UnsuccessfulMessage)))
    ensures outcome.Threw? ==> r == Some(outcome.failure)
  {
    match outcome
    case Answered(success, error) =>
      if success then None else Some(ErrorWith(Or(error, UnsuccessfulMessage)))
    case ServerError(status, text) =>
      Some(ErrorWith("Server error: " + IntToString(status) + " - " + text))
    case Threw(f) => Some(f)
  }

  /** An unsuccessful answer never shows an empty error. */
  lemma {:induction false} UnsuccessfulAnswerHasMessage(error: Option<string>)
    ensures ErrorMessage(Raised(Answered(false, error)).value) != ""
  {
    assert Raised(Answered(false, error)).value == ErrorWith(Or(error, UnsuccessfulMessage));
  }

  /** The payload as the relay reads it (it does not look at `status`). */
  function AsRelayBody(p: Payload): (b: FormsRelay.Body)
    ensures b.formName == Some(p.formName) && b.email == Some(p.email) && b.phone == Some(p.phone)
    ensures b.source == Some(p.source) && b.tags == Some(p.tags)
    ensures b.data.Some? && forall field :: FormsRelay.Field(b.data, Key(field)) == Some(Get(p.data, field))
  {
    var d := p.data;
    var m := map["name" := d.name, "email" := d.email, "phone" := d.phone,
                 "organization" := d.organization, "role" := d.role,
                 "program" := d.program, "message" := d.message];
    FormsRelay.Body(Some(p.formName), Some(m), Some(p.email), Some(p.phone), Some(p.source), Some(p.tags))
  }

  /** The JSON key of each field. */
  function Key(field: DemoField): string {
    match field
    case Name => "name"
    case Email => "email"
    case Phone => "phone"
    case Organization => "organization"
    case Role => "role"
    case Program => "program"
    case Message => "message"
  }

  /**
    What the relay stores for a demo booking: the booker's name (or
    "Unknown"), their email as typed, their phone or null when it was left
    empty, the subject "Demo Booking", and the organisation in the metadata.
   */
  lemma DemoBookingStoredAs(f: DemoForm, stringify: map<string, string> -> string)
    ensures var r := FormsRelay.ToRecord(AsRelayBody(MakePayload(f)), stringify);
            && r.name == (if f.name == "" then FormsRelay.UnknownName else f.name)
            && r.email == f.email
            && r.phone == (if f.phone == "" then None else Some(f.phone))
            && r.subject == DemoFormName
            && r.metadata.organization == Some(f.organization)
            && r.formType == FormsRelay.ContactType
  {
    var b := AsRelayBody(MakePayload(f));
    assert FormsRelay.Field(b.data, Key(Name)) == Some(f.name);
    assert FormsRelay.Field(b.data, Key(Email)) == Some(f.email);
    assert FormsRelay.Field(b.data, Key(Phone)) == Some(f.phone);
    assert FormsRelay.Field(b.data, Key(Organization)) == Some(f.organization);
  }

  class DemoDialog {
    var open: bool
    var form: DemoForm
    var isSubmitted: bool
    var isSubmitting: bool
    var error: Option<string>
    /** Reset timers scheduled and not yet fired. */
    var pendingResets: nat

    constructor ()
      ensures !open && form == EmptyForm && !isSubmitted && !isSubmitting && error.None? && pendingResets == 0
    {
      open, form := false, EmptyForm;
      isSubmitted, isSubmitting := false, false;
      error := None;
      pendingResets := 0;
    }

    /** The trigger, the dialog's own close control and the Cancel button. */
    method SetOpen(value: bool)
      modifies this`open
      ensures open == value
    {
      open := value;
    }

    method Change(field: DemoField, value: string)
      modifies this`form
      ensures form == WithField(old(form), field, value)
    {
      form := WithField(form, field, value);
    }

    /** `handleSubmit` up to the request: the flag is set, the old error cleared, the payload built. */
    method BeginSubmit() returns (payload: Payload)
      modifies this`isSubmitting, this`error
      ensures isSubmitting && error.None? && payload == MakePayload(form)
    {
      isSubmitting := true;
      error := None;
      payload := MakePayload(form);
    }

    /**
      A click on the submit button, which exists only in the open dialog
      before a success and is disabled while submitting. The browser sends
      the submit event only for a form it accepts.
     */
    method ClickSubmit() returns (payload: Option<Payload>)
      requires open && !isSubmitted
      modifies this`isSubmitting, this`error
      ensures payload.Some? <==> !old(isSubmitting) && FormAccepted(form)
      ensures payload.Some? ==> payload.value == MakePayload(form) && isSubmitting && error.None?
      ensures payload.Some? ==> ValidEmail(payload.value.email) && payload.value.data.name != ""
      ensures payload.None? ==> isSubmitting == old(isSubmitting) && error == old(error)
    {
      if isSubmitting || !FormAccepted(form) {
        return None;
      }
      var p := BeginSubmit();
      payload := Some(p);
    }

    /**
      `handleSubmit` after the request: success marks the booking submitted
      and schedules the reset; anything else sets the error message. The
      submitting flag ends false in every case.
     */
    method SettleSubmit(outcome: SubmitOutcome)
      modifies this`isSubmitted, this`isSubmitting, this`error, this`pendingResets
      ensures !isSubmitting
      ensures Raised(outcome).None? ==>
                isSubmitted && pendingResets == old(pendingResets) + 1 && error == old(error)
      ensures Raised(outcome).Some? ==>
                && error == Some(ErrorMessage(Raised(outcome).value))
                && isSubmitted == old(isSubmitted) && pendingResets == old(pendingResets)
    {
      var raised := Raised(outcome);
      if raised.None? {
        isSubmitted := true;
        pendingResets := pendingResets + 1;
      } else {
        error := Some(ErrorMessage(raised.value));
      }
      isSubmitting := false;
    }

    /** The reset three seconds after a success: the dialog closes and every field is emptied. */
    method ResetTimerFired()
      requires pendingResets > 0
      modifies this`isSubmitted, this`open, this`form, this`pendingResets
      ensures !isSubmitted && !open && form == EmptyForm
      ensures pendingResets == old(pendingResets) - 1
    {
      isSubmitted, open, form := false, false, EmptyForm;
      pendingResets := pendingResets - 1;
    }
  }
}
