/** The login form's state and its two event handlers: typing into a field
    and submitting. The network request is abstracted to its outcome, the
    success toast to an entry in a log of notifications, and every request
    the form sends is recorded together with the `loading` and `error`
    values in force when it was sent. */
module LoginForm {
  import opened Validation

  /** The `form` object: both fields always hold a string. */
  datatype Credentials = Credentials(email: string, password: string)

  const EmptyForm := Credentials("", "")

  /** The `name` attribute of the input that changed; the form has two inputs. */
  datatype Field = Email | Password

  function Other(f: Field): Field
  {
    if f == Email then Password else Email
  }

  function Get(form: Credentials, f: Field): string
  {
    match f
    case Email => form.email
    case Password => form.password
  }

  /** `{ ...form, [name]: value }` */
  function Set(form: Credentials, f: Field, value: string): (updated: Credentials)
    ensures Get(updated, f) == value
    ensures Get(updated, Other(f)) == Get(form, Other(f))
  {
    match f
    case Email => form.(email := value)
    case Password => form.(password := value)
  }

  /** What the request came back with: a response carrying an HTTP status,
      or an exception thrown by `fetch` itself (a network failure). */
  datatype Outcome = Responded(status: int) | Threw

  /** `res.ok` of the Fetch Standard: the status lies in 200 to 299. */
  function ResponseOk(o: Outcome): (ok: bool)
    ensures o.Threw? ==> !ok
    ensures o.Responded? ==> (ok <==> 200 <= o.status < 300)
  {
    o.Responded? && 200 <= o.status <= 299
  }

  const FailureMessage := "Login failed. Please try again."

  /** The toast text; the email can be read back from it. */
  function SuccessNotice(email: string): (notice: string)
    ensures |notice| == |"Logged in as: "| + |email|
    ensures notice[..|"Logged in as: "|] == "Logged in as: "
    ensures notice[|"Logged in as: "|..] == email
  {
    "Logged in as: " + email
  }

  /** A request as it left the form: its JSON body is the form, and the
      form's `loading` and `error` at that moment are kept beside it. */
  datatype Request = Request(body: Credentials, loadingWhenSent: bool, errorWhenSent: string)

  /** The component's state, plus the notifications shown and the requests sent. */
  datatype FormState = FormState(
    form: Credentials,
    loading: bool,
    error: string,
    notifications: seq<string>,
    requests: seq<Request>)

  /** The `useState` initial values. */
  function Initial(): (s: FormState)
    ensures s.form == EmptyForm && !s.loading && s.error == NoError
    ensures s.notifications == [] && s.requests == []
  {
    FormState(EmptyForm, false, "", [], [])
  }

  /** `handleChange`: one field takes the typed value; nothing else changes. */
  function Change(s: FormState, f: Field, value: string): (t: FormState)
    ensures Get(t.form, f) == value
    ensures Get(t.form, Other(f)) == Get(s.form, Other(f))
    ensures t.(form := s.form) == s
  {
    s.(form := Set(s.form, f, value))
  }

  /** `setError('')` then `setLoading(true)`. */
  function Begin(s: FormState): (t: FormState)
    ensures t.error == NoError && t.loading
    ensures t.(error := s.error, loading := s.loading) == s
  {
    s.(error := NoError, loading := true)
  }

  /** The `fetch` call: one request whose body is the current form. */
  function Send(s: FormState): (t: FormState)
    ensures |t.requests| == |s.requests| + 1 && t.requests[..|s.requests|] == s.requests
    ensures t.requests[|s.requests|] == Request(s.form, s.loading, s.error)
    ensures t.(requests := s.requests) == s
  {
    s.(requests := s.requests + [Request(s.form, s.loading, s.error)])
  }

  /** The `try` block after `fetch` and its `catch`: on an ok response, the
      toast and the form reset; otherwise (a non-ok status is thrown as an
      error) the failure message. */
  function Resolve(s: FormState, o: Outcome): (t: FormState)
    ensures ResponseOk(o) ==>
      t.form == EmptyForm && t.notifications == s.notifications + [SuccessNotice(s.form.email)] &&
      t.error == s.error
    ensures !ResponseOk(o) ==>
      t.error == FailureMessage && t.form == s.form && t.notifications == s.notifications
    ensures t.loading == s.loading && t.requests == s.requests
  {
    if ResponseOk(o) then
      s.(notifications := s.notifications + [SuccessNotice(s.form.email)], form := EmptyForm)
    else
      s.(error := FailureMessage)
  }

  /** The `finally` block: `setLoading(false)`. */
  function Finish(s: FormState): (t: FormState)
    ensures !t.loading
    ensures t.(loading := s.loading) == s
  {
    s.(loading := false)
  }

  /** `handleSubmit`, from the state in which the submit event arrives to the
      state once the request has settled. */
  function Submit(s: FormState, o: Outcome): (t: FormState)
    // A rejected password: its message becomes the error, no request is sent,
    // and the form and `loading` are left as they were.
    ensures Validate(s.form.password) != NoError ==>
      t == s.(error := Validate(s.form.password))
    // An accepted password: exactly one request, carrying the form, sent
    // after the error was cleared and `loading` set; `loading` ends false.
    ensures Validate(s.form.password) == NoError ==>
      t.requests == s.requests + [Request(s.form, true, NoError)] && !t.loading
    // Success: one notification naming the submitted email, the form reset,
    // no error.
    ensures Validate(s.form.password) == NoError && ResponseOk(o) ==>
      t.notifications == s.notifications + [SuccessNotice(s.form.email)] &&
      t.form == EmptyForm && t.error == NoError
    // Failure, by status or by exception: the one failure message, the form
    // kept, no notification.
    ensures Validate(s.form.password) == NoError && !ResponseOk(o) ==>
      t.notifications == s.notifications && t.form == s.form && t.error == FailureMessage
  {
    var validationError := Validate(s.form.password);
    if validationError != NoError then s.(error := validationError)
    else Finish(Resolve(Send(Begin(s)), o))
  }

  /** A non-ok status and a thrown exception end the same way. */
  lemma FailuresCollapse(s: FormState, status: int)
    requires !(200 <= status <= 299)
    ensures Submit(s, Responded(status)) == Submit(s, Threw)
  {
  }

  /** Typing the same value into the same field twice is typing it once. */
  lemma ChangeIdempotent(s: FormState, f: Field, value: string)
    ensures Change(Change(s, f, value), f, value) == Change(s, f, value)
  {
  }

  /** A rejected submission changes nothing that a repeated one would undo:
      submitting again, whatever the network would have said, gives the same
      state. */
  lemma RejectedSubmitIsStable(s: FormState, o: Outcome, o': Outcome)
    requires Validate(s.form.password) != NoError
    ensures Submit(Submit(s, o), o') == Submit(s, o)
  {
  }

  /** The events the form reacts to, in the order the browser delivers them. */
  datatype Event = Typed(field: Field, value: string) | Submitted(outcome: Outcome)

  function Step(s: FormState, e: Event): FormState
  {
    match e
    case Typed(f, v) => Change(s, f, v)
    case Submitted(o) => Submit(s, o)
  }

  function Run(s: FormState, events: seq<Event>): FormState
    decreases |events|
  {
    if events == [] then s else Run(Step(s, events[0]), events[1..])
  }

  /** Every request carried a password the validator accepted and was sent
      while loading, with the error cleared. */
  ghost predicate RequestsSound(requests: seq<Request>)
  {
    forall i :: 0 <= i < |requests| ==>
      Validate(requests[i].body.password) == NoError &&
      requests[i].loadingWhenSent && requests[i].errorWhenSent == NoError
  }

  /** The notice names the email of one of the requests. */
  ghost predicate Backed(notice: string, requests: seq<Request>)
  {
    exists r :: r in requests && notice == SuccessNotice(r.body.email)
  }

  /** Every notification names the email of a request that was sent. */
  ghost predicate NoticesBacked(notifications: seq<string>, requests: seq<Request>)
  {
    forall i :: 0 <= i < |notifications| ==> Backed(notifications[i], requests)
  }

  /** What holds between events: no request is in flight, the error is one of
      the messages the form can show, the requests are sound and the
      notifications are backed by requests. */
  ghost predicate Settled(s: FormState)
  {
    && !s.loading
    && (s.error in Messages || s.error == FailureMessage)
    && RequestsSound(s.requests)
    && NoticesBacked(s.notifications, s.requests)
  }

  lemma InitialSettled()
    ensures Settled(Initial())
  {
  }

  lemma ChangeKeepsSettled(s: FormState, f: Field, value: string)
    requires Settled(s)
    ensures Settled(Change(s, f, value))
  {
    var t := Change(s, f, value);
    assert t.requests == s.requests && t.notifications == s.notifications;
    assert t.loading == s.loading && t.error == s.error;
  }

  /** Appending a request keeps every existing notification backed. */
  lemma {:induction false} NoticesBackedExtend(ns: seq<string>, rs: seq<Request>, r: Request)
    requires NoticesBacked(ns, rs)
    ensures NoticesBacked(ns, rs + [r])
  {
    forall i | 0 <= i < |ns| ensures Backed(ns[i], rs + [r]) {
      assert Backed(ns[i], rs);
      var q :| q in rs && ns[i] == SuccessNotice(q.body.email);
      assert q in rs + [r];
    }
  }

  /** Adding the notice for the email of the last request keeps the log backed. */
  lemma {:induction false} NoticesBackedNotice(ns: seq<string>, rs: seq<Request>)
    requires NoticesBacked(ns, rs) && rs != []
    ensures NoticesBacked(ns + [SuccessNotice(rs[|rs| - 1].body.email)], rs)
  {
    var last := rs[|rs| - 1];
    var ns' := ns + [SuccessNotice(last.body.email)];
    forall i | 0 <= i < |ns'| ensures Backed(ns'[i], rs) {
      if i < |ns| {
        assert ns'[i] == ns[i];
      } else {
        assert last in rs && ns'[i] == SuccessNotice(last.body.email);
      }
    }
  }

  lemma {:induction false} SubmitKeepsSettled(s: FormState, o: Outcome)
    requires Settled(s)
    ensures Settled(Submit(s, o))
  {
    var t := Submit(s, o);
    if Validate(s.form.password) == NoError {
      var r := Request(s.form, true, NoError);
      assert t.requests == s.requests + [r];
      NoticesBackedExtend(s.notifications, s.requests, r);
      if ResponseOk(o) {
        NoticesBackedNotice(s.notifications, t.requests);
        assert t.notifications == s.notifications + [SuccessNotice(t.requests[|t.requests| - 1].body.email)];
      }
      assert RequestsSound(t.requests) by {
        forall i | 0 <= i < |t.requests|
          ensures Validate(t.requests[i].body.password) == NoError &&
                  t.requests[i].loadingWhenSent && t.requests[i].errorWhenSent == NoError
        {
          if i < |s.requests| { assert t.requests[i] == s.requests[i]; }
        }
      }
    } else {
      assert t == s.(error := Validate(s.form.password));
    }
  }

  lemma StepKeepsSettled(s: FormState, e: Event)
    requires Settled(s)
    ensures Settled(Step(s, e))
  {
    match e
    case Typed(f, v) => ChangeKeepsSettled(s, f, v);
    case Submitted(o) => SubmitKeepsSettled(s, o);
  }

  /** From a settled state, any sequence of events leaves the form settled. */
  lemma {:induction false} RunKeepsSettled(s: FormState, events: seq<Event>)
    requires Settled(s)
    ensures Settled(Run(s, events))
    decreases |events|
  {
    if events != [] {
      StepKeepsSettled(s, events[0]);
      RunKeepsSettled(Step(s, events[0]), events[1..]);
    }
  }

  /** Requests and notifications are only ever appended: nothing shown or
      sent is taken back by later events. */
  lemma {:induction false} RunOnlyAppends(s: FormState, events: seq<Event>)
    ensures s.requests <= Run(s, events).requests
    ensures s.notifications <= Run(s, events).notifications
    decreases |events|
  {
    if events != [] {
      RunOnlyAppends(Step(s, events[0]), events[1..]);
    }
  }

  /** The component. Its fields are the state the handlers update. */
  class App {
    var email: string
    var password: string
    var loading: bool
    var error: string
    var notifications: seq<string>
    var requests: seq<Request>

    function Current(): FormState
      reads this
    {
      FormState(Credentials(email, password), loading, error, notifications, requests)
    }

    constructor ()
      ensures Current() == Initial()
    {
      email, password := "", "";
      loading := false;
      error := "";
      notifications, requests := [], [];
    }

    method HandleChange(f: Field, value: string)
      modifies this
      ensures Current() == Change(old(Current()), f, value)
    {
      match f
      case Email => email := value;
      case Password => password := value;
    }

    method HandleSubmit(o: Outcome)
      modifies this
      ensures Current() == Submit(old(Current()), o)
      ensures !old(loading) ==> !loading
    {
      var validationError := Validate(password);
      if validationError != NoError {
        error := validationError;
        return;
      }
      error := NoError;
      loading := true;
      requests := requests + [Request(Credentials(email, password), loading, error)];
      if ResponseOk(o) {
        notifications := notifications + [SuccessNotice(email)];
        email, password := "", "";
      } else {
        error := FailureMessage;
      }
      loading := false;
    }
  }
}
