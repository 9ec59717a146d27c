/** The lead-capture form in the site footer: an email field and a submit
    button governed by a three-state status (idle, submitting, success).
    Submitting posts the email to an external collection endpoint; the
    request's outcome moves the form to success (and clears the field) or
    back to idle (with an alert); a timer scheduled on success puts the form
    back to idle.

    The request, the alert dialog and the timer are outside the component.
    They are recorded here as observable effects: `sent` lists the email of
    every request issued, `inFlight` says a request awaits its outcome,
    `alerts` lists the notifications shown and `timerPending` says the reset
    timer is scheduled and has not fired. */
module Submission {

  /** The form's status. */
  datatype Status = Idle | Submitting | Success

  /** How the outbound request ended: an "ok" response, any other response,
      or a thrown network error. */
  datatype Outcome = Ok | NotOk | NetworkError

  /** The two alert messages the form can show. */
  datatype Alert = SubmissionProblem | ConnectionProblem

  datatype Option<T> = None | Some(value: T)

  /** The component state together with the effects it has caused. */
  datatype FormState = FormState(
    email: string,
    status: Status,
    inFlight: bool,
    timerPending: bool,
    sent: seq<string>,
    alerts: seq<Alert>)

  /** The state at mount: empty field, idle, no request issued, no alert
      shown, no reset scheduled; it satisfies the invariant. */
  function Initial(): (st: FormState)
    ensures st.email == "" && st.status == Idle
    ensures !st.inFlight && !st.timerPending && st.sent == [] && st.alerts == []
    ensures Valid(st)
  {
    FormState("", Idle, false, false, [], [])
  }

  /** The submit button is enabled only while idle; whenever it is
      enabled, the field is too. */
  predicate SubmitEnabled(status: Status)
    ensures SubmitEnabled(status) ==> InputEnabled(status)
  {
    status == Idle
  }

  /** The email field is disabled only after a success; in particular it
      stays editable while a request is in flight. */
  predicate InputEnabled(status: Status)
    ensures status == Submitting ==> InputEnabled(status)
    ensures status == Success ==> !InputEnabled(status)
  {
    status != Success
  }

  /** What holds of every state the form can reach: a request is in flight
      exactly while submitting, the reset timer is pending exactly while in
      success, the field is empty in success, and no request was ever issued
      with an empty email. */
  predicate Valid(st: FormState)
  {
    && (st.inFlight <==> st.status == Submitting)
    && (st.timerPending <==> st.status == Success)
    && (st.status == Success ==> st.email == "")
    && (forall k :: 0 <= k < |st.sent| ==> st.sent[k] != "")
  }

  // ---------------------------------------------------------------------
  // Transitions
  // ---------------------------------------------------------------------

  /** Typing into the field replaces its contents. */
  function Edited(st: FormState, text: string): (r: FormState)
    ensures r.email == text
    ensures r.status == st.status && r.inFlight == st.inFlight && r.timerPending == st.timerPending
    ensures r.sent == st.sent && r.alerts == st.alerts
  {
    st.(email := text)
  }

  /** The submit handler. It ignores the status (the disabled button keeps
      it from running outside idle); with an empty field it does nothing,
      otherwise it moves to submitting and issues one request carrying the
      current email, leaving the field as it is. */
  function Submitted(st: FormState): (r: FormState)
    ensures st.email == "" ==> r == st
    ensures st.email != "" ==> r.status == Submitting && r.inFlight
    ensures st.email != "" ==> r.sent == st.sent + [st.email]
    ensures r.email == st.email && r.alerts == st.alerts && r.timerPending == st.timerPending
  {
    if st.email == "" then st
    else st.(status := Submitting, inFlight := true, sent := st.sent + [st.email])
  }

  /** The continuation of the awaited request. An ok response moves to
      success, clears the field and schedules the reset timer; any other
      response or a network error shows an alert and moves to idle, leaving
      the field as it is. */
  function Resolved(st: FormState, outcome: Outcome): (r: FormState)
    ensures !r.inFlight && r.sent == st.sent
    ensures outcome == Ok ==> r.status == Success && r.email == "" && r.timerPending && r.alerts == st.alerts
    ensures outcome == NotOk ==> r.status == Idle && r.email == st.email && r.timerPending == st.timerPending
    ensures outcome == NotOk ==> r.alerts == st.alerts + [SubmissionProblem]
    ensures outcome == NetworkError ==> r.status == Idle && r.email == st.email && r.timerPending == st.timerPending
    ensures outcome == NetworkError ==> r.alerts == st.alerts + [ConnectionProblem]
  {
    match outcome
    case Ok => st.(inFlight := false, status := Success, email := "", timerPending := true)
    case NotOk => st.(inFlight := false, alerts := st.alerts + [SubmissionProblem], status := Idle)
    case NetworkError => st.(inFlight := false, alerts := st.alerts + [ConnectionProblem], status := Idle)
  }

  /** The reset timer fires: the status becomes idle, whatever it was. */
  function TimerFired(st: FormState): (r: FormState)
    ensures r.status == Idle && !r.timerPending
    ensures r.email == st.email && r.inFlight == st.inFlight && r.sent == st.sent && r.alerts == st.alerts
  {
    st.(timerPending := false, status := Idle)
  }

  // ---------------------------------------------------------------------
  // Events and runs
  // ---------------------------------------------------------------------

  /** What can happen to the form: the user types, the user submits, the
      request ends, the reset timer fires. */
  datatype Event = Edit(text: string) | Submit | Resolve(outcome: Outcome) | TimerFire

  /** Whether the event can occur: typing needs an enabled field,
      submitting an enabled button, an outcome a request in flight and a
      timer event a pending timer. */
  predicate Enabled(st: FormState, ev: Event)
  {
    match ev
    case Edit(_) => InputEnabled(st.status)
    case Submit => SubmitEnabled(st.status)
    case Resolve(_) => st.inFlight
    case TimerFire => st.timerPending
  }

  /** The state after one event. */
  function Step(st: FormState, ev: Event): FormState
  {
    match ev
    case Edit(text) => Edited(st, text)
    case Submit => Submitted(st)
    case Resolve(outcome) => Resolved(st, outcome)
    case TimerFire => TimerFired(st)
  }

  /** The state after a sequence of events, or None when some event in it
      cannot occur at that point. */
  function Run(st: FormState, events: seq<Event>): Option<FormState>
    decreases |events|
  {
    if events == [] then Some(st)
    else if Enabled(st, events[0]) then Run(Step(st, events[0]), events[1..])
    else None
  }

  // ---------------------------------------------------------------------
  // Properties
  // ---------------------------------------------------------------------

  /** Every event that can occur keeps the invariant. */
  lemma StepKeepsValid(st: FormState, ev: Event)
    requires Valid(st) && Enabled(st, ev)
    ensures Valid(Step(st, ev))
  {
  }

  /** Every run from a valid state ends in a valid state. */
  lemma {:induction false} RunKeepsValid(st: FormState, events: seq<Event>)
    requires Valid(st)
    ensures Run(st, events).Some? ==> Valid(Run(st, events).value)
    decreases |events|
  {
    if events != [] && Enabled(st, events[0]) {
      StepKeepsValid(st, events[0]);
      RunKeepsValid(Step(st, events[0]), events[1..]);
    }
  }

  /** Every state reachable from mount is valid. */
  lemma ReachableValid(events: seq<Event>)
    ensures Run(Initial(), events).Some? ==> Valid(Run(Initial(), events).value)
  {
    RunKeepsValid(Initial(), events);
  }

  /** No duplicate submission: in a valid state with a request in flight or
      a reset pending, the submit button is disabled, so the handler cannot
      run and no second request is issued. */
  lemma NoSubmitWhileBusy(st: FormState)
    requires Valid(st)
    requires st.inFlight || st.timerPending
    ensures !Enabled(st, Submit)
  {
  }

  /** The timer's unconditional reset only ever fires from success; an
      outcome only ever arrives while submitting. */
  lemma ResetsComeFromTheRightStatus(st: FormState)
    requires Valid(st)
    ensures Enabled(st, TimerFire) ==> st.status == Success
    ensures forall o :: Enabled(st, Resolve(o)) ==> st.status == Submitting
  {
  }

  /** Submitting with an empty field is a no-op on every reachable state:
      status, field and effects stay as they were and no request is issued. */
  lemma EmptySubmitIsNoop(st: FormState)
    requires st.email == "" && Enabled(st, Submit)
    ensures Run(st, [Submit]) == Some(st)
  {
  }

  /** Running an event that can occur, then the rest. */
  lemma RunCons(st: FormState, ev: Event, rest: seq<Event>)
    requires Enabled(st, ev)
    ensures Run(st, [ev] + rest) == Run(Step(st, ev), rest)
  {
  }

  /** The happy path from mount: after typing a non-empty email and
      submitting, the form is submitting with the field kept and one request
      issued; after an ok response it is in success with the field empty;
      after the timer it is idle again. No alert is shown. */
  lemma HappyPath(email: string)
    requires email != ""
    ensures Run(Initial(), [Edit(email), Submit])
         == Some(FormState(email, Submitting, true, false, [email], []))
    ensures Run(Initial(), [Edit(email), Submit, Resolve(Ok)])
         == Some(FormState("", Success, false, true, [email], []))
    ensures Run(Initial(), [Edit(email), Submit, Resolve(Ok), TimerFire])
         == Some(FormState("", Idle, false, false, [email], []))
  {
    var s1 := Step(Initial(), Edit(email));
    var s2 := Step(s1, Submit);
    var s3 := Step(s2, Resolve(Ok));
    var s4 := Step(s3, TimerFire);
    assert s2 == FormState(email, Submitting, true, false, [email], []);
    RunCons(s3, TimerFire, []);
    RunCons(s2, Resolve(Ok), []);
    RunCons(s2, Resolve(Ok), [TimerFire]);
    RunCons(s1, Submit, []);
    RunCons(s1, Submit, [Resolve(Ok)]);
    RunCons(s1, Submit, [Resolve(Ok), TimerFire]);
    RunCons(Initial(), Edit(email), [Submit]);
    RunCons(Initial(), Edit(email), [Submit, Resolve(Ok)]);
    RunCons(Initial(), Edit(email), [Submit, Resolve(Ok), TimerFire]);
  }

  /** The failure path: from a valid idle state with a non-empty field, a
      submission answered by a non-ok response or a network error brings the
      form back to idle with one alert shown and the field as it was, and
      the submit button is enabled again for a manual retry. */
  lemma FailurePath(st: FormState, outcome: Outcome)
    requires Valid(st) && st.status == Idle && st.email != ""
    requires outcome != Ok
    ensures Run(st, [Submit, Resolve(outcome)]).Some?
    ensures var r := Run(st, [Submit, Resolve(outcome)]).value;
      && r.status == Idle && r.email == st.email
      && r.sent == st.sent + [st.email]
      && |r.alerts| == |st.alerts| + 1
      && Enabled(r, Submit)
  {
    var s2 := Step(st, Submit);
    RunCons(s2, Resolve(outcome), []);
    RunCons(st, Submit, [Resolve(outcome)]);
  }

  // ---------------------------------------------------------------------
  // The footer form as the layout holds it
  // ---------------------------------------------------------------------

  /** The form's state as mutable fields, with the effects it has caused. */
  class LeadForm {
    var email: string
    var status: Status
    var inFlight: bool
    var timerPending: bool
    var sent: seq<string>
    var alerts: seq<Alert>

    /** The fields as one value. */
    function State(): FormState
      reads this
    {
      FormState(email, status, inFlight, timerPending, sent, alerts)
    }

    /** Mounting the layout: empty field, idle. */
    constructor ()
      ensures State() == Initial() && Valid(State())
    {
      email, status := "", Idle;
      inFlight, timerPending := false, false;
      sent, alerts := [], [];
    }

    /** The field's change handler, which the form accepts only while the
        field is enabled. */
    method EditEmail(text: string)
      requires InputEnabled(status)
      modifies this
      ensures State() == Edited(old(State()), text)
      ensures Valid(old(State())) ==> Valid(State())
    {
      email := text;
    }

    /** The submit handler, reachable only through the enabled button. */
    method Submit()
      requires SubmitEnabled(status)
      modifies this
      ensures State() == Submitted(old(State()))
      ensures Valid(old(State())) ==> Valid(State())
    {
      if email == "" {
        return;
      }
      status := Submitting;
      sent := sent + [email];
      inFlight := true;
    }

    /** The awaited request ends with the given outcome. */
    method Resolve(outcome: Outcome)
      requires inFlight
      modifies this
      ensures State() == Resolved(old(State()), outcome)
      ensures Valid(old(State())) ==> Valid(State())
    {
      inFlight := false;
      match outcome {
        case Ok =>
          status := Success;
          email := "";
          timerPending := true;
        case NotOk =>
          alerts := alerts + [SubmissionProblem];
          status := Idle;
        case NetworkError =>
          alerts := alerts + [ConnectionProblem];
          status := Idle;
      }
    }

    /** The scheduled reset fires. */
    method TimerFire()
      requires timerPending
      modifies this
      ensures State() == TimerFired(old(State()))
      ensures Valid(old(State())) ==> Valid(State())
    {
      timerPending := false;
      status := Idle;
    }
  }
}
