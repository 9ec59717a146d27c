# Carousel and lead-form state machines of the BusinessLogics site

The site is a React single-page application. Almost all of it is presentation.
This project models its two pieces of behaviour:

- **The Work page carousel** (`carousel.dfy`, module `Carousel`). It holds one
  index into a fixed, non-empty list of screenshots (two on the page). The
  "next" button wraps from the last image to the first. The "previous" button
  wraps from the first image to the last. A row of dots highlights the dot at
  the current index. The index arithmetic is written as pure functions
  (`Next`, `Prev`). The page's state is the class `WorkCarousel`, whose methods
  update `currentSlide` in place.
- **The footer lead-capture form** (`submission.dfy`, module `Submission`). It
  holds an email field and a status: idle, submitting or success. Submitting a
  non-empty email moves to submitting and posts the email. An ok response moves
  to success, clears the field and schedules a reset. Any other response, or a
  network error, shows an alert and goes back to idle with the field kept. The
  scheduled reset sets the status back to idle. The submit button is enabled
  only while idle, and the field is disabled only in success.

The form's transitions are pure functions over `FormState` (`Edited`,
`Submitted`, `Resolved`, `TimerFired`). `Step` dispatches one `Event` to
them, and `Run` applies a sequence of events, refusing any event whose control
is disabled at that point. The class `LeadForm` holds the same state as mutable
fields. Each of its methods promises that the new state is the matching
function of the old state.

The request, the alert dialog and the timer live outside the component. The
model records their observable effects as state:

- `sent` lists the email carried by every request issued.
- `inFlight` says a request is awaiting its outcome.
- `alerts` lists the alerts shown.
- `timerPending` says the reset is scheduled and has not fired.

The request's result is an input, `Outcome = Ok | NotOk | NetworkError`.

The submit handler does not look at the status. Only the disabled button keeps
it from running outside idle. So `Enabled(st, Submit)` and
`LeadForm.Submit`'s precondition are the button's enabledness, and the
handler's own guard is the empty-email check. The reset callback sets idle
unconditionally, as the source does. The invariant `Valid` shows that it can
only fire from success.

Written modularly, "previous" is `(i - 1 + n) mod n`. The code uses a
conditional instead. `Prev` follows the code, and its contract proves that the
two agree.

## Model

| member | source | states |
|---|---|---|
| Carousel.Next | src/App.tsx:411-414 | "next" stays in `[0, n)`, moves one forward, and wraps from the last index to 0 |
| Carousel.Prev | src/App.tsx:416-419 | "previous" stays in `[0, n)` and equals `(i - 1 + n) mod n`: `n - 1` from 0, `i - 1` otherwise |
| Carousel.PrevAfterNext | src/App.tsx:411-419 | "previous" undoes "next" for every index in range |
| Carousel.NextAfterPrev | src/App.tsx:411-419 | "next" undoes "previous" for every index in range |
| Carousel.NextTimes | src/App.tsx:411-414 | any number of "next" presses keeps the index in range |
| Carousel.PrevTimes | src/App.tsx:416-419 | any number of "previous" presses keeps the index in range |
| Carousel.NextTimesShifts | src/App.tsx:411-414 | k presses of "next" move the index k places forward modulo n |
| Carousel.PrevTimesShifts | src/App.tsx:416-419 | k presses of "previous" move the index k places back modulo n |
| Carousel.FullCycle | src/App.tsx:406-419 | n presses of either button return to the starting image |
| Carousel.ProjectImages | src/App.tsx:409 | the Work page shows two distinct images, in order |
| Carousel.ProjectImagesAlternate | src/App.tsx:406-419 | with the page's two images, "next" from 0 shows 0, 1, 0, 1, … (index k mod 2), and "previous" from 0 gives 1 |
| Carousel.Indicators | src/App.tsx:461-467 | one dot per image; a dot is highlighted iff its position is the current index |
| Carousel.ExactlyOneIndicatorActive | src/App.tsx:461-467 | exactly one dot is highlighted when the index is in range |
| Carousel.WorkCarousel.constructor | src/App.tsx:406-409 | on mount the index is 0 over the given non-empty image list |
| Carousel.WorkCarousel.NextSlide | src/App.tsx:411-414 | the button sets `currentSlide` to `Next` of its old value and keeps it in range |
| Carousel.WorkCarousel.PrevSlide | src/App.tsx:416-419 | the button sets `currentSlide` to `Prev` of its old value and keeps it in range |
| Carousel.WorkCarousel.ActiveImage | src/App.tsx:435-436 | the image shown is the one at `currentSlide` (always in bounds), and it is the image at the highlighted dot |
| Carousel.WorkCarousel.Dots | src/App.tsx:461-467 | the rendered dots number one per image, highlight exactly the current one, and exactly one is highlighted |
| Submission.Edited | src/App.tsx:182 | typing replaces the field's text and changes nothing else |
| Submission.Submitted | src/App.tsx:76-92 | empty field: nothing changes and no request is issued; otherwise status becomes submitting, one request carrying the email is issued, and the field is kept |
| Submission.Resolved | src/App.tsx:94-106 | ok: success, field cleared, reset scheduled; not ok: idle, field kept, "problem" alert; network error: idle, field kept, "network" alert; the request is no longer in flight |
| Submission.TimerFired | src/App.tsx:98 | the reset sets status to idle, whatever it was, and changes nothing else |
| Submission.Initial | src/App.tsx:72-73 | the mount state has an empty field, is idle, has issued no request, shown no alert and scheduled no reset, and satisfies the form invariant |
| Submission.SubmitEnabled | src/App.tsx:184 | the submit button is enabled exactly while idle, and whenever it is enabled the field is enabled too |
| Submission.InputEnabled | src/App.tsx:182 | the field is disabled exactly in success; it stays editable while a request is in flight |
| Submission.StepKeepsValid | src/App.tsx:76-107 | every event whose control is enabled keeps the invariant: in flight iff submitting, reset pending iff success, empty field in success, no request with an empty email |
| Submission.RunKeepsValid | src/App.tsx:76-107 | any sequence of enabled events from a valid state ends in a valid state |
| Submission.ReachableValid | src/App.tsx:72-107 | every state reachable from mount satisfies the invariant |
| Submission.NoSubmitWhileBusy | src/App.tsx:184 | while a request is in flight or the reset is pending, the submit button is disabled, so no second request can be issued |
| Submission.ResetsComeFromTheRightStatus | src/App.tsx:94-98 | in a valid state the unconditional reset can only fire from success, and an outcome can only arrive while submitting |
| Submission.EmptySubmitIsNoop | src/App.tsx:78 | submitting an empty field leaves the whole state, including the issued requests, unchanged |
| Submission.HappyPath | src/App.tsx:76-98 | from mount, typing a non-empty email then submit, ok, and the timer pass through submitting, success with an empty field, and idle, with exactly one request and no alert |
| Submission.FailurePath | src/App.tsx:99-106 | from idle with a non-empty field, submit and then a non-ok response or a network error lead back to idle with the field kept, one request issued, one alert shown, and the button enabled again |
| Submission.LeadForm.constructor | src/App.tsx:72-73 | the form starts with an empty field, idle, and nothing issued |
| Submission.LeadForm.EditEmail | src/App.tsx:182 | allowed only while the field is enabled; the new state is `Edited` of the old, and the invariant is kept |
| Submission.LeadForm.Submit | src/App.tsx:76-92 | allowed only while the button is enabled; the new state is `Submitted` of the old, and the invariant is kept |
| Submission.LeadForm.Resolve | src/App.tsx:94-106 | allowed only while a request is in flight; the new state is `Resolved` of the old, and the invariant is kept |
| Submission.LeadForm.TimerFire | src/App.tsx:98 | allowed only while the reset is pending; the new state is `TimerFired` of the old, and the invariant is kept |

## Left out

- The POST to the collection endpoint (src/App.tsx:86-92): network I/O. It becomes the `sent` record plus an `Outcome` input to `Resolve`.
- The alert texts (src/App.tsx:100, 104): UI side effects. Only which of the two alerts was shown is recorded.
- The 3000 ms delay of the reset (src/App.tsx:98): wall-clock timing. It is the explicit `TimerFire` event.
- The reset is not cancelled when the layout unmounts, and the model does not model unmounting.
- `e.preventDefault()` and `e.stopPropagation()` (src/App.tsx:77, 412, 417): browser event plumbing with no state of the component.
- The `required` attribute and the `type="email"` format check of the email input (src/App.tsx:182): browser-side validation. The browser keeps a non-address such as "abc" from reaching the submit handler, but the model lets any non-empty text be submitted and recorded in `sent`. The handler's own empty-field check is modelled.
- The mouse-parallax position (src/App.tsx:211-220): floating-point, decorative.
- `ScrollToTop` and the `window.scrollTo` buttons (src/App.tsx:27-33, 142, 192, 223): viewport plumbing.
- The route table (src/App.tsx:537-540) and the mobile-menu toggle (src/App.tsx:69, 147, 156): react-router wiring and a single boolean flip.
- All markup and styles, including which label the submit button shows per status (src/App.tsx:185-187): presentation.
