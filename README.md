# Popup controller lifecycle

A model of the Stimulus popup controller in
`app/javascript/controllers/popup_controller.js`. The controller attaches to a
trigger element. When the trigger is clicked it appends a portal wrapper to
the document body and inserts a dialog that shows a spinner. It requests the
dialog content and locks the page scroll. It closes on Escape, on the dismiss
button or on a successful form submission inside the dialog. On close it
removes the wrapper, restores the scroll and dispatches `modal:closed` to the
opener.

The model has four modules:

- `Dom` (`dom.dfy`): the browser pieces the controller touches.
  - optional values and JavaScript truthiness of attribute strings
  - `s || fallback`, and `String.prototype.indexOf` with its contract
  - elements, events and window measurements
  - the `Page` class, whose body classes, inline `padding-right` and `top`,
    and scroll offset change in place
- `PopupSpec` (`popup_spec.dfy`): the lifecycle as a state machine over
  values. It has one function per controller operation, each stating what the
  controller guarantees. The invariant `Inv` says the wrapper is present
  exactly when the popup is open, and that an open popup shows its dialog,
  listens on it and keeps the body locked at the saved scroll position.
  Lemmas relate the operations to each other.
- `PopupController` (`popup_controller.dfy`): the controller as the object it
  is. The class `Popup` has the controller's fields, and its methods update
  them and the shared `Page` step by step.
  - Each method ensures `Model() == PopupSpec.<Operation>(old(Model()), …)`,
    except `Connect`, which ensures that its configuration and throw flag
    equal `PopupSpec.Connect` of the old configuration.
  - The entry points keep `Valid()`, which is `Inv` on the fields.
  - Two client methods show what a caller can conclude from the contracts
    alone.
- `PopupTraces` (`popup_traces.dfy`): any sequence of entry points, fired one
  at a time, each running to completion before the next begins. Lemmas proved
  by induction say what holds after every step.

## Behaviour worth knowing

These follow from `popup_controller.js` as written, and the model keeps them:

- **A missing opener.** Line 32 reads `this.popupOpener.text` only when the
  heading attribute is falsy. So `connect` throws a `TypeError` exactly when
  there is no opener and no non-empty heading attribute, and by then every
  field but the heading is set. With a heading attribute, a controller
  without an opener connects normally and opens normally. `Popup.Connect`
  returns `threw`, and `PopupSpec.Connect` states the condition.
- **A failed response.** For a response that is not ok, the first
  continuation (lines 127-130) returns `undefined`, and `innerHTML =
  undefined` at line 132 replaces the spinner with the text "undefined".
  `PopupSpec.ReceiveContent` states this.
- **Escape on a closed popup.** `close` calls `preventDefault` (line 90)
  before it tests `open` (line 98), so `closeWithKeyboard` suppresses the
  default action of Escape even when the popup is closed.
  `PopupSpec.KeyboardEffects` states this.
- **A submission is stopped twice.** `handleFormSubmission` stops a
  successful submission itself (line 206). `close` stops it again (line 93),
  because the event is a `turbo:submit-end`. `PopupSpec.FormEffects` states
  this.
- **The opener hears of the close before the scroll is unlocked.** `close`
  dispatches `modal:closed` (line 107), and the opener's listeners run
  synchronously at line 225. The body is unlocked only afterwards (line 114).
  So those listeners see the body still fixed and the scroll not yet
  restored, and line 173 then overwrites any scroll position they set.

## Model

| member | source | states |
|---|---|---|
| Dom.OrElse | app/javascript/controllers/popup_controller.js:15-17 | `attr \|\| fallback` is the attribute when it is non-empty and the fallback otherwise; a non-empty fallback gives a non-empty result |
| Dom.IndexOf | app/javascript/controllers/popup_controller.js:20 | the result is -1 exactly when the substring occurs nowhere; otherwise it is an index where it occurs, and it occurs at no earlier index |
| PopupSpec.FirstOpener | app/javascript/controllers/popup_controller.js:23 | `querySelector('[data-action*="popup#openModal"]')` finds the first descendant in document order whose action contains the open action, or none when no descendant does |
| PopupSpec.ResolveOpener | app/javascript/controllers/popup_controller.js:20-24 | the opener is the element itself if its action names the open action; otherwise the first such descendant; it is absent exactly when neither the element nor any descendant carries the action |
| PopupSpec.Connect | app/javascript/controllers/popup_controller.js:13-33 | the toggle class defaults to `show` and the background id to `modal-background`; the opener is the one resolved; an anchor opener supplies its href when no url is configured; the background markup is the attribute or else the default overlay for the resolved id; the heading is the attribute or else the opener's text; connect throws exactly when there is neither an opener nor a non-empty heading attribute, and then the heading is left as it was |
| PopupSpec.AnchorOpenerScenario | app/javascript/controllers/popup_controller.js:20-32 | an anchor `<a href="/x">Edit</a>` carrying the open action, with no url or heading attribute, resolves the url `/x`, the heading `Edit` and the default toggle class, without throwing |
| PopupController.Popup.Connect | app/javascript/controllers/popup_controller.js:13-33 | the configuration fields and the throw flag are those PopupSpec.Connect resolves from the old configuration and the mounted element; nothing else changes |
| PopupSpec.SaveScrollPosition | app/javascript/controllers/popup_controller.js:168-170 | `pageYOffset \|\| body.scrollTop`: only the saved position changes, to the page offset when it is non-zero and to the body's scroll offset otherwise |
| PopupSpec.RestoreScrollPosition | app/javascript/controllers/popup_controller.js:172-174 | only the document scroll offset changes, to the saved position |
| PopupController.Popup.SaveScrollPosition | app/javascript/controllers/popup_controller.js:168-170 | the state becomes PopupSpec.SaveScrollPosition of the old state; only the saved position may change |
| PopupController.Popup.RestoreScrollPosition | app/javascript/controllers/popup_controller.js:172-174 | the state becomes PopupSpec.RestoreScrollPosition of the old state; only the page's scroll offset may change |
| PopupSpec.LockScroll | app/javascript/controllers/popup_controller.js:136-151 | the body is padded by `innerWidth - clientWidth`, gains the four lock classes and keeps its others, and is shifted up by the saved position; the scroll offset and everything else stay |
| PopupController.Popup.LockScroll | app/javascript/controllers/popup_controller.js:136-151 | the body and saved position become what PopupSpec.LockScroll gives; only those change |
| PopupSpec.UnlockScroll | app/javascript/controllers/popup_controller.js:153-166 | the body has no padding, no top offset and no lock class, keeps its other classes, and is scrolled to the saved position; nothing else changes |
| PopupController.Popup.UnlockScroll | app/javascript/controllers/popup_controller.js:153-166 | the body becomes what PopupSpec.UnlockScroll gives; only the page changes |
| PopupSpec.LockUnlockRoundTrip | app/javascript/controllers/popup_controller.js:136-174 | lock then unlock removes the lock classes, the padding and the top offset, scrolls to the saved position and keeps every other class; a body that was not locked is restored exactly |
| PopupSpec.LockUnlockReturns | app/javascript/controllers/popup_controller.js:136-174 | when the window offset the lock saves is the page's own scroll offset, lock then unlock returns an unlocked body exactly to where it was |
| PopupSpec.OpenModal | app/javascript/controllers/popup_controller.js:39-74 | a target outside the element changes nothing; an open popup is left as it is; from closed, the popup opens with the shown template dialog, the submit listener, the locked body, `top` equal to minus the saved position and one content request for the url; a wrapper is reused or created with the given id; the invariant is kept |
| PopupController.Popup.OpenModal | app/javascript/controllers/popup_controller.js:39-74 | the state becomes PopupSpec.OpenModal of the old state, the invariant is kept, and the event's default action is suppressed whatever the target |
| PopupSpec.OpenIdempotent | app/javascript/controllers/popup_controller.js:46-54 | after an open from inside the element, any further open changes nothing: same wrapper, no second lock, no second request |
| PopupSpec.Close | app/javascript/controllers/popup_controller.js:88-116 | a closed popup is unchanged; an open one ends closed without a wrapper and with its body unlocked at the saved position; one notification with the given cancelled flag is appended exactly when it was open, an event was given and there is an opener; the configuration, requests and saved position stay; the invariant is kept |
| PopupSpec.CloseEffects | app/javascript/controllers/popup_controller.js:89-96 | an event-less close touches no event; a given event has its default suppressed, open or not; its submission is stopped once and its propagation stopped exactly when it is a form-submission-ended event |
| PopupController.Popup.Close | app/javascript/controllers/popup_controller.js:88-116 | the state becomes PopupSpec.Close of the old state, the invariant is kept, and the event effects are CloseEffects |
| PopupSpec.CloseIdempotent | app/javascript/controllers/popup_controller.js:98 | a second close, with any event and flag, changes nothing |
| PopupSpec.OpenCloseRestoresBody | app/javascript/controllers/popup_controller.js:39-116 | opening a closed, unlocked popup and then closing it in any way hands the body back as it was, scrolled to the saved position, with no wrapper left |
| PopupSpec.Disconnect | app/javascript/controllers/popup_controller.js:35-37 | disconnect is exactly a close without an event: it never notifies the opener, and leaves the popup closed without a wrapper and its body unlocked |
| PopupController.Popup.Disconnect | app/javascript/controllers/popup_controller.js:35-37 | the state becomes PopupSpec.Disconnect of the old state and the invariant is kept |
| PopupSpec.CloseWithKeyboard | app/javascript/controllers/popup_controller.js:118-122 | a key other than Escape changes nothing; Escape is exactly a close with the event and cancelled true, so from open with an opener it appends a notification with cancelled true |
| PopupSpec.KeyboardEffects | app/javascript/controllers/popup_controller.js:118-122 | Escape has its default suppressed, whether the popup is open or not, and is handled as close handles its event; any other key is untouched |
| PopupController.Popup.CloseWithKeyboard | app/javascript/controllers/popup_controller.js:118-122 | the state becomes PopupSpec.CloseWithKeyboard of the old state and the invariant is kept |
| PopupSpec.ClickDismiss | app/javascript/controllers/popup_controller.js:62 | a click with no armed dismiss listener changes nothing; on an open popup the one-shot listener closes it as cancelled, appending a notification with cancelled true |
| PopupSpec.DismissEffects | app/javascript/controllers/popup_controller.js:62 | the click has its default suppressed exactly while the one-shot listener is armed, and is then handled as close handles its event; otherwise no handler touches it |
| PopupController.Popup.ClickDismiss | app/javascript/controllers/popup_controller.js:62 | the listener is consumed and the state becomes PopupSpec.ClickDismiss of the old state; the invariant is kept |
| PopupSpec.HandleFormSubmission | app/javascript/controllers/popup_controller.js:187-208 | an unsuccessful submission, or one with no enclosing form, changes nothing; a successful one is exactly a close with the event and no cancelled flag, so the opener's notification carries none |
| PopupSpec.FormEffects | app/javascript/controllers/popup_controller.js:187-208 | an ignored submission touches no event; a successful one has its default suppressed, is stopped twice when it is a form-submission-ended event and once otherwise, and has its propagation stopped exactly when it is a form-submission-ended event |
| PopupController.Popup.HandleFormSubmission | app/javascript/controllers/popup_controller.js:187-208 | the state becomes PopupSpec.HandleFormSubmission of the old state, the invariant is kept, and the event effects are FormEffects |
| PopupSpec.CloseReasons | app/javascript/controllers/popup_controller.js:62-208 | closing an open popup with an opener reports cancelled true for Escape and for the dismiss button, and not true for a successful form submission |
| PopupSpec.NotifyOpenerAboutClose | app/javascript/controllers/popup_controller.js:218-226 | with an opener, one notification carrying the cancelled flag and the opener as originator is appended; without one nothing changes; nothing but the notifications ever changes |
| PopupController.Popup.NotifyOpenerAboutClose | app/javascript/controllers/popup_controller.js:218-226 | one notification with the cancelled flag and the opener is appended when there is an opener; without one nothing changes |
| PopupSpec.ReceiveContent | app/javascript/controllers/popup_controller.js:124-134 | a closed popup is unchanged; on an open one the dialog's body becomes the response text when the response was ok, and "undefined" otherwise, and the dialog's other parts and the wrapper's id and listener stay; nothing but the wrapper changes; the invariant is kept |
| PopupController.Popup.ReceiveContent | app/javascript/controllers/popup_controller.js:124-134 | the state becomes PopupSpec.ReceiveContent of the old state and the invariant is kept |
| PopupController.Popup.constructor | app/javascript/controllers/popup_controller.js:8-11 | a new controller is closed, has no wrapper and no opener, has issued no request and notification, and satisfies the invariant |
| PopupTraces.ApplySettled | app/javascript/controllers/popup_controller.js:13-226 | every entry point keeps the invariant and leaves no lock on the body of a closed popup |
| PopupTraces.ApplyAccounting | app/javascript/controllers/popup_controller.js:54-108 | from any state satisfying the invariant, every entry point keeps it, issues one content request exactly when it opens the popup, only appends notifications, and appends at most one, and only when it closes the popup |
| PopupTraces.RunSettled | app/javascript/controllers/popup_controller.js:13-226 | after any sequence of entry points the invariant holds and a closed popup leaves the body unlocked |
| PopupTraces.RunAccounting | app/javascript/controllers/popup_controller.js:54-108 | over any sequence of entry points from a state satisfying the invariant, the invariant holds throughout, notifications are only appended, and never outnumber the content requests issued, counting an open popup as a request not yet answered |
| PopupTraces.FromAttachment | app/javascript/controllers/popup_controller.js:35-122 | from a freshly attached controller on any page, whatever happens, the invariant holds, so the wrapper is present exactly when the popup is open, and the notifications plus the open popup never outnumber the requests; on a page that was unlocked, a closed popup leaves it unlocked |
| PopupTraces.DetachIsSilent | app/javascript/controllers/popup_controller.js:35-37 | disconnecting never notifies the opener, and leaves the popup closed without a wrapper |

## Left out

- The content request (lines 124-134) is not asynchronous here. Opening
  records the url in a ghost log of requests, and a response is a separate
  operation (`ReceiveContent`) that writes into whatever dialog is current.
  Responses are not tied to their requests, so a late response to an earlier
  opening is covered but not distinguished. Network failures, headers and
  timeouts are not modelled.
- A response that arrives after close finds no wrapper: `contentTarget`
  (lines 84-86) is looked up through `wrapperTarget`, which close set to null
  (line 102). The continuation then throws a `TypeError`, which becomes an
  unhandled rejection, and the model leaves the state unchanged. A response
  that arrives after a reopen writes into the new dialog.
- The HTML template strings (`template`, `_wrapperHTML`, `_backgroundHTML`)
  and `insertAdjacentHTML` are not modelled as markup. The dialog is a record
  of its heading, its container's classes and display, its body and its
  listener. The wrapper is a record of its id, its dialog and its listener.
- The `querySelector` getters (`closeButton`, `containerTarget`,
  `contentTarget`) become direct access to that record.
- The random wrapper id (`Math.random`, line 47) is a parameter of `OpenModal`.
- The assignment `wrapperTarget[this.identifier] = this` (line 51) is
  introspection with no effect on the lifecycle, and is not modelled.
- Background removal (line 111) is not modelled: `this.background` is never
  assigned in the file, so the step never does anything. The configured
  background markup is resolved in connect and never used.
- Removing the toggle class at line 100 acts on a container that leaves the
  document with its wrapper on the next line. The model drops the wrapper
  whole.
- Inline styles are integers in pixels, not the strings `"15px"` and
  `"-300px"`. Setting a style to null is `None`.
- The browser's clamping of `scrollTop` to the scrollable range is not
  modelled.
- The window measurements are a separate input (`Window`). They are not read
  from the `Page`, so nothing ties `pageYOffset` to the page's scroll offset.
  `PopupSpec.LockUnlockReturns` states the round trip when the two agree.
- PopupSpec.LockScroll: records the scrollbar width and the negated saved
  position as numbers, whatever their sign. The source writes them as CSS
  strings, at line 140 and line 150. A negative width (`innerWidth` below
  `clientWidth`) gives a negative padding. A negative saved offset (an
  overscrolled page) gives `--10px`, which is not a length. The browser
  rejects both, and the body keeps its old inline padding or top. The model
  instead stores the number, so the invariant's `paddingRight.Some?` and
  `top == Some(-scrollPosition)` describe the free values, not the browser's
  body, in those cases. The same holds for `PopupController.Popup.LockScroll`.
- `classList` errors on tokens that are empty or contain spaces are not
  modelled: a `showClass` attribute containing a space would throw at line 70.
- An exception at line 32 is reported by `Popup.Connect` as `threw`. How the
  framework handles an error thrown from `connect` is outside the model.
- Event listener registration is a flag on the dialog and on the wrapper, not
  a handler list. Each wrapper is created once per opening, so the repeated
  `addEventListener` at line 65 never doubles a handler.
- Several controllers on the same page contending for the body's scroll
  lock, which the `Page` class would allow, are not studied.
- What happens before the host attaches the controller is not modelled. A
  new `Popup` starts from empty configuration defaults.
- `modalSize` is read by connect and never used, and the model carries it
  the same way.
- `app/helpers/application_helper.rb` and
  `app/controllers/application_controller.rb` are Rails glue and are not part
  of this model.
- Entry points are atomic in this model: each operation runs to completion
  before the next begins. Re-entry is not modelled. A `modal:closed`
  listener runs inside `close`, after `open` is cleared and the wrapper
  dropped (lines 99-102) but before the unlock (line 114). If such a
  listener reopens the popup, for instance by clicking the opener, `openModal`
  runs there, and `saveScrollPosition` overwrites the saved position while the
  body is still fixed. The outer `close` then unlocks the new popup's body.
  That leaves an open popup on an unlocked body, which the invariant and
  `PopupTraces.RunSettled` exclude for atomic steps.
- PopupSpec.Close: describes only the states the invariant admits, where an
  open popup has its wrapper with a dialog. In an open state without them,
  which no sequence of operations reaches, the controller would clear `open`
  and then throw at the container lookup (line 100), with no notification and
  no unlock. The model instead closes normally there.
- PopupController.Popup.Connect: does not require or ensure `Valid()`. It
  changes only configuration fields, and `Valid()` reads none of them, so
  the invariant is kept by framing rather than stated.
