/** Whole lifecycles: any sequence of the controller's entry points, fired one
    at a time, each running to completion before the next begins, and what
    holds after every one of them. */
module PopupTraces {
  import opened Dom
  import opened PopupSpec

  /** One thing that can happen to a controller: connect, disconnect, a click
      on the opener, a key press on the window, a click on the dismiss button, a
      form-submission-ended event bubbling to the wrapper, or the arrival of the
      content response. */
  datatype Op =
    | Attach
    | Detach
    | Open(e: Event, id: WrapperNumber, w: Window)
    | Key(e: Event)
    | Dismiss(e: Event)
    | Submit(e: Event)
    | Respond(ok: bool, text: string)

  /** The form-submission-ended listener is registered on the wrapper. */
  predicate Listening(s: State)
  {
    s.wrapper.Some? && s.wrapper.value.submitListener
  }

  function Apply(h: Host, s: State, op: Op): State
  {
    match op
    case Attach => s.(config := Connect(s.config, h).config)
    case Detach => Disconnect(s)
    case Open(e, id, w) => OpenModal(s, e, id, w)
    case Key(e) => CloseWithKeyboard(s, e)
    case Dismiss(e) => ClickDismiss(s, e)
    case Submit(e) => if Listening(s) then HandleFormSubmission(s, e) else s
    case Respond(ok, text) => ReceiveContent(s, ok, text)
  }

  function Run(h: Host, s: State, ops: seq<Op>): State
    decreases |ops|
  {
    if ops == [] then s else Run(h, Apply(h, s, ops[0]), ops[1..])
  }

  /** 1 when the step from `s` to `r` opened the popup. */
  function Opening(s: State, r: State): nat
  {
    if !s.open && r.open then 1 else 0
  }

  /** 1 when the step from `s` to `r` closed the popup. */
  function Closing(s: State, r: State): nat
  {
    if s.open && !r.open then 1 else 0
  }

  /** Every step keeps the invariant, and leaves no lock on the body of a
      closed popup. */
  lemma ApplySettled(h: Host, s: State, op: Op)
    requires Settled(s)
    ensures Settled(Apply(h, s, op))
  {
  }

  /** Every step keeps the invariant, issues a content request exactly when it
      opens the popup, and dispatches at most one notification, and only when
      it closes it. */
  lemma ApplyAccounting(h: Host, s: State, op: Op)
    requires Inv(s)
    ensures Inv(Apply(h, s, op))
    ensures |Apply(h, s, op).fetches| == |s.fetches| + Opening(s, Apply(h, s, op))
    ensures s.notifications <= Apply(h, s, op).notifications
    ensures |Apply(h, s, op).notifications| <= |s.notifications| + Closing(s, Apply(h, s, op))
  {
  }

  /** Every reachable state keeps the invariant, and a closed popup leaves no
      trace of the scroll lock on the body. */
  lemma {:induction false} RunSettled(h: Host, s: State, ops: seq<Op>)
    requires Settled(s)
    ensures Settled(Run(h, s, ops))
    decreases |ops|
  {
    if ops != [] {
      ApplySettled(h, s, ops[0]);
      RunSettled(h, Apply(h, s, ops[0]), ops[1..]);
    }
  }

  /** Notifications are only ever appended, and each one answers its own
      opening: counting the open popup as an opening not yet answered, there
      are never more notifications than content requests, one of which every
      opening issues. */
  lemma {:induction false} RunAccounting(h: Host, s: State, ops: seq<Op>)
    requires Inv(s)
    ensures Inv(Run(h, s, ops))
    ensures s.notifications <= Run(h, s, ops).notifications
    ensures |Run(h, s, ops).notifications| - |s.notifications| + (if Run(h, s, ops).open then 1 else 0)
         <= |Run(h, s, ops).fetches| - |s.fetches| + (if s.open then 1 else 0)
    decreases |ops|
  {
    if ops != [] {
      var next := Apply(h, s, ops[0]);
      ApplyAccounting(h, s, ops[0]);
      RunAccounting(h, next, ops[1..]);
    }
  }

  /** From a freshly attached controller on any page, whatever happens: the
      invariant holds, so the wrapper is present exactly when the popup is
      open, and the notifications dispatched never outnumber the openings
      closed. On a page that was unlocked, the body of a closed popup is
      unlocked again. */
  lemma FromAttachment(h: Host, b: Body, ops: seq<Op>)
    ensures Inv(Run(h, Init(b), ops))
    ensures Unlocked(b) ==> Settled(Run(h, Init(b), ops))
    ensures |Run(h, Init(b), ops).notifications| + (if Run(h, Init(b), ops).open then 1 else 0)
         <= |Run(h, Init(b), ops).fetches|
  {
    if Unlocked(b) {
      RunSettled(h, Init(b), ops);
    }
    RunAccounting(h, Init(b), ops);
  }

  /** Disconnecting never notifies the opener, and leaves a closed popup. */
  lemma DetachIsSilent(h: Host, s: State)
    requires Inv(s)
    ensures Apply(h, s, Detach).notifications == s.notifications
    ensures !Apply(h, s, Detach).open && Apply(h, s, Detach).wrapper.None?
  {
  }
}
