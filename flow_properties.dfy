/**
 * What the handlers promise, proved of the step functions: the effect of each
 * handler on the session, short handler sequences, and invariants of whole
 * visits (sequences of requests run against one session).
 */
module FlowProperties {
  import opened Wrappers
  import opened PinText
  import opened LockerFlow

  /** `home` empties the session, whatever it held, and renders the index page. */
  lemma HomeClearsSession(s: Flags)
    ensures HomeStep(s).session.publicFlow == None && HomeStep(s).session.selectedLocker == None
    ensures HomeStep(s).session.rfidAuthenticated == None && HomeStep(s).session.pinVerified == None
    ensures HomeStep(s).response == Render(IndexPage)
  {
  }

  /** After `home` a visit no longer depends on anything the session held before. */
  lemma HomeForgetsHistory(s1: Flags, s2: Flags, r: Request, calls: seq<Call>)
    ensures Run(s1, [Call(Home, r)] + calls) == Run(s2, [Call(Home, r)] + calls)
  {
    var cs := [Call(Home, r)] + calls;
    assert cs[0] == Call(Home, r) && cs[1..] == calls;
  }

  /**
   * `select_locker` stores the locker and redirects exactly on a public-flow
   * POST with a non-empty locker number; otherwise it renders the selection
   * page (lockers 1 to 16, `is_public` false unless the public flow is set)
   * and leaves the session alone.
   */
  lemma SelectLockerEffect(s: Flags, req: Request)
    ensures SelectLockerStep(s, req).response.Redirect? <==> IsPublicSelection(s, req)
    ensures SelectLockerStep(s, req).session ==
      if IsPublicSelection(s, req) then s.(selectedLocker := req.lockerNumber) else s
    ensures IsPublicSelection(s, req) ==>
      SelectLockerStep(s, req).response ==
        Redirect(if IsSet(s.rfidAuthenticated) then OpenLocker else RfidLogin, None)
    ensures !IsPublicSelection(s, req) ==>
      SelectLockerStep(s, req).response == Render(SelectLockerPage(Lockers, IsSet(s.publicFlow)))
  {
  }

  /**
   * `rfid_login` sets the public flow on every call; a POST also sets the RFID
   * flag and opens the locker if one is already selected; other keys stay.
   */
  lemma RfidLoginEffect(s: Flags, req: Request)
    ensures RfidLoginStep(s, req).session.publicFlow == Some(true)
    ensures RfidLoginStep(s, req).session.selectedLocker == s.selectedLocker
    ensures RfidLoginStep(s, req).session.pinVerified == s.pinVerified
    ensures RfidLoginStep(s, req).session.rfidAuthenticated ==
      if req.verb == Post then Some(true) else s.rfidAuthenticated
    ensures req.verb == Post ==>
      RfidLoginStep(s, req).response ==
        Redirect(if IsGiven(s.selectedLocker) then OpenLocker else SelectLocker, None)
    ensures req.verb != Post ==> RfidLoginStep(s, req).response == Render(RfidPage(s.selectedLocker))
  {
  }

  /**
   * `open_locker` twice in a row: the second call renders no locker and
   * changes nothing, and neither call touches `pin_verified`.
   */
  lemma OpenLockerTwice(s: Flags)
    ensures OpenLockerStep(s).response == Render(OpenLockerPage(s.selectedLocker))
    ensures OpenLockerStep(s).session.pinVerified == s.pinVerified
    ensures OpenLockerStep(OpenLockerStep(s).session).response == Render(OpenLockerPage(None))
    ensures OpenLockerStep(OpenLockerStep(s).session).session == OpenLockerStep(s).session
  {
  }

  /**
   * Opening ends the public flow: a `select_locker` right after it never
   * stores a locker, and an RFID tap right after it cannot open anything.
   */
  lemma OpenLockerEndsPublicFlow(s: Flags, req: Request)
    ensures var s1 := OpenLockerStep(s).session;
      SelectLockerStep(s1, req) == Outcome(s1, Render(SelectLockerPage(Lockers, false)))
    ensures req.verb == Post ==>
      RfidLoginStep(OpenLockerStep(s).session, req).response == Redirect(SelectLocker, None)
  {
  }

  /** `private_auth` leaves the session as it is and sends the visitor to locker selection. */
  lemma PrivateAuthEffect(s: Flags)
    ensures PrivateAuthStep(s) == Outcome(s, Redirect(SelectLocker, None))
  {
  }

  /** A `pin_entry` POST with a locker number only stores that locker; no PIN is checked. */
  lemma PinEntryStoresLocker(s: Flags, req: Request)
    requires req.verb == Post && IsGiven(req.lockerNumber)
    ensures PinEntryStep(s, req).session == s.(selectedLocker := req.lockerNumber)
    ensures PinEntryStep(s, req).response == Render(PinPage(req.lockerNumber, false))
  {
  }

  /**
   * A `pin_entry` POST without a locker number is accepted exactly when the
   * submitted PIN is the demo PIN with only whitespace around it; acceptance
   * sets `pin_verified` and redirects to the fingerprint, refusal changes
   * nothing and shows the form with the error notice. A missing PIN is refused.
   */
  lemma PinEntryChecksPin(s: Flags, req: Request)
    requires req.verb == Post && !IsGiven(req.lockerNumber)
    ensures PinEntryStep(s, req).response == Redirect(FingerprintLogin, None) <==>
      exists i :: PaddedPin(req.pin.GetOr(""), i)
    ensures PinEntryStep(s, req).response == Redirect(FingerprintLogin, None) ==>
      PinEntryStep(s, req).session == s.(pinVerified := Some(true))
    ensures PinEntryStep(s, req).response != Redirect(FingerprintLogin, None) ==>
      PinEntryStep(s, req) == Outcome(s, Render(PinPage(None, true)))
    ensures req.pin == None ==> PinEntryStep(s, req).response == Render(PinPage(None, true))
  {
    StripMatchesPin(req.pin.GetOr(""));
  }

  /** Any request other than a POST only shows the PIN form. */
  lemma PinEntryGetShowsForm(s: Flags, req: Request)
    requires req.verb != Post
    ensures PinEntryStep(s, req) == Outcome(s, Render(PinPage(None, false)))
  {
  }

  /** The `next` parameter, from the query or the form, never changes what `pin_entry` does. */
  lemma PinEntryIgnoresNext(s: Flags, req: Request, queryNext: Option<string>, formNext: Option<string>)
    ensures PinEntryStep(s, req) == PinEntryStep(s, req.(queryNext := queryNext, formNext := formNext))
  {
  }

  /**
   * The fingerprint gate: without a verified PIN it redirects to the PIN form
   * asking to continue to the fingerprint and changes nothing; with one it
   * renders the fingerprint page and removes `pin_verified` only.
   */
  lemma FingerprintGate(s: Flags)
    ensures !IsSet(s.pinVerified) ==>
      FingerprintLoginStep(s) == Outcome(s, Redirect(PinEntry, Some("fingerprint")))
    ensures IsSet(s.pinVerified) ==>
      FingerprintLoginStep(s) == Outcome(s.(pinVerified := None), Render(FingerprintPage))
  {
  }

  /**
   * One accepted PIN opens the fingerprint page once: the next two visits to
   * the fingerprint route render it and then send the visitor back to the PIN form.
   */
  lemma FingerprintSingleUse(s: Flags, pinPost: Request)
    requires pinPost.verb == Post && !IsGiven(pinPost.lockerNumber)
    requires Strip(pinPost.pin.GetOr("")) == DemoPin
    ensures var o1 := PinEntryStep(s, pinPost);
      var o2 := FingerprintLoginStep(o1.session);
      var o3 := FingerprintLoginStep(o2.session);
      && o1.response == Redirect(FingerprintLogin, None)
      && o2.response == Render(FingerprintPage)
      && o3.response == Redirect(PinEntry, Some("fingerprint"))
      && o3.session == s.(pinVerified := None)
  {
    var s1, s2 := s.(pinVerified := Some(true)), s.(pinVerified := None);
    PinAccepted(s, pinPost);
    assert PinEntryStep(s, pinPost) == Outcome(s1, Redirect(FingerprintLogin, None));
    assert FingerprintLoginStep(s1) == Outcome(s2, Render(FingerprintPage));
    assert FingerprintLoginStep(s2) == Outcome(s2, Redirect(PinEntry, Some("fingerprint")));
  }

  /** An accepted PIN sets `pin_verified` and redirects to the fingerprint route. */
  lemma PinAccepted(s: Flags, req: Request)
    requires req.verb == Post && !IsGiven(req.lockerNumber)
    requires Strip(req.pin.GetOr("")) == DemoPin
    ensures PinEntryStep(s, req) ==
      Outcome(s.(pinVerified := Some(true)), Redirect(FingerprintLogin, None))
  {
  }

  /** A whole visit keeps the session well formed. */
  lemma {:induction false} RunKeepsWellFormed(s: Flags, calls: seq<Call>)
    requires WellFormed(s)
    ensures WellFormed(Run(s, calls).session)
    decreases |calls|
  {
    if calls != [] {
      RunKeepsWellFormed(Dispatch(s, calls[0]).session, calls[1..]);
    }
  }

  /** Every session reachable from a new visitor or from `home` is well formed. */
  lemma ReachableIsWellFormed(calls: seq<Call>)
    ensures WellFormed(Run(Cleared, calls).session)
    ensures Run(Cleared, calls).session.rfidAuthenticated.Some? ==>
      Run(Cleared, calls).session.publicFlow == Some(true)
  {
    RunKeepsWellFormed(Cleared, calls);
  }

  /** How many times `x` occurs in `rs`. */
  function Occurrences(rs: seq<Response>, x: Response): nat
    decreases |rs|
  {
    if rs == [] then 0 else (if rs[0] == x then 1 else 0) + Occurrences(rs[1..], x)
  }

  /** 1 if the PIN has been verified, 0 otherwise. */
  function PinCredit(v: Option<bool>): nat {
    if IsSet(v) then 1 else 0
  }

  /**
   * The only request answered with a redirect to the fingerprint route is a
   * `pin_entry` POST without a locker number whose PIN is accepted.
   */
  lemma FingerprintRedirectIsPinAcceptance(s: Flags, c: Call)
    ensures Dispatch(s, c).response == Redirect(FingerprintLogin, None) <==>
      c.route == PinEntry && c.req.verb == Post && !IsGiven(c.req.lockerNumber)
      && Strip(c.req.pin.GetOr("")) == DemoPin
  {
  }

  /** One handler call never renders the fingerprint page without spending a verified PIN. */
  lemma DispatchFingerprintBalance(s: Flags, c: Call)
    ensures var o := Dispatch(s, c);
      (if o.response == Render(FingerprintPage) then 1 else 0) + PinCredit(o.session.pinVerified)
      <= (if o.response == Redirect(FingerprintLogin, None) then 1 else 0) + PinCredit(s.pinVerified)
  {
  }

  /**
   * Over any visit, the fingerprint page is rendered at most once per accepted
   * PIN (an accepted PIN is the only redirect to the fingerprint route), plus
   * once for a PIN already verified when the visit began; a verified PIN not
   * yet spent at the end is counted against the same budget.
   */
  lemma {:induction false} FingerprintRendersBounded(s: Flags, calls: seq<Call>)
    ensures var t := Run(s, calls);
      Occurrences(t.responses, Render(FingerprintPage)) + PinCredit(t.session.pinVerified)
      <= Occurrences(t.responses, Redirect(FingerprintLogin, None)) + PinCredit(s.pinVerified)
    decreases |calls|
  {
    if calls != [] {
      var o := Dispatch(s, calls[0]);
      var rest := Run(o.session, calls[1..]);
      DispatchFingerprintBalance(s, calls[0]);
      FingerprintRendersBounded(o.session, calls[1..]);
      var rs := [o.response] + rest.responses;
      assert Run(s, calls) == Trace(rest.session, rs);
      assert rs[0] == o.response && rs[1..] == rest.responses;
    }
  }

  /** From a session with no verified PIN, every fingerprint render is paid for by an accepted PIN. */
  lemma FingerprintNeedsPin(s: Flags, calls: seq<Call>)
    requires !IsSet(s.pinVerified)
    ensures Occurrences(Run(s, calls).responses, Render(FingerprintPage))
      <= Occurrences(Run(s, calls).responses, Redirect(FingerprintLogin, None))
  {
    FingerprintRendersBounded(s, calls);
  }
}
