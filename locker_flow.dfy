/**
 * The kiosk's request handlers as a specification: each handler is a function
 * from the visitor's session flags and the request to the new flags and the
 * response (a page to render or a named route to redirect to).
 */
module LockerFlow {
  import opened Wrappers
  import opened PinText

  /** The HTTP method; the handlers only ever distinguish POST from the rest. */
  datatype HttpMethod = Get | Post | Other

  /**
   * The request parameters the handlers read: `locker_number` and `pin` from
   * the form body, `next` from the query string and from the form body.
   */
  datatype Request = Request(
    verb: HttpMethod,
    lockerNumber: Option<string>,
    pin: Option<string>,
    queryNext: Option<string>,
    formNext: Option<string>)

  /** The named routes of the URL table. */
  datatype Route = Home | SelectLocker | PrivateAuth | RfidLogin | OpenLocker | PinEntry | FingerprintLogin

  /** The templates the handlers render, each with the context it is given. */
  datatype Page =
    | IndexPage
    | SelectLockerPage(lockers: seq<int>, isPublic: bool)
    | RfidPage(selectedLocker: Option<string>)
    | OpenLockerPage(locker: Option<string>)
      /** `incorrectPin` is the "Incorrect PIN" notice queued with the render. */
    | PinPage(selectedLocker: Option<string>, incorrectPin: bool)
    | FingerprintPage

  /** What a handler returns: a rendered page, or a redirect to a route with an optional `next` query. */
  datatype Response = Render(page: Page) | Redirect(route: Route, next: Option<string>)

  /** The four session keys; an absent key is `None`. */
  datatype Flags = Flags(
    publicFlow: Option<bool>,
    selectedLocker: Option<string>,
    rfidAuthenticated: Option<bool>,
    pinVerified: Option<bool>)

  datatype Outcome = Outcome(session: Flags, response: Response)

  /** The session with no key present. */
  const Cleared: Flags := Flags(None, None, None, None)

  /** Python's `range(lo, hi)`: the integers from `lo` up to, not including, `hi`. */
  function Range(lo: int, hi: int): (r: seq<int>)
    ensures |r| == if lo <= hi then hi - lo else 0
    ensures forall i :: 0 <= i < |r| ==> r[i] == lo + i
    decreases hi - lo
  {
    if lo >= hi then [] else [lo] + Range(lo + 1, hi)
  }

  /** The locker numbers offered for selection, `range(1, 17)`. */
  const Lockers: seq<int> := Range(1, 17)

  /** The continuation the fingerprint gate asks the PIN form for. */
  const FingerprintNext: string := "fingerprint"

  /** Python truthiness of a boolean session value. */
  predicate IsSet(v: Option<bool>) {
    v == Some(true)
  }

  /** Python truthiness of a string value: present and non-empty. */
  predicate IsGiven(v: Option<string>) {
    v.Some? && v.value != ""
  }

  /** The branch of `select_locker` that stores the submitted locker. */
  predicate IsPublicSelection(s: Flags, req: Request) {
    IsSet(s.publicFlow) && req.verb == Post && IsGiven(req.lockerNumber)
  }

  /**
   * The session shapes the handlers can produce: boolean keys are only ever
   * stored as true, a stored locker is a non-empty string (any string: it is
   * never checked against 1 to 16), and the RFID flag is only present while
   * the public flow is set.
   */
  ghost predicate WellFormed(s: Flags) {
    && s.publicFlow != Some(false)
    && s.rfidAuthenticated != Some(false)
    && s.pinVerified != Some(false)
    && s.selectedLocker != Some("")
    && (s.rfidAuthenticated.Some? ==> IsSet(s.publicFlow))
  }

  /** `home`: flush the session and render the index page. */
  function HomeStep(s: Flags): (o: Outcome)
    ensures WellFormed(o.session)
  {
    Outcome(Cleared, Render(IndexPage))
  }

  /** `select_locker`: only ever touches `selected_locker`. */
  function SelectLockerStep(s: Flags, req: Request): (o: Outcome)
    ensures o.session.publicFlow == s.publicFlow && o.session.rfidAuthenticated == s.rfidAuthenticated
    ensures o.session.pinVerified == s.pinVerified
    ensures WellFormed(s) ==> WellFormed(o.session)
  {
    var isPublic := s.publicFlow.GetOr(false);
    if isPublic && req.verb == Post && IsGiven(req.lockerNumber) then
      var s' := s.(selectedLocker := req.lockerNumber);
      if IsSet(s'.rfidAuthenticated) then Outcome(s', Redirect(OpenLocker, None))
      else Outcome(s', Redirect(RfidLogin, None))
    else
      Outcome(s, Render(SelectLockerPage(Lockers, isPublic)))
  }

  /** `rfid_login`: every visit enters the public flow; a POST is the card tap. */
  function RfidLoginStep(s: Flags, req: Request): (o: Outcome)
    ensures o.session.selectedLocker == s.selectedLocker && o.session.pinVerified == s.pinVerified
    ensures WellFormed(s) ==> WellFormed(o.session)
  {
    var s1 := s.(publicFlow := Some(true));
    if req.verb == Post then
      var s2 := s1.(rfidAuthenticated := Some(true));
      if IsGiven(s2.selectedLocker) then Outcome(s2, Redirect(OpenLocker, None))
      else Outcome(s2, Redirect(SelectLocker, None))
    else
      Outcome(s1, Render(RfidPage(s1.selectedLocker)))
  }

  /** `open_locker`: show the selected locker and drop the public-flow keys. */
  function OpenLockerStep(s: Flags): (o: Outcome)
    ensures o.session.pinVerified == s.pinVerified
    ensures WellFormed(s) ==> WellFormed(o.session)
  {
    var locker := s.selectedLocker;
    var s' := s.(rfidAuthenticated := None, selectedLocker := None, publicFlow := None);
    Outcome(s', Render(OpenLockerPage(locker)))
  }

  /** `private_auth`: a redirect only; the session is not read or written. */
  function PrivateAuthStep(s: Flags): (o: Outcome)
    ensures o.session == s
  {
    Outcome(s, Redirect(SelectLocker, None))
  }

  /** `request.GET.get('next') or request.POST.get('next')`. */
  function NextTarget(req: Request): (r: Option<string>)
    ensures r == req.queryNext || r == req.formNext
    ensures IsGiven(r) <==> IsGiven(req.queryNext) || IsGiven(req.formNext)
  {
    if IsGiven(req.queryNext) then req.queryNext else req.formNext
  }

  /** `pin_entry`: a POST either stores a locker or checks the PIN. */
  function PinEntryStep(s: Flags, req: Request): (o: Outcome)
    ensures o.session.publicFlow == s.publicFlow && o.session.rfidAuthenticated == s.rfidAuthenticated
    ensures WellFormed(s) ==> WellFormed(o.session)
  {
    var nextTarget := NextTarget(req);
    if req.verb == Post then
      if IsGiven(req.lockerNumber) then
        Outcome(s.(selectedLocker := req.lockerNumber), Render(PinPage(req.lockerNumber, false)))
      else if Strip(req.pin.GetOr("")) == DemoPin then
        var s' := s.(pinVerified := Some(true));
        if nextTarget == Some(FingerprintNext) then Outcome(s', Redirect(FingerprintLogin, None))
        else Outcome(s', Redirect(FingerprintLogin, None))
      else
        Outcome(s, Render(PinPage(None, true)))
    else
      Outcome(s, Render(PinPage(None, false)))
  }

  /** `fingerprint_login`: render only after a PIN success, consuming it. */
  function FingerprintLoginStep(s: Flags): (o: Outcome)
    ensures o.session.publicFlow == s.publicFlow && o.session.selectedLocker == s.selectedLocker
    ensures o.session.rfidAuthenticated == s.rfidAuthenticated
    ensures o.response == Render(FingerprintPage) <==> IsSet(s.pinVerified)
    ensures o.response == Render(FingerprintPage) ==> o.session.pinVerified == None
    ensures WellFormed(s) ==> WellFormed(o.session)
  {
    if !IsSet(s.pinVerified) then Outcome(s, Redirect(PinEntry, Some(FingerprintNext)))
    else Outcome(s.(pinVerified := None), Render(FingerprintPage))
  }

  /** One request to one route. */
  datatype Call = Call(route: Route, req: Request)

  /** The URL table: the handler each route name is bound to. Every handler keeps the session well formed. */
  function Dispatch(s: Flags, c: Call): (o: Outcome)
    ensures WellFormed(s) ==> WellFormed(o.session)
  {
    match c.route
    case Home => HomeStep(s)
    case SelectLocker => SelectLockerStep(s, c.req)
    case PrivateAuth => PrivateAuthStep(s)
    case RfidLogin => RfidLoginStep(s, c.req)
    case OpenLocker => OpenLockerStep(s)
    case PinEntry => PinEntryStep(s, c.req)
    case FingerprintLogin => FingerprintLoginStep(s)
  }

  datatype Trace = Trace(session: Flags, responses: seq<Response>)

  /** A visitor's requests handled in order against one session. */
  function Run(s: Flags, calls: seq<Call>): (t: Trace)
    ensures |t.responses| == |calls|
    ensures calls != [] ==> t.responses[0] == Dispatch(s, calls[0]).response
    decreases |calls|
  {
    if calls == [] then Trace(s, [])
    else
      var o := Dispatch(s, calls[0]);
      var rest := Run(o.session, calls[1..]);
      Trace(rest.session, [o.response] + rest.responses)
  }
}
