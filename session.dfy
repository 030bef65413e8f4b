/**
 * The request handlers as they run: each one reads and updates the visitor's
 * session in place and returns the response. Every method is proved to do
 * what the matching step function of LockerFlow specifies.
 */
module LockerSession {
  import opened Wrappers
  import opened PinText
  import opened LockerFlow

  /** One visitor's session store, holding the four keys the kiosk uses. */
  class Session {
    var publicFlow: Option<bool>
    var selectedLocker: Option<string>
    var rfidAuthenticated: Option<bool>
    var pinVerified: Option<bool>

    /** The session's current keys as a value. */
    function State(): Flags
      reads this
    {
      Flags(publicFlow, selectedLocker, rfidAuthenticated, pinVerified)
    }

    /** A new visitor's session holds none of the keys. */
    constructor ()
      ensures State() == Cleared
    {
      publicFlow, selectedLocker, rfidAuthenticated, pinVerified := None, None, None, None;
    }

    /** `home`: the session is flushed and the index page is rendered. */
    method Home() returns (resp: Response)
      modifies this
      ensures publicFlow == None && selectedLocker == None
      ensures rfidAuthenticated == None && pinVerified == None
      ensures resp == Render(IndexPage)
      ensures Outcome(State(), resp) == HomeStep(old(State()))
    {
      publicFlow, selectedLocker, rfidAuthenticated, pinVerified := None, None, None, None;
      resp := Render(IndexPage);
    }

    /**
     * `select_locker`: only a public-flow POST with a non-empty locker number
     * stores it (and redirects); anything else renders the selection page.
     */
    method SelectLocker(req: Request) returns (resp: Response)
      modifies this`selectedLocker
      ensures selectedLocker ==
        if IsPublicSelection(old(State()), req) then req.lockerNumber else old(selectedLocker)
      ensures IsPublicSelection(old(State()), req) ==>
        resp == Redirect(if IsSet(rfidAuthenticated) then Route.OpenLocker else Route.RfidLogin, None)
      ensures !IsPublicSelection(old(State()), req) ==>
        resp == Render(SelectLockerPage(Lockers, IsSet(publicFlow)))
      ensures Outcome(State(), resp) == SelectLockerStep(old(State()), req)
    {
      var isPublic := publicFlow.GetOr(false);
      if isPublic && req.verb == Post {
        var lockerNumber := req.lockerNumber;
        if IsGiven(lockerNumber) {
          selectedLocker := lockerNumber;
          if IsSet(rfidAuthenticated) {
            return Redirect(Route.OpenLocker, None);
          }
          return Redirect(Route.RfidLogin, None);
        }
      }
      resp := Render(SelectLockerPage(Lockers, isPublic));
    }

    /**
     * `rfid_login`: every visit sets the public flow; a POST (the card tap)
     * also sets the RFID flag and moves on to opening or selecting.
     */
    method RfidLogin(req: Request) returns (resp: Response)
      modifies this`publicFlow, this`rfidAuthenticated
      ensures publicFlow == Some(true)
      ensures rfidAuthenticated == if req.verb == Post then Some(true) else old(rfidAuthenticated)
      ensures req.verb == Post ==>
        resp == Redirect(if IsGiven(selectedLocker) then Route.OpenLocker else Route.SelectLocker, None)
      ensures req.verb != Post ==> resp == Render(RfidPage(selectedLocker))
      ensures Outcome(State(), resp) == RfidLoginStep(old(State()), req)
    {
      publicFlow := Some(true);
      if req.verb == Post {
        rfidAuthenticated := Some(true);
        if IsGiven(selectedLocker) {
          return Redirect(Route.OpenLocker, None);
        }
        return Redirect(Route.SelectLocker, None);
      }
      resp := Render(RfidPage(selectedLocker));
    }

    /**
     * `open_locker`: renders the locker selected before the call (possibly
     * none) and removes the three public-flow keys; `pin_verified` stays.
     */
    method OpenLocker() returns (resp: Response)
      modifies this`publicFlow, this`selectedLocker, this`rfidAuthenticated
      ensures resp == Render(OpenLockerPage(old(selectedLocker)))
      ensures rfidAuthenticated == None && selectedLocker == None && publicFlow == None
      ensures Outcome(State(), resp) == OpenLockerStep(old(State()))
    {
      var locker := selectedLocker;
      rfidAuthenticated := None;
      selectedLocker := None;
      publicFlow := None;
      resp := Render(OpenLockerPage(locker));
    }

    /** `private_auth`: always back to locker selection; the session is not touched. */
    method PrivateAuth() returns (resp: Response)
      ensures resp == Redirect(Route.SelectLocker, None)
      ensures Outcome(State(), resp) == PrivateAuthStep(State())
    {
      resp := Redirect(Route.SelectLocker, None);
    }

    /**
     * `pin_entry`: a POST with a locker number stores it and shows the form
     * again; a POST without one checks the PIN, and only the demo PIN (after
     * stripping whitespace) sets `pin_verified` and leads to the fingerprint.
     */
    method PinEntry(req: Request) returns (resp: Response)
      modifies this`selectedLocker, this`pinVerified
      ensures req.verb == Post && IsGiven(req.lockerNumber) ==>
        selectedLocker == req.lockerNumber && pinVerified == old(pinVerified)
        && resp == Render(PinPage(req.lockerNumber, false))
      ensures req.verb == Post && !IsGiven(req.lockerNumber) ==>
        selectedLocker == old(selectedLocker)
        && (Strip(req.pin.GetOr("")) == DemoPin ==>
              pinVerified == Some(true) && resp == Redirect(Route.FingerprintLogin, None))
        && (Strip(req.pin.GetOr("")) != DemoPin ==>
              pinVerified == old(pinVerified) && resp == Render(PinPage(None, true)))
      ensures req.verb != Post ==>
        unchanged(this) && resp == Render(PinPage(None, false))
      ensures Outcome(State(), resp) == PinEntryStep(old(State()), req)
    {
      var nextTarget := NextTarget(req);
      if req.verb == Post {
        var lockerNumber := req.lockerNumber;
        if IsGiven(lockerNumber) {
          selectedLocker := lockerNumber;
          resp := Render(PinPage(lockerNumber, false));
        } else {
          var pin := Strip(req.pin.GetOr(""));
          if pin == DemoPin {
            pinVerified := Some(true);
            if nextTarget == Some(FingerprintNext) {
              resp := Redirect(Route.FingerprintLogin, None);
            } else {
              resp := Redirect(Route.FingerprintLogin, None);
            }
          } else {
            resp := Render(PinPage(None, true));
          }
        }
      } else {
        resp := Render(PinPage(None, false));
      }
    }

    /**
     * `fingerprint_login`: without a verified PIN it sends the visitor to the
     * PIN form with `next=fingerprint`; with one it consumes the flag and
     * renders the fingerprint page.
     */
    method FingerprintLogin() returns (resp: Response)
      modifies this`pinVerified
      ensures !IsSet(old(pinVerified)) ==>
        pinVerified == old(pinVerified) && resp == Redirect(Route.PinEntry, Some(FingerprintNext))
      ensures IsSet(old(pinVerified)) ==>
        pinVerified == None && resp == Render(FingerprintPage)
      ensures Outcome(State(), resp) == FingerprintLoginStep(old(State()))
    {
      if !IsSet(pinVerified) {
        return Redirect(Route.PinEntry, Some(FingerprintNext));
      }
      pinVerified := None;
      resp := Render(FingerprintPage);
    }
  }
}
