/**
 * Whole visits driven through the Session class, one request after another,
 * with the responses each visit must produce.
 */
module Scenarios {
  import opened Wrappers
  import opened PinText
  import opened LockerFlow
  import opened LockerSession

  function GetRequest(): Request {
    Request(Get, None, None, None, None)
  }

  function PostLocker(locker: string): Request {
    Request(Post, Some(locker), None, None, None)
  }

  function PostPin(pin: string): Request {
    Request(Post, None, Some(pin), None, None)
  }

  /**
   * The private flow: the private entry sends the visitor to selection, the
   * locker is posted to the PIN form, the demo PIN leads to the fingerprint
   * page, and a second visit to it asks for the PIN again.
   */
  method PrivateFlow() returns (responses: seq<Response>, last: Flags)
    ensures responses == [
      Redirect(SelectLocker, None),
      Render(SelectLockerPage(Lockers, false)),
      Render(PinPage(Some("7"), false)),
      Redirect(FingerprintLogin, None),
      Render(FingerprintPage),
      Redirect(PinEntry, Some("fingerprint"))]
    ensures last == Flags(None, Some("7"), None, None)
  {
    var session := new Session();
    var r0 := session.PrivateAuth();
    var r1 := session.SelectLocker(GetRequest());
    var r2 := session.PinEntry(PostLocker("7"));
    assert r2 == Render(PinPage(Some("7"), false));
    PinText.PaddedPinStrips(DemoPin, 0);
    assert Strip(PostPin(DemoPin).pin.GetOr("")) == DemoPin;
    var r3 := session.PinEntry(PostPin(DemoPin));
    assert r3 == Redirect(FingerprintLogin, None);
    var r4 := session.FingerprintLogin();
    var r5 := session.FingerprintLogin();
    responses := [r0, r1, r2, r3, r4, r5];
    last := session.State();
  }

  /**
   * A wrong PIN, and then a POST with no PIN at all, each show the error
   * notice; the fingerprint page stays closed.
   */
  method WrongPinFlow(pin: string) returns (responses: seq<Response>, last: Flags)
    requires Strip(pin) != DemoPin
    ensures responses == [
      Render(PinPage(None, true)),
      Render(PinPage(None, true)),
      Redirect(PinEntry, Some("fingerprint"))]
    ensures last == Cleared
  {
    var session := new Session();
    var r0 := session.PinEntry(PostPin(pin));
    assert r0 == Render(PinPage(None, true));
    assert Strip("") != DemoPin;
    var r1 := session.PinEntry(Request(Post, None, None, None, None));
    assert r1 == Render(PinPage(None, true));
    var r2 := session.FingerprintLogin();
    responses := [r0, r1, r2];
    last := session.State();
  }

  /**
   * The public flow: selection is not public until the RFID page has been
   * visited; after that a posted locker waits for the tap, the tap opens it,
   * and opening again shows no locker.
   */
  method PublicFlow() returns (responses: seq<Response>, last: Flags)
    ensures responses == [
      Render(IndexPage),
      Render(SelectLockerPage(Lockers, false)),
      Render(SelectLockerPage(Lockers, false)),
      Render(RfidPage(None)),
      Redirect(RfidLogin, None),
      Redirect(OpenLocker, None),
      Render(OpenLockerPage(Some("3"))),
      Render(OpenLockerPage(None))]
    ensures last == Cleared
  {
    var session := new Session();
    var r0 := session.Home();
    var r1 := session.SelectLocker(GetRequest());
    var r2 := session.SelectLocker(PostLocker("3"));
    var r3 := session.RfidLogin(GetRequest());
    var r4 := session.SelectLocker(PostLocker("3"));
    var r5 := session.RfidLogin(Request(Post, None, None, None, None));
    var r6 := session.OpenLocker();
    var r7 := session.OpenLocker();
    responses := [r0, r1, r2, r3, r4, r5, r6, r7];
    last := session.State();
  }

  /** Tapping the card before choosing: the chosen locker then opens at once. */
  method TapFirstFlow() returns (responses: seq<Response>, last: Flags)
    ensures responses == [
      Redirect(SelectLocker, None),
      Redirect(OpenLocker, None),
      Render(OpenLockerPage(Some("5")))]
    ensures last == Cleared
  {
    var session := new Session();
    var r0 := session.RfidLogin(Request(Post, None, None, None, None));
    var r1 := session.SelectLocker(PostLocker("5"));
    var r2 := session.OpenLocker();
    responses := [r0, r1, r2];
    last := session.State();
  }
}
