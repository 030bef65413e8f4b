/**
 * The text handling the PIN check relies on: Python's `str.strip()` with no
 * arguments, which removes leading and trailing whitespace, and the demo PIN.
 */
module PinText {

  /** The hard-coded demo PIN of the kiosk. */
  const DemoPin: string := "1234"

  /** The code points Python's `str.isspace()` accepts, which `str.strip()` removes. */
  predicate IsSpace(c: char) {
    var n := c as int;
    (9 <= n <= 13) || (28 <= n <= 32) || n == 0x85 || n == 0xA0 || n == 0x1680
    || (0x2000 <= n <= 0x200A) || n == 0x2028 || n == 0x2029 || n == 0x202F
    || n == 0x205F || n == 0x3000
  }

  predicate AllSpace(s: string) {
    forall k :: 0 <= k < |s| ==> IsSpace(s[k])
  }

  /** `s` with its leading whitespace removed. */
  function TrimStart(s: string): (r: string)
    ensures |r| <= |s| && r == s[|s| - |r|..]
    ensures AllSpace(s[..|s| - |r|])
    ensures r != [] ==> !IsSpace(r[0])
  {
    if s == [] || !IsSpace(s[0]) then s else TrimStart(s[1..])
  }

  /** `s` with its trailing whitespace removed. */
  function TrimEnd(s: string): (r: string)
    ensures |r| <= |s| && r == s[..|r|]
    ensures AllSpace(s[|r|..])
    ensures r != [] ==> !IsSpace(r[|r| - 1])
  {
    if s == [] || !IsSpace(s[|s| - 1]) then s else TrimEnd(s[..|s| - 1])
  }

  /** Python's `s.strip()`. */
  function Strip(s: string): string {
    TrimEnd(TrimStart(s))
  }

  /**
   * Strip leaves no whitespace at either end, never lengthens its input, and
   * gives the empty string exactly for an all-whitespace input.
   */
  lemma StripTrimsBothEnds(s: string)
    ensures |Strip(s)| <= |s|
    ensures Strip(s) != [] ==> !IsSpace(Strip(s)[0]) && !IsSpace(Strip(s)[|Strip(s)| - 1])
    ensures Strip(s) == [] <==> AllSpace(s)
  {
  }

  /** Leading whitespace in front of a text that starts with a non-space is exactly what TrimStart drops. */
  lemma {:induction false} TrimStartPadded(ws: string, t: string)
    requires AllSpace(ws)
    requires t != [] ==> !IsSpace(t[0])
    ensures TrimStart(ws + t) == t
  {
    if ws == [] {
      assert ws + t == t;
    } else {
      assert (ws + t)[0] == ws[0];
      assert (ws + t)[1..] == ws[1..] + t;
      TrimStartPadded(ws[1..], t);
    }
  }

  /** Trailing whitespace behind a text that ends with a non-space is exactly what TrimEnd drops. */
  lemma {:induction false} TrimEndPadded(t: string, ws: string)
    requires AllSpace(ws)
    requires t != [] ==> !IsSpace(t[|t| - 1])
    ensures TrimEnd(t + ws) == t
  {
    if ws == [] {
      assert t + ws == t;
    } else {
      var s := t + ws;
      assert s[|s| - 1] == ws[|ws| - 1];
      assert s[..|s| - 1] == t + ws[..|ws| - 1];
      TrimEndPadded(t, ws[..|ws| - 1]);
    }
  }

  /** `p` is the demo PIN at offset `i`, with only whitespace before and after it. */
  predicate PaddedPin(p: string, i: int) {
    0 <= i <= |p| - |DemoPin| && p[i..i + |DemoPin|] == DemoPin
    && AllSpace(p[..i]) && AllSpace(p[i + |DemoPin|..])
  }

  /** Whatever strips to the demo PIN is the demo PIN padded with whitespace. */
  lemma StripToPinIsPadded(p: string)
    ensures Strip(p) == DemoPin ==> PaddedPin(p, |p| - |TrimStart(p)|)
  {
  }

  /** The demo PIN padded with whitespace strips to the demo PIN. */
  lemma PaddedPinStrips(p: string, i: int)
    requires PaddedPin(p, i)
    ensures Strip(p) == DemoPin
  {
    var ws1, ws2 := p[..i], p[i + |DemoPin|..];
    assert p == ws1 + (DemoPin + ws2);
    TrimStartPadded(ws1, DemoPin + ws2);
    TrimEndPadded(DemoPin, ws2);
  }

  /**
   * The PIN check accepts exactly the demo PIN surrounded by any amount of
   * whitespace on either side.
   */
  lemma StripMatchesPin(p: string)
    ensures Strip(p) == DemoPin <==> exists i :: PaddedPin(p, i)
  {
    if Strip(p) == DemoPin {
      StripToPinIsPadded(p);
    }
    if i :| PaddedPin(p, i) {
      PaddedPinStrips(p, i);
    }
  }
}
