/** The heads-up display: the km/s readout's `formatNumber` and the show
    and hide logic of the three panels and their buttons. */
module Hud {
  import Camera

  // ---------------------------------------------------------------------
  // formatNumber

  const SpeedOfLightKmPerSecond: int := 299792

  /** `Math.round`: the nearest integer, halves rounded up. */
  function Round(x: real): (n: int)
    ensures n as real - 0.5 <= x < n as real + 0.5
  {
    (x + 0.5).Floor
  }

  function DigitChar(d: nat): char
    requires d < 10
  {
    ('0' as int + d) as char
  }

  predicate IsDigit(c: char) {
    '0' <= c <= '9'
  }

  /** The decimal digits of n without leading zeros, "0" for zero. */
  function Digits(n: nat): (s: string)
    ensures |s| >= 1
    ensures forall i :: 0 <= i < |s| ==> IsDigit(s[i])
  {
    if n < 10 then [DigitChar(n)] else Digits(n / 10) + [DigitChar(n % 10)]
  }

  /** Digits(n) is n's decimal form: its value is n, and it starts with a
      zero only for n = 0, so it is the shortest such string. */
  lemma {:induction false} DigitsDenote(n: nat)
    ensures forall i :: 0 <= i < |Digits(n)| ==> Camera.IsDigit(Digits(n)[i])
    ensures Camera.DecimalValue(Digits(n)) == n
    ensures Digits(n)[0] == '0' <==> n == 0
  {
    var s := Digits(n);
    if n >= 10 {
      DigitsDenote(n / 10);
      var t := Digits(n / 10);
      assert s[..|s| - 1] == t;
      assert s[0] == t[0];
    }
  }

  /** `Number.prototype.toString` on an integer. */
  function IntegerString(n: int): string {
    if n < 0 then "-" + Digits(-n) else Digits(n)
  }

  /** The replacement `/\B(?=(\d{3})+(?!\d))/g` over a run of digits: a
      comma goes before every digit but the first whose distance from the
      end is a multiple of three. */
  function InsertCommas(d: string): string {
    if |d| <= 1 then d
    else [d[0]] + (if (|d| - 1) % 3 == 0 then [','] else []) + InsertCommas(d[1..])
  }

  /** `formatNumber`: round, print, group. A minus sign is not part of the
      digit run, so no comma ever follows it. */
  function FormatNumber(value: real): string {
    var n := Round(value);
    if n < 0 then "-" + InsertCommas(Digits(-n)) else InsertCommas(Digits(n))
  }

  /** The usual reading of the grouping: split off three digits at a time
      from the right. */
  function GroupFromRight(d: string): string
    decreases |d|
  {
    if |d| <= 3 then d else GroupFromRight(d[..|d| - 3]) + "," + d[|d| - 3..]
  }

  lemma {:induction false} CommasPrepend(c: char, d: string)
    requires |d| >= 1
    ensures InsertCommas([c] + d) == [c] + (if |d| % 3 == 0 then [','] else []) + InsertCommas(d)
  {
    assert ([c] + d)[1..] == d;
  }

  /** Inserting from the left agrees with grouping from the right. */
  lemma {:induction false} CommasGroupFromRight(d: string)
    ensures InsertCommas(d) == GroupFromRight(d)
    decreases |d|
  {
    if |d| > 3 {
      var n := |d| - 3;
      var head, tail := d[..n], d[n..];
      assert d == head + tail;
      CommasAppend(head, tail);
      CommasGroupFromRight(head);
    } else if |d| > 1 {
      assert (|d| - 1) % 3 != 0;
      CommasGroupFromRight(d[1..]);
    }
  }

  /** Appending three digits appends one group. */
  lemma {:induction false} CommasAppend(head: string, tail: string)
    requires |head| >= 1 && |tail| == 3
    ensures InsertCommas(head + tail) == InsertCommas(head) + "," + tail
    decreases |head|
  {
    var d := head + tail;
    if |head| == 1 {
      assert (|d| - 1) % 3 == 0;
      assert d[1..] == tail;
      assert InsertCommas(tail) == [tail[0]] + InsertCommas(tail[1..]);
      assert InsertCommas(tail[1..]) == [tail[1]] + InsertCommas(tail[2..]);
      assert tail == [tail[0]] + ([tail[1]] + tail[2..]);
    } else {
      assert d[1..] == head[1..] + tail;
      CommasAppend(head[1..], tail);
      var sep: string := if (|head| - 1) % 3 == 0 then [','] else [];
      ModThree(|head| - 1);
      assert InsertCommas(d) == [d[0]] + sep + (InsertCommas(head[1..]) + "," + tail);
      assert InsertCommas(head) == [head[0]] + sep + InsertCommas(head[1..]);
    }
  }

  lemma ModThree(k: int)
    ensures (k + 3) % 3 == k % 3
  {
  }

  /** Drop the commas. */
  function StripCommas(s: string): (r: string)
    ensures |r| <= |s|
  {
    if |s| == 0 then [] else (if s[0] == ',' then [] else [s[0]]) + StripCommas(s[1..])
  }

  lemma {:induction false} StripAppend(a: string, b: string)
    ensures StripCommas(a + b) == StripCommas(a) + StripCommas(b)
    decreases |a|
  {
    if |a| > 0 {
      assert (a + b)[1..] == a[1..] + b;
      StripAppend(a[1..], b);
    } else {
      assert a + b == b;
    }
  }

  /** The commas are separators only: removing them gives the digits back. */
  lemma {:induction false} CommasRoundTrip(d: string)
    requires forall i :: 0 <= i < |d| ==> IsDigit(d[i])
    ensures StripCommas(InsertCommas(d)) == d
    decreases |d|
  {
    if |d| > 1 {
      var sep: string := if (|d| - 1) % 3 == 0 then [','] else [];
      assert StripCommas(sep) == [] by {
        if |sep| == 1 {
          assert sep[1..] == [];
        }
      }
      assert StripCommas([d[0]]) == [d[0]] by {
        assert [d[0]][1..] == [];
      }
      StripAppend([d[0]] + sep, InsertCommas(d[1..]));
      StripAppend([d[0]], sep);
      CommasRoundTrip(d[1..]);
      assert [d[0]] + d[1..] == d;
    } else if |d| == 1 {
      assert d[1..] == [];
    }
  }

  /** No two commas touch and neither end is a comma. */
  lemma {:induction false} CommasSeparate(d: string)
    requires forall i :: 0 <= i < |d| ==> IsDigit(d[i])
    ensures var r := InsertCommas(d);
      (|r| > 0 ==> IsDigit(r[0]) && IsDigit(r[|r| - 1]))
      && forall i :: 0 <= i < |r| - 1 && r[i] == ',' ==> IsDigit(r[i + 1])
    decreases |d|
  {
    if |d| > 1 {
      CommasSeparate(d[1..]);
      var rest := InsertCommas(d[1..]);
      var sep: string := if (|d| - 1) % 3 == 0 then [','] else [];
      var r := [d[0]] + sep + rest;
      forall i | 0 <= i < |r| - 1 && r[i] == ','
        ensures IsDigit(r[i + 1])
      {
        if i >= |sep| + 1 {
          assert r[i] == rest[i - 1 - |sep|];
          assert r[i + 1] == rest[i - |sep|];
        } else {
          assert r[i + 1] == rest[0];
        }
      }
    }
  }

  /** At one times light speed the readout shows "299,792". */
  lemma LightSpeedReadout()
    ensures FormatNumber(1.0 * SpeedOfLightKmPerSecond as real) == "299,792"
  {
    assert Round(299792.0) == 299792;
    assert Digits(2) == "2";
    assert Digits(29) == "29";
    assert Digits(299) == "299";
    assert Digits(2997) == "2997";
    assert Digits(29979) == "29979";
    assert Digits(299792) == "299792";
    var d := "299792";
    CommasGroupFromRight(d);
    assert d[..3] == "299" && d[3..] == "792";
    assert GroupFromRight(d) == "299" + "," + "792";
  }

  // ---------------------------------------------------------------------
  // Panel toggles

  /** The `hidden` class of each of the six elements, and the master flag
      with the button's text. */
  datatype HudState = HudState(
    infoHidden: bool, controlsHidden: bool, copyrightHidden: bool,
    infoButtonHidden: bool, controlsButtonHidden: bool, copyrightButtonHidden: bool,
    hudVisible: bool, buttonText: string)

  const Shown: HudState := HudState(false, false, false, false, false, false, true, "HUD")

  /** `classList.toggle('hidden')` on one panel. */
  datatype Panel = Info | Controls | Copyright

  function PanelToggled(s: HudState, p: Panel): HudState {
    match p
    case Info => s.(infoHidden := !s.infoHidden)
    case Controls => s.(controlsHidden := !s.controlsHidden)
    case Copyright => s.(copyrightHidden := !s.copyrightHidden)
  }

  /** The master button: flip the flag, then force all six elements to
      match it and relabel the button. */
  function HudToggled(s: HudState): HudState {
    var visible := !s.hudVisible;
    var hidden := !visible;
    HudState(hidden, hidden, hidden, hidden, hidden, hidden, visible, if visible then "HUD" else "SHOW")
  }

  /** The `h` shortcut clicks the master button, whatever the case. */
  function HudKeyed(s: HudState, key: string): HudState {
    if Camera.ToLower(key) == "h" then HudToggled(s) else s
  }

  /** After the master button every element is hidden exactly when the HUD
      is off, whatever the panel buttons had done, and the button's text says what
      the next click does. */
  lemma MasterOverrides(s: HudState)
    ensures var r := HudToggled(s);
      r.hudVisible == !s.hudVisible
      && r.infoHidden == r.controlsHidden == r.copyrightHidden == !r.hudVisible
      && r.infoButtonHidden == r.controlsButtonHidden == r.copyrightButtonHidden == !r.hudVisible
      && (r.buttonText == "HUD" <==> r.hudVisible) && (r.buttonText == "SHOW" <==> !r.hudVisible)
  {
  }

  /** Hiding and showing again brings every element back, including panels
      that had been hidden by their own buttons. */
  lemma HideThenShow(s: HudState)
    requires s.hudVisible
    ensures HudToggled(HudToggled(s)) == Shown
  {
  }

  /** A panel button clicked twice changes nothing. */
  lemma PanelToggleTwice(s: HudState, p: Panel)
    ensures PanelToggled(PanelToggled(s, p), p) == s
  {
  }

  /** A panel button touches only its own panel. */
  lemma PanelToggleLocal(s: HudState, p: Panel)
    ensures PanelToggled(s, p).(infoHidden := s.infoHidden, controlsHidden := s.controlsHidden,
                                copyrightHidden := s.copyrightHidden) == s
  {
    match p
    case Info =>
    case Controls =>
    case Copyright =>
  }

  lemma ShortcutIgnoresCase(s: HudState)
    ensures HudKeyed(s, "H") == HudKeyed(s, "h") == HudToggled(s)
    ensures HudKeyed(s, "x") == s
  {
    assert Camera.ToLower("H") == "h";
    assert Camera.ToLower("h") == "h";
    assert Camera.ToLower("x")[0] == 'x';
  }

  /** The HUD's DOM state, changed in place by the click handlers. */
  class Display {
    var infoHidden: bool
    var controlsHidden: bool
    var copyrightHidden: bool
    var infoButtonHidden: bool
    var controlsButtonHidden: bool
    var copyrightButtonHidden: bool
    var hudVisible: bool
    var buttonText: string

    function State(): HudState
      reads this
    {
      HudState(infoHidden, controlsHidden, copyrightHidden, infoButtonHidden, controlsButtonHidden,
               copyrightButtonHidden, hudVisible, buttonText)
    }

    /** Every element starts shown and the button reads "HUD". */
    constructor ()
      ensures State() == Shown
    {
      infoHidden, controlsHidden, copyrightHidden := false, false, false;
      infoButtonHidden, controlsButtonHidden, copyrightButtonHidden := false, false, false;
      hudVisible, buttonText := true, "HUD";
    }

    method TogglePanel(p: Panel)
      modifies this
      ensures State() == PanelToggled(old(State()), p)
    {
      match p
      case Info => infoHidden := !infoHidden;
      case Controls => controlsHidden := !controlsHidden;
      case Copyright => copyrightHidden := !copyrightHidden;
    }

    method ToggleHud()
      modifies this
      ensures State() == HudToggled(old(State()))
    {
      hudVisible := !hudVisible;
      if hudVisible {
        infoHidden, controlsHidden, copyrightHidden := false, false, false;
        infoButtonHidden, controlsButtonHidden, copyrightButtonHidden := false, false, false;
        buttonText := "HUD";
      } else {
        infoHidden, controlsHidden, copyrightHidden := true, true, true;
        infoButtonHidden, controlsButtonHidden, copyrightButtonHidden := true, true, true;
        buttonText := "SHOW";
      }
    }

    method KeyDown(key: string)
      modifies this
      ensures State() == HudKeyed(old(State()), key)
    {
      if Camera.ToLower(key) == "h" {
        ToggleHud();
      }
    }
  }
}
