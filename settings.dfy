// The channel lists of the scope and view settings, which follow the number
// of physical channels and always end with the math channel.
module Settings {

  /** DsoSettingsScopeSpectrum: the spectrum settings of one channel. */
  datatype Spectrum = Spectrum(magnitude: real, name: string, offset: real, used: bool)

  /** DsoSettingsScopeVoltage: the voltage settings of one channel; `mode` is
    * the raw value of the union of the coupling (a real channel) and the math
    * mode (the math channel). */
  datatype Voltage = Voltage(gain: real, inverted: bool, mode: int, name: string, offset: real, trigger: real,
                             used: bool)

  /** A colour, kept as the way it was made: from RGBA or HSV components, or
    * as a lighter or darker shade of another colour by a percentage factor. */
  datatype Color =
    | Rgba(red: int, green: int, blue: int, alpha: int)
    | Hsv(hue: int, saturation: int, value: int)
    | Lighter(base: Color, factor: int)
    | Darker(base: Color, factor: int)

  /** Dso::COUPLING_DC and Dso::MathMode::ADD_CH1_CH2 as raw values. */
  const COUPLING_DC: int := 1
  const MATH_ADD_CH1_CH2: int := 0

  /** The factors QColor::lighter() and QColor::darker() use by default. */
  const LIGHTER_DEFAULT: int := 150
  const DARKER_DEFAULT: int := 200

  /** The colour of the math channel's graph. */
  const MATH_COLOR: Color := Rgba(0x7f, 0x7f, 0x7f, 0xff)

  /** The decimal digits of `n`, as QString::arg writes an unsigned number. */
  function Decimal(n: nat): (s: string)
    ensures |s| > 0 && forall i :: 0 <= i < |s| ==> '0' <= s[i] <= '9'
  {
    var digit := ['0' + (n % 10) as char];
    if n < 10 then digit else Decimal(n / 10) + digit
  }

  /** removeIfPossible: erases the elements from `start` on, but leaves the
    * last `keepAtEnd` of them when at least that many are erased. */
  function RemoveIfPossible<S>(v: seq<S>, start: nat, keepAtEnd: nat): (r: seq<S>)
    ensures |r| <= |v|
  {
    if start < |v| then
      var kept := if |v| - start >= keepAtEnd then keepAtEnd else 0;
      v[..start] + v[|v| - kept..]
    else v
  }

  /** Removing from beyond the end changes nothing. */
  lemma RemoveBeyondEnd<S>(v: seq<S>, start: nat, keepAtEnd: nat)
    requires start >= |v|
    ensures RemoveIfPossible(v, start, keepAtEnd) == v
  {
  }

  /** Keeping one at the end, what is left is the first `start` elements and
    * the last one: `start` + 1 elements in all. */
  lemma RemoveKeepsLast<S>(v: seq<S>, start: nat)
    requires start < |v|
    ensures RemoveIfPossible(v, start, 1) == v[..start] + [v[|v| - 1]]
    ensures |RemoveIfPossible(v, start, 1)| == start + 1
  {
    assert v[|v| - 1..] == [v[|v| - 1]];
  }

  /** Keeping one at the end leaves min(|v|, start + 1) elements, the last of
    * them the old last one. */
  lemma RemoveLength<S>(v: seq<S>, start: nat)
    ensures |RemoveIfPossible(v, start, 1)| == if start < |v| then start + 1 else |v|
    ensures |v| > 0 ==> Last(RemoveIfPossible(v, start, 1)) == Last(v)
  {
    if start < |v| {
      RemoveKeepsLast(v, start);
    }
  }

  /** Removing twice from the same place, keeping one, removes no more than once. */
  lemma RemoveIdempotent<S>(v: seq<S>, start: nat)
    ensures RemoveIfPossible(RemoveIfPossible(v, start, 1), start, 1) == RemoveIfPossible(v, start, 1)
  {
    if start < |v| {
      RemoveKeepsLast(v, start);
      RemoveKeepsLast(RemoveIfPossible(v, start, 1), start);
    }
  }

  /** The last element of a list. */
  function Last<S>(v: seq<S>): S
    requires |v| > 0
  {
    v[|v| - 1]
  }

  /** insert(end() - 1, x): `x` goes just before the last element. */
  function InsertBeforeLast<S>(v: seq<S>, x: S): (r: seq<S>)
    requires |v| > 0
    ensures |r| == |v| + 1 && r[..|v| - 1] == v[..|v| - 1] && r[|v| - 1] == x && Last(r) == Last(v)
  {
    v[..|v| - 1] + [x] + [v[|v| - 1]]
  }

  /** The lists setChannelCount reshapes: the scope's spectrum and voltage
    * settings and the screen and print colours of both graphs. */
  datatype Lists = Lists(spectrum: seq<Spectrum>, voltage: seq<Voltage>,
                         screenVoltage: seq<Color>, screenSpectrum: seq<Color>,
                         printVoltage: seq<Color>, printSpectrum: seq<Color>)

  /** Every list has an element. */
  predicate Filled(l: Lists)
  {
    |l.spectrum| > 0 && |l.voltage| > 0 && |l.screenVoltage| > 0 && |l.screenSpectrum| > 0 &&
    |l.printVoltage| > 0 && |l.printSpectrum| > 0
  }

  /** The math channel's spectrum and voltage settings. */
  function MathSpectrum(): Spectrum
  {
    Spectrum(20.0, "SPM", 0.0, false)
  }

  function MathVoltage(): Voltage
  {
    Voltage(1.0, false, MATH_ADD_CH1_CH2, "MATH", 0.0, 0.0, false)
  }

  /** The settings of a new channel, made while its list has `size` elements. */
  function SpectrumAt(size: nat): Spectrum
  {
    Spectrum(20.0, "SP" + Decimal(size), 0.0, false)
  }

  function VoltageAt(size: nat): Voltage
  {
    Voltage(1.0, false, COUPLING_DC, "CH" + Decimal(size), 0.0, 0.0, false)
  }

  /** The screen colour of a new channel: a hue 60 degrees on from the last channel's. */
  function HueAt(size: nat): Color
  {
    Hsv((size - 1) * 60, 0xff, 0xff)
  }

  /** The removal step: the channels from `n` on go, but the last entry
    * stays; the two spectrum colour lists are left alone. */
  function Trim(l: Lists, n: nat): Lists
  {
    l.(spectrum := RemoveIfPossible(l.spectrum, n, 1), voltage := RemoveIfPossible(l.voltage, n, 1),
       screenVoltage := RemoveIfPossible(l.screenVoltage, n, 1), printVoltage := RemoveIfPossible(l.printVoltage, n, 1))
  }

  /** Without spectrum settings the math channel is appended to every list. */
  function WithMath(l: Lists): (r: Lists)
    ensures |r.spectrum| > 0
  {
    if |l.spectrum| == 0 then
      var screenVoltage := l.screenVoltage + [MATH_COLOR];
      var printVoltage := l.printVoltage + [Last(screenVoltage)];
      Lists(l.spectrum + [MathSpectrum()], l.voltage + [MathVoltage()], screenVoltage,
            l.screenSpectrum + [Lighter(Last(screenVoltage), LIGHTER_DEFAULT)], printVoltage,
            l.printSpectrum + [Darker(Last(printVoltage), DARKER_DEFAULT)])
    else l
  }

  /** One round of the growing loop: a channel goes in before the last entry
    * of every list; its colours other than the screen voltage colour are
    * shades of the last screen voltage colour. */
  function AddChannel(l: Lists): (r: Lists)
    requires Filled(l)
    ensures Filled(r)
  {
    var screenVoltage := InsertBeforeLast(l.screenVoltage, HueAt(|l.screenVoltage|));
    Lists(InsertBeforeLast(l.spectrum, SpectrumAt(|l.spectrum|)), InsertBeforeLast(l.voltage, VoltageAt(|l.voltage|)),
          screenVoltage, InsertBeforeLast(l.screenSpectrum, Lighter(Last(screenVoltage), LIGHTER_DEFAULT)),
          InsertBeforeLast(l.printVoltage, Darker(Last(screenVoltage), 120)),
          InsertBeforeLast(l.printSpectrum, Darker(Last(screenVoltage), DARKER_DEFAULT)))
  }

  /** The growing loop: channels go in while there are at most `n` spectrum entries. */
  function AddChannels(l: Lists, n: nat): (r: Lists)
    requires |l.spectrum| <= n ==> Filled(l)
    ensures |r.spectrum| > n || r == l
    decreases n + 1 - |l.spectrum|
  {
    if |l.spectrum| <= n then AddChannels(AddChannel(l), n) else l
  }

  /** A list that was not empty is not empty after the removal step. */
  lemma TrimFilled(l: Lists, n: nat)
    ensures var t := Trim(l, n);
      (|t.spectrum| > 0 <==> |l.spectrum| > 0) && (|t.voltage| > 0 <==> |l.voltage| > 0) &&
      (|t.screenVoltage| > 0 <==> |l.screenVoltage| > 0) && (|t.printVoltage| > 0 <==> |l.printVoltage| > 0) &&
      (|t.spectrum| <= n <==> |l.spectrum| <= n)
  {
    RemoveLength(l.spectrum, n);
    RemoveLength(l.voltage, n);
    RemoveLength(l.screenVoltage, n);
    RemoveLength(l.printVoltage, n);
  }

  /** What the lists must be for setChannelCount to insert only into lists
    * that have a last element: when the spectrum list is kept and the
    * growing loop runs, every other list has an element. */
  predicate CanSetChannelCount(l: Lists, n: nat)
  {
    0 < |l.spectrum| <= n ==>
      |l.voltage| > 0 && |l.screenVoltage| > 0 && |l.screenSpectrum| > 0 && |l.printVoltage| > 0 &&
      |l.printSpectrum| > 0
  }

  /** setChannelCount(n) on the lists: remove, add the math channel if the
    * spectrum list is empty, then grow. The spectrum list ends with exactly
    * n + 1 entries, its last one the old last entry or the math channel. */
  function ChannelCountSpec(l: Lists, n: nat): (r: Lists)
    requires CanSetChannelCount(l, n)
    ensures |r.spectrum| == n + 1
    ensures Last(r.spectrum) == if |l.spectrum| == 0 then MathSpectrum() else Last(l.spectrum)
  {
    TrimFilled(l, n);
    RemoveLength(l.spectrum, n);
    var w := WithMath(Trim(l, n));
    NewSpectra(w, n);
    AddChannels(w, n)
  }

  // ---------------------------------------------------------------------------
  // The shape of the result

  /** Inserting `t` entries before the last, each made from the list's size at that point. */
  function Grow<S>(v: seq<S>, t: nat, make: nat -> S): (r: seq<S>)
    requires |v| > 0
    ensures |r| == |v| + t
    decreases t
  {
    if t == 0 then v else Grow(InsertBeforeLast(v, make(|v|)), t - 1, make)
  }

  /** After growing, the old entries but the last keep their places, the
    * entry at index k of the new ones was made at size k + 1, and the old
    * last entry is still last. */
  lemma {:induction false} GrowShape<S>(v: seq<S>, t: nat, make: nat -> S)
    requires |v| > 0
    ensures var r := Grow(v, t, make);
      (forall k :: 0 <= k < |v| - 1 ==> r[k] == v[k]) &&
      (forall k :: |v| - 1 <= k < |v| - 1 + t ==> r[k] == make(k + 1)) &&
      Last(r) == Last(v)
    decreases t
  {
    if t > 0 {
      var w := InsertBeforeLast(v, make(|v|));
      GrowShape(w, t - 1, make);
      assert forall k :: 0 <= k < |v| - 1 ==> w[k] == v[k];
    }
  }

  /** The growing loop makes the spectrum, voltage and screen voltage lists
    * grow by the same number of entries, each list's new entries made from
    * its own size. */
  lemma {:induction false} AddChannelsGrows(l: Lists, n: nat)
    requires Filled(l)
    ensures var r := AddChannels(l, n);
      var t := if |l.spectrum| <= n then n + 1 - |l.spectrum| else 0;
      r.spectrum == Grow(l.spectrum, t, SpectrumAt) && r.voltage == Grow(l.voltage, t, VoltageAt) &&
      r.screenVoltage == Grow(l.screenVoltage, t, HueAt)
    decreases n + 1 - |l.spectrum|
  {
    if |l.spectrum| <= n {
      AddChannelsGrows(AddChannel(l), n);
    }
  }

  /** The growing loop keeps the first s - 1 spectrum entries and the last,
    * and puts the new channels in between, until there are n + 1. */
  lemma NewSpectra(w: Lists, n: nat)
    requires |w.spectrum| > 0 && (|w.spectrum| <= n ==> Filled(w))
    ensures var r := AddChannels(w, n);
      var s := |w.spectrum|;
      |r.spectrum| == (if s <= n then n + 1 else s) && Last(r.spectrum) == Last(w.spectrum) &&
      (forall k :: 0 <= k < s - 1 ==> r.spectrum[k] == w.spectrum[k]) &&
      (forall k :: s - 1 <= k < n ==> r.spectrum[k] == SpectrumAt(k + 1))
  {
    if |w.spectrum| <= n {
      AddChannelsGrows(w, n);
      GrowShape(w.spectrum, n + 1 - |w.spectrum|, SpectrumAt);
    }
  }

  /** The same for a voltage list as long as the spectrum list. */
  lemma NewVoltages(w: Lists, n: nat)
    requires |w.spectrum| > 0 && (|w.spectrum| <= n ==> Filled(w)) && |w.spectrum| == |w.voltage|
    ensures var r := AddChannels(w, n);
      var s := |w.voltage|;
      |r.voltage| == (if s <= n then n + 1 else s) && Last(r.voltage) == Last(w.voltage) &&
      (forall k :: 0 <= k < s - 1 ==> r.voltage[k] == w.voltage[k]) &&
      (forall k :: s - 1 <= k < n ==> r.voltage[k] == VoltageAt(k + 1))
  {
    if |w.spectrum| <= n {
      AddChannelsGrows(w, n);
      GrowShape(w.voltage, n + 1 - |w.spectrum|, VoltageAt);
    }
  }

  /** The removal and math steps on spectrum and voltage lists of equal
    * length m: both have max(1, min(m, n + 1)) entries, and the entries below
    * min(n, m - 1) and the last one are those of `l`, or the math channel when
    * the lists were empty. */
  lemma MathLast(l: Lists, n: nat)
    requires |l.spectrum| == |l.voltage|
    ensures var w := WithMath(Trim(l, n));
      var m := |l.voltage|;
      |w.spectrum| == |w.voltage| == (if m == 0 then 1 else if n < m then n + 1 else m) &&
      Last(w.spectrum) == (if m == 0 then MathSpectrum() else Last(l.spectrum)) &&
      Last(w.voltage) == (if m == 0 then MathVoltage() else Last(l.voltage)) &&
      (forall k :: 0 <= k < |w.spectrum| - 1 ==> w.spectrum[k] == l.spectrum[k] && w.voltage[k] == l.voltage[k])
  {
    var m := |l.voltage|;
    if m == 0 {
      assert WithMath(Trim(l, n)).spectrum == [MathSpectrum()];
    } else if n < m {
      RemoveKeepsLast(l.spectrum, n);
      RemoveKeepsLast(l.voltage, n);
    } else {
      RemoveBeyondEnd(l.spectrum, n, 1);
      RemoveBeyondEnd(l.voltage, n, 1);
    }
  }

  /** setChannelCount on spectrum and voltage lists of equal length `m`:
    * both end with n + 1 entries, the math channel last (the old last entry,
    * or a new math entry when the lists were empty); the entries below
    * min(n, m - 1) are kept, and every entry from there to n is a new channel
    * whose name carries its index plus one. */
  lemma ChannelCountShape(l: Lists, n: nat)
    requires CanSetChannelCount(l, n) && |l.spectrum| == |l.voltage|
    ensures var r := ChannelCountSpec(l, n);
      var m := |l.voltage|;
      var kept := if m == 0 then 0 else if n < m - 1 then n else m - 1;
      |r.spectrum| == n + 1 && |r.voltage| == n + 1 &&
      Last(r.spectrum) == (if m == 0 then MathSpectrum() else Last(l.spectrum)) &&
      Last(r.voltage) == (if m == 0 then MathVoltage() else Last(l.voltage)) &&
      (forall k :: 0 <= k < kept ==> r.spectrum[k] == l.spectrum[k] && r.voltage[k] == l.voltage[k]) &&
      (forall k :: kept <= k < n ==>
         r.spectrum[k] == Spectrum(20.0, "SP" + Decimal(k + 1), 0.0, false) &&
         r.voltage[k] == Voltage(1.0, false, COUPLING_DC, "CH" + Decimal(k + 1), 0.0, 0.0, false))
  {
    TrimFilled(l, n);
    MathLast(l, n);
    var w := WithMath(Trim(l, n));
    var m := |l.voltage|;
    var kept := if m == 0 then 0 else if n < m - 1 then n else m - 1;
    assert kept == |w.spectrum| - 1 && |w.spectrum| <= n + 1;
    NewSpectra(w, n);
    NewVoltages(w, n);
    var r := AddChannels(w, n);
    assert r == ChannelCountSpec(l, n);
    forall k | kept <= k < n
      ensures r.spectrum[k] == Spectrum(20.0, "SP" + Decimal(k + 1), 0.0, false)
      ensures r.voltage[k] == Voltage(1.0, false, COUPLING_DC, "CH" + Decimal(k + 1), 0.0, 0.0, false)
    {
      assert r.spectrum[k] == SpectrumAt(k + 1) && r.voltage[k] == VoltageAt(k + 1);
    }
  }

  /** The growing loop on spectrum and screen colour lists of equal length `s`:
    * the screen colour of the new channel at index k has hue 60 k. */
  lemma NewHues(w: Lists, n: nat)
    requires |w.spectrum| > 0 && (|w.spectrum| <= n ==> Filled(w)) && |w.spectrum| == |w.screenVoltage|
    ensures var r := AddChannels(w, n);
      var s := |w.spectrum|;
      |r.screenVoltage| == (if s <= n then n + 1 else s) && Last(r.screenVoltage) == Last(w.screenVoltage) &&
      (forall k :: 0 <= k < s - 1 ==> r.screenVoltage[k] == w.screenVoltage[k]) &&
      (forall k :: s - 1 <= k < n ==> r.screenVoltage[k] == HueAt(k + 1))
  {
    if |w.spectrum| <= n {
      AddChannelsGrows(w, n);
      GrowShape(w.screenVoltage, n + 1 - |w.spectrum|, HueAt);
    }
  }

  /** The removal and math steps on the screen colours, as MathLast on the settings. */
  lemma MathColorLast(l: Lists, n: nat)
    requires |l.spectrum| == |l.screenVoltage|
    ensures var w := WithMath(Trim(l, n));
      var m := |l.screenVoltage|;
      |w.spectrum| == |w.screenVoltage| == (if m == 0 then 1 else if n < m then n + 1 else m) &&
      Last(w.screenVoltage) == (if m == 0 then MATH_COLOR else Last(l.screenVoltage)) &&
      (forall k :: 0 <= k < |w.screenVoltage| - 1 ==> w.screenVoltage[k] == l.screenVoltage[k])
  {
    var m := |l.screenVoltage|;
    if m == 0 {
      assert WithMath(Trim(l, n)).spectrum == [MathSpectrum()];
    } else if n < m {
      RemoveKeepsLast(l.spectrum, n);
      RemoveKeepsLast(l.screenVoltage, n);
    } else {
      RemoveBeyondEnd(l.spectrum, n, 1);
      RemoveBeyondEnd(l.screenVoltage, n, 1);
    }
  }

  /** The screen colour of a new channel at index k has hue 60 k, for a
    * spectrum and screen voltage colour list of equal length. */
  lemma ChannelCountHues(l: Lists, n: nat)
    requires CanSetChannelCount(l, n) && |l.spectrum| == |l.screenVoltage|
    ensures var r := ChannelCountSpec(l, n);
      var m := |l.screenVoltage|;
      var kept := if m == 0 then 0 else if n < m - 1 then n else m - 1;
      |r.screenVoltage| == n + 1 &&
      Last(r.screenVoltage) == (if m == 0 then MATH_COLOR else Last(l.screenVoltage)) &&
      (forall k :: 0 <= k < kept ==> r.screenVoltage[k] == l.screenVoltage[k]) &&
      (forall k :: kept <= k < n ==> r.screenVoltage[k] == Hsv(k * 60, 0xff, 0xff))
  {
    TrimFilled(l, n);
    MathColorLast(l, n);
    NewHues(WithMath(Trim(l, n)), n);
  }

  // ---------------------------------------------------------------------------
  // The settings object

  /** The part of DsoSettings that setChannelCount works on. */
  class DsoSettings {
    var physicalChannels: nat
    var spectrum: seq<Spectrum>
    var voltage: seq<Voltage>
    var screenVoltage: seq<Color>
    var screenSpectrum: seq<Color>
    var printVoltage: seq<Color>
    var printSpectrum: seq<Color>

    function ListsOf(): Lists
      reads this
    {
      Lists(spectrum, voltage, screenVoltage, screenSpectrum, printVoltage, printSpectrum)
    }

    /** The settings with the lists the stored configuration gives. */
    constructor (l: Lists)
      ensures ListsOf() == l && physicalChannels == 0
    {
      physicalChannels := 0;
      spectrum, voltage := l.spectrum, l.voltage;
      screenVoltage, screenSpectrum := l.screenVoltage, l.screenSpectrum;
      printVoltage, printSpectrum := l.printVoltage, l.printSpectrum;
    }

    /** setChannelCount: records the number of physical channels and reshapes
      * the channel lists to it. */
    method SetChannelCount(channels: nat)
      requires CanSetChannelCount(ListsOf(), channels)
      modifies this
      ensures physicalChannels == channels
      ensures ListsOf() == ChannelCountSpec(old(ListsOf()), channels)
    {
      ghost var l := ListsOf();
      TrimFilled(l, channels);
      physicalChannels := channels;

      spectrum := RemoveIfPossible(spectrum, channels, 1);
      voltage := RemoveIfPossible(voltage, channels, 1);
      screenVoltage := RemoveIfPossible(screenVoltage, channels, 1);
      printVoltage := RemoveIfPossible(printVoltage, channels, 1);
      assert ListsOf() == Trim(l, channels);

      if |spectrum| == 0 {
        AppendMath();
      }
      assert ListsOf() == WithMath(Trim(l, channels));
      ghost var target := ChannelCountSpec(l, channels);

      while |spectrum| <= channels
        invariant physicalChannels == channels
        invariant |spectrum| > 0 && (|spectrum| <= channels ==> Filled(ListsOf()))
        invariant AddChannels(ListsOf(), channels) == target
        decreases channels + 1 - |spectrum|
      {
        InsertChannel();
      }
    }

    /** The math channel goes at the end of every list. */
    method AppendMath()
      requires |spectrum| == 0
      modifies this
      ensures ListsOf() == WithMath(old(ListsOf())) && physicalChannels == old(physicalChannels)
    {
      spectrum := spectrum + [MathSpectrum()];
      voltage := voltage + [MathVoltage()];
      screenVoltage := screenVoltage + [MATH_COLOR];
      screenSpectrum := screenSpectrum + [Lighter(Last(screenVoltage), LIGHTER_DEFAULT)];
      printVoltage := printVoltage + [Last(screenVoltage)];
      printSpectrum := printSpectrum + [Darker(Last(printVoltage), DARKER_DEFAULT)];
    }

    /** A new channel goes in before the last entry of every list. */
    method InsertChannel()
      requires Filled(ListsOf())
      modifies this
      ensures ListsOf() == AddChannel(old(ListsOf())) && physicalChannels == old(physicalChannels)
    {
      spectrum := InsertBeforeLast(spectrum, SpectrumAt(|spectrum|));
      voltage := InsertBeforeLast(voltage, VoltageAt(|voltage|));
      screenVoltage := InsertBeforeLast(screenVoltage, HueAt(|screenVoltage|));
      screenSpectrum := InsertBeforeLast(screenSpectrum, Lighter(Last(screenVoltage), LIGHTER_DEFAULT));
      printVoltage := InsertBeforeLast(printVoltage, Darker(Last(screenVoltage), 120));
      printSpectrum := InsertBeforeLast(printSpectrum, Darker(Last(screenVoltage), DARKER_DEFAULT));
    }
  }
}
