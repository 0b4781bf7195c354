/**
 * Model of the display logic of `BatteryMeterView`, the status-bar battery
 * widget: which of its fourteen battery drawables the icon shows, whether the
 * percentage is drawn inside the icon or as a separate text view, the
 * change-detection guards on its setters, and the fan-out of every battery
 * reading to all fourteen drawables.
 *
 * Views and drawables are abstract records: a drawable is the record of what
 * its setters were last given, the percent view is present or absent with its
 * text and text colour, the icon view is a visibility flag and the drawable it
 * shows. `Settings.System` reads are parameters.
 */
module Battery {
  import opened Wrappers
  import opened JavaStrings

  const MODE_DEFAULT := 0
  const MODE_ON := 1
  const MODE_OFF := 2
  const MODE_ESTIMATE := 3

  const BATTERY_STYLE_PORTRAIT := 0
  const BATTERY_STYLE_CIRCLE := 1
  const BATTERY_STYLE_DOTTED_CIRCLE := 2
  const BATTERY_STYLE_FULL_CIRCLE := 3
  const BATTERY_STYLE_TEXT := 4
  const BATTERY_STYLE_HIDDEN := 5
  const BATTERY_STYLE_RLANDSCAPE := 6
  const BATTERY_STYLE_LANDSCAPE := 7
  const BATTERY_STYLE_LANDSCAPE_BUDDY := 8
  const BATTERY_STYLE_LANDSCAPE_LINE := 9
  const BATTERY_STYLE_LANDSCAPE_MUSKU := 10
  const BATTERY_STYLE_LANDSCAPE_PILL := 11
  const BATTERY_STYLE_LANDSCAPE_SIGNAL := 12
  const BATTERY_STYLE_RLANDSCAPE_STYLE_A := 13
  const BATTERY_STYLE_LANDSCAPE_STYLE_A := 14
  const BATTERY_STYLE_RLANDSCAPE_STYLE_B := 15
  const BATTERY_STYLE_LANDSCAPE_STYLE_B := 16

  const BATTERY_PERCENT_HIDDEN := 0
  const BATTERY_PERCENT_SHOW_INSIDE := 1
  const BATTERY_PERCENT_SHOW_OUTSIDE := 2

  /** The high-voltage sign with the text-presentation selector, shown before the level while charging in TEXT style. */
  const BOLT := "\U{26A1}\U{FE0E}"

  /** The fourteen battery drawables the view fans its setters out to. */
  datatype Kind =
    | Themed | RLandscape | Landscape | Circle | FullCircle
    | RLandscapeStyleA | LandscapeStyleA | RLandscapeStyleB | LandscapeStyleB
    | LandscapeBuddy | LandscapeLine | LandscapeMusku | LandscapePill | LandscapeSignal

  datatype Colors = Colors(foreground: int, background: int, singleTone: int)

  /** What a drawable was last given by each setter; `meterStyle` is only ever set on the circle drawable. */
  datatype Meter = Meter(level: int, charging: bool, powerSave: bool, showPercent: bool, colors: Colors, meterStyle: int)

  /** The setters the view calls on every drawable. */
  datatype Setter =
    | SetBatteryLevel(level: int)
    | SetCharging(charging: bool)
    | SetPowerSaveEnabled(powerSave: bool)
    | SetShowPercent(showPercent: bool)
    | SetColors(colors: Colors)

  function Apply(m: Meter, op: Setter): Meter
  {
    match op
    case SetBatteryLevel(l) => m.(level := l)
    case SetCharging(c) => m.(charging := c)
    case SetPowerSaveEnabled(p) => m.(powerSave := p)
    case SetShowPercent(b) => m.(showPercent := b)
    case SetColors(c) => m.(colors := c)
  }

  /** The same setter call on every drawable, as the view does fourteen times over. */
  function FanOut(d: map<Kind, Meter>, op: Setter): (r: map<Kind, Meter>)
    ensures r.Keys == d.Keys
  {
    map k | k in d :: Apply(d[k], op)
  }

  /** All fourteen drawables exist. */
  predicate Complete(d: map<Kind, Meter>)
  {
    forall k: Kind :: k in d
  }

  /** Fourteen drawables created alike. */
  function AllDrawables(m: Meter): (d: map<Kind, Meter>)
    ensures Complete(d) && Uniform(d)
  {
    var d := map[Themed := m, RLandscape := m, Landscape := m, Circle := m, FullCircle := m,
                 RLandscapeStyleA := m, LandscapeStyleA := m, RLandscapeStyleB := m, LandscapeStyleB := m,
                 LandscapeBuddy := m, LandscapeLine := m, LandscapeMusku := m, LandscapePill := m, LandscapeSignal := m];
    EveryKindListed(d);
    d
  }

  lemma EveryKindListed(d: map<Kind, Meter>)
    requires {Themed, RLandscape, Landscape, Circle, FullCircle, RLandscapeStyleA, LandscapeStyleA,
              RLandscapeStyleB, LandscapeStyleB, LandscapeBuddy, LandscapeLine, LandscapeMusku,
              LandscapePill, LandscapeSignal} <= d.Keys
    ensures Complete(d)
  {
    forall k: Kind ensures k in d {
      match k
      case Themed => case RLandscape => case Landscape => case Circle => case FullCircle =>
      case RLandscapeStyleA => case LandscapeStyleA => case RLandscapeStyleB => case LandscapeStyleB =>
      case LandscapeBuddy => case LandscapeLine => case LandscapeMusku => case LandscapePill => case LandscapeSignal =>
    }
  }

  /** Two drawables show the same reading (the circle's meter style aside). */
  predicate SameReading(a: Meter, b: Meter)
  {
    a.level == b.level && a.charging == b.charging && a.powerSave == b.powerSave &&
    a.showPercent == b.showPercent && a.colors == b.colors
  }

  /** The fan-out invariant: every drawable holds the same reading. */
  predicate Uniform(d: map<Kind, Meter>)
  {
    forall a, b :: a in d && b in d ==> SameReading(d[a], d[b])
  }

  /** What the icon view shows: nothing (null), one of the drawables, or the unknown-state drawable. */
  datatype Icon = NoIcon | MeterIcon(kind: Kind) | UnknownIcon

  /** The percent text view; `textColor` is `None` while it keeps the colour its layout gave it. */
  datatype TextView = TextView(text: string, textColor: Option<int>)

  /** A registered `BatteryMeterViewCallbacks`, by identity. */
  type CallbackId = int

  /** One `onHiddenBattery(hidden)` call made on a callback. */
  datatype Notice = Notice(callback: CallbackId, hidden: bool)

  /**
   * Which change check `setPercentTextAtCurrentLevel` uses: the one the
   * source has (the bare percentage and the charging flag), or the intended
   * one that compares the whole label, bolt included.
   */
  datatype Reading = AsWritten | Intended

  /** What `updateBatteryStyle` does for a style. */
  datatype StyleIcon = KeepIcon | NamedDrawable(kind: Kind) | CircleWithMeterStyle

  function StyleIconFor(style: int): StyleIcon
  {
    if style == BATTERY_STYLE_TEXT || style == BATTERY_STYLE_HIDDEN then KeepIcon
    else if style == BATTERY_STYLE_PORTRAIT then NamedDrawable(Themed)
    else if style == BATTERY_STYLE_RLANDSCAPE then NamedDrawable(RLandscape)
    else if style == BATTERY_STYLE_LANDSCAPE then NamedDrawable(Landscape)
    else if style == BATTERY_STYLE_FULL_CIRCLE then NamedDrawable(FullCircle)
    else if style == BATTERY_STYLE_RLANDSCAPE_STYLE_A then NamedDrawable(RLandscapeStyleA)
    else if style == BATTERY_STYLE_LANDSCAPE_STYLE_A then NamedDrawable(LandscapeStyleA)
    else if style == BATTERY_STYLE_RLANDSCAPE_STYLE_B then NamedDrawable(RLandscapeStyleB)
    else if style == BATTERY_STYLE_LANDSCAPE_STYLE_B then NamedDrawable(LandscapeStyleB)
    else if style == BATTERY_STYLE_LANDSCAPE_BUDDY then NamedDrawable(LandscapeBuddy)
    else if style == BATTERY_STYLE_LANDSCAPE_LINE then NamedDrawable(LandscapeLine)
    else if style == BATTERY_STYLE_LANDSCAPE_MUSKU then NamedDrawable(LandscapeMusku)
    else if style == BATTERY_STYLE_LANDSCAPE_PILL then NamedDrawable(LandscapePill)
    else if style == BATTERY_STYLE_LANDSCAPE_SIGNAL then NamedDrawable(LandscapeSignal)
    else CircleWithMeterStyle
  }

  /** The style constant whose own case selects drawable `k`; the circle drawable has none (it is the default case). */
  function NamedStyle(k: Kind): int
    requires k != Circle
  {
    match k
    case Themed => BATTERY_STYLE_PORTRAIT
    case RLandscape => BATTERY_STYLE_RLANDSCAPE
    case Landscape => BATTERY_STYLE_LANDSCAPE
    case FullCircle => BATTERY_STYLE_FULL_CIRCLE
    case RLandscapeStyleA => BATTERY_STYLE_RLANDSCAPE_STYLE_A
    case LandscapeStyleA => BATTERY_STYLE_LANDSCAPE_STYLE_A
    case RLandscapeStyleB => BATTERY_STYLE_RLANDSCAPE_STYLE_B
    case LandscapeStyleB => BATTERY_STYLE_LANDSCAPE_STYLE_B
    case LandscapeBuddy => BATTERY_STYLE_LANDSCAPE_BUDDY
    case LandscapeLine => BATTERY_STYLE_LANDSCAPE_LINE
    case LandscapeMusku => BATTERY_STYLE_LANDSCAPE_MUSKU
    case LandscapePill => BATTERY_STYLE_LANDSCAPE_PILL
    case LandscapeSignal => BATTERY_STYLE_LANDSCAPE_SIGNAL
  }

  /** The icon is GONE in the TEXT and HIDDEN styles. */
  predicate IconHidden(style: int)
  {
    style == BATTERY_STYLE_TEXT || style == BATTERY_STYLE_HIDDEN
  }

  /** `mShowBatteryPercent` as `updateSbShowBatteryPercent` sets it; `setting` is the Settings value, `None` when unset. */
  function PercentPlacement(style: int, setting: Option<int>): int
  {
    if style == BATTERY_STYLE_TEXT then BATTERY_PERCENT_SHOW_OUTSIDE
    else if style == BATTERY_STYLE_HIDDEN then BATTERY_PERCENT_HIDDEN
    else setting.GetOr(BATTERY_PERCENT_HIDDEN)
  }

  /** `drawPercentInside` of `updateShowPercent`. */
  predicate DrawPercentInside(mode: int, showBatteryPercent: int)
  {
    mode == MODE_DEFAULT && showBatteryPercent == BATTERY_PERCENT_SHOW_INSIDE
  }

  /** `drawPercentOnly` of `updateShowPercent`. */
  predicate DrawPercentOnly(mode: int, showBatteryPercent: int)
  {
    mode == MODE_ESTIMATE || mode == MODE_ON || showBatteryPercent == BATTERY_PERCENT_SHOW_OUTSIDE
  }

  /** The condition under which `updateShowPercent` shows the separate percent view. */
  predicate ShowsPercentView(style: int, mode: int, showBatteryPercent: int, isQsHeader: bool, charging: bool)
  {
    !(!isQsHeader && style == BATTERY_STYLE_HIDDEN) && DrawPercentOnly(mode, showBatteryPercent)
    && (!DrawPercentInside(mode, showBatteryPercent) || charging)
  }

  /** The locale-free rendering of `NumberFormat.getPercentInstance().format(level / 100f)`. */
  function PercentText(level: int): string
  {
    IntToDecimal(level) + "%"
  }

  /** The prefix `setPercentTextAtCurrentLevel` puts before the percentage. */
  function ChargeIndicator(charging: bool, style: int): string
  {
    if charging && style == BATTERY_STYLE_TEXT then BOLT + " " else ""
  }

  /** The text `setPercentTextAtCurrentLevel` writes into the percent view. */
  function Label(level: int, charging: bool, style: int): string
  {
    ChargeIndicator(charging, style) + PercentText(level)
  }

  /** Whether `setPercentTextAtCurrentLevel` rewrites a view showing `text`. */
  predicate TextStale(reading: Reading, text: string, pCharging: bool, level: int, charging: bool, style: int)
  {
    match reading
    case AsWritten => text != PercentText(level) || pCharging != charging
    case Intended => text != Label(level, charging, style) || pCharging != charging
  }

  /** The percent view a fresh inflation gives, tinted with the text colour when one is set. */
  function InflatedPercentView(textColor: int): TextView
  {
    TextView("", if textColor != 0 then Some(textColor) else None)
  }

  /** The `onHiddenBattery(hidden)` calls made on `callbacks`, in list order. */
  function HiddenNotices(callbacks: seq<CallbackId>, hidden: bool): (r: seq<Notice>)
    ensures |r| == |callbacks|
    ensures forall i :: 0 <= i < |r| ==> r[i] == Notice(callbacks[i], hidden)
  {
    seq(|callbacks|, i requires 0 <= i < |callbacks| => Notice(callbacks[i], hidden))
  }

  /** The position of the first occurrence of `x` in `xs`. */
  function IndexOf(xs: seq<CallbackId>, x: CallbackId): (i: nat)
    requires x in xs
    ensures i < |xs| && xs[i] == x && x !in xs[..i]
  {
    if xs[0] == x then 0
    else
      var j := IndexOf(xs[1..], x);
      assert xs[..j + 1] == [xs[0]] + xs[1..][..j];
      j + 1
  }

  /** `ArrayList.remove(Object)`: drop the first occurrence, if any. */
  function RemoveFirst(xs: seq<CallbackId>, x: CallbackId): (r: seq<CallbackId>)
    ensures x !in xs ==> r == xs
    ensures x in xs ==> r == xs[..IndexOf(xs, x)] + xs[IndexOf(xs, x) + 1..]
  {
    if xs == [] then []
    else if xs[0] == x then
      assert IndexOf(xs, x) == 0 && xs[..0] + xs[1..] == xs[1..];
      xs[1..]
    else
      var rest := RemoveFirst(xs[1..], x);
      assert xs == [xs[0]] + xs[1..];
      assert x in xs <==> x in xs[1..];
      if x in xs[1..] then
        var j := IndexOf(xs[1..], x);
        assert IndexOf(xs, x) == j + 1;
        HeadSplit(xs, j);
        assert [xs[0]] + rest == ([xs[0]] + xs[1..][..j]) + xs[1..][j + 1..];
        [xs[0]] + rest
      else
        [xs[0]] + rest
  }

  /** Cutting `xs` around position `j + 1` is cutting its tail around `j`, behind the head. */
  lemma HeadSplit(xs: seq<CallbackId>, j: nat)
    requires j + 1 < |xs|
    ensures xs[..j + 1] == [xs[0]] + xs[1..][..j]
    ensures xs[j + 2..] == xs[1..][j + 1..]
  {
  }

  /**
   * Every field of the view that its display logic reads or writes. The
   * transition functions below are the operations of the view, each on this
   * value; `callbacks` is the `mCallbacks` list and `notices` the record of
   * the `onHiddenBattery` calls made on it.
   */
  datatype ViewState = ViewState(
    reading: Reading,
    style: int,
    percentMode: int,
    showBatteryPercent: int,
    level: int,
    charging: bool,
    pCharging: bool,
    isQsHeader: bool,
    stateUnknown: bool,
    textColor: int,
    percentView: Option<TextView>,
    iconVisible: bool,
    icon: Icon,
    unknownTint: Option<int>,
    drawables: map<Kind, Meter>,
    hasEstimateFetcher: bool,
    callbacks: seq<CallbackId>,
    notices: seq<Notice>)
  {
    /** `updateBatteryStyle`. */
    function UpdateBatteryStyle(): ViewState
      requires Complete(drawables)
    {
      match StyleIconFor(style)
      case KeepIcon => this
      case NamedDrawable(k) => this.(icon := MeterIcon(k))
      case CircleWithMeterStyle =>
        this.(drawables := drawables[Circle := drawables[Circle].(meterStyle := style)], icon := MeterIcon(Circle))
    }

    /** `updateVisibility` (the rescaling of the icon is not modelled). */
    function UpdateVisibility(): ViewState
    {
      if IconHidden(style) then this.(iconVisible := false, icon := NoIcon)
      else this.(iconVisible := true)
    }

    /** `setPercentTextAtCurrentLevel`. */
    function SetPercentTextAtCurrentLevel(): ViewState
    {
      match percentView
      case None => this
      case Some(v) =>
        if TextStale(reading, v.text, pCharging, level, charging, style) then
          this.(pCharging := charging, percentView := Some(v.(text := Label(level, charging, style))))
        else this
    }

    /** `updatePercentText`; the result of an asynchronous estimate fetch is not modelled. */
    function UpdatePercentText(): ViewState
    {
      if stateUnknown then this
      else if !hasEstimateFetcher then SetPercentTextAtCurrentLevel()
      else if percentView.Some? && !(percentMode == MODE_ESTIMATE && !charging) then SetPercentTextAtCurrentLevel()
      else this
    }

    /** The first part of `updateShowPercent`: where the percentage goes. */
    function LayOutPercent(): ViewState
    {
      if ShowsPercentView(style, percentMode, showBatteryPercent, isQsHeader, charging) then
        this.(drawables := FanOut(drawables, SetShowPercent(false)),
              percentView := if percentView.Some? then percentView else Some(InflatedPercentView(textColor)))
      else
        this.(percentView := None, drawables := FanOut(drawables, SetShowPercent(DrawPercentInside(percentMode, showBatteryPercent))))
    }

    /** `updateShowPercent`. */
    function UpdateShowPercent(): ViewState
    {
      LayOutPercent().UpdatePercentText()
    }

    /** The loop of `updateSbBatteryStyle`: every callback is told whether the battery is hidden. */
    function NotifyHidden(): ViewState
    {
      this.(notices := notices + HiddenNotices(callbacks, style == BATTERY_STYLE_HIDDEN))
    }

    /** `setBatteryStyle`. */
    function SetBatteryStyle(newStyle: int): ViewState
      requires Complete(drawables)
    {
      if newStyle == style then this
      else this.(style := newStyle).UpdateBatteryStyle().UpdateShowPercent()
    }

    /** `setPercentShowMode`. */
    function SetPercentShowMode(mode: int): ViewState
    {
      if mode == percentMode then this
      else this.(percentMode := mode).UpdateShowPercent().UpdatePercentText()
    }

    /** `updateSbBatteryStyle`; `setting` is `STATUS_BAR_BATTERY_STYLE`. */
    function UpdateSbBatteryStyle(setting: Option<int>): ViewState
      requires Complete(drawables)
    {
      this.(style := setting.GetOr(BATTERY_STYLE_PORTRAIT)).UpdateBatteryStyle().UpdateVisibility().NotifyHidden()
    }

    /** `updateSbShowBatteryPercent`; `setting` is `STATUS_BAR_SHOW_BATTERY_PERCENT`. */
    function UpdateSbShowBatteryPercent(setting: Option<int>): ViewState
    {
      this.(showBatteryPercent := PercentPlacement(style, setting)).UpdateShowPercent()
    }

    /** `onBatteryLevelChanged`. */
    function OnBatteryLevelChanged(newLevel: int, pluggedIn: bool): ViewState
    {
      var s := if level != newLevel then this.(level := newLevel, drawables := FanOut(drawables, SetBatteryLevel(newLevel)))
               else this;
      if s.charging != pluggedIn then
        s.(charging := pluggedIn, drawables := FanOut(s.drawables, SetCharging(pluggedIn))).UpdateShowPercent()
      else s.UpdatePercentText()
    }

    /** `onPowerSaveChanged`. */
    function OnPowerSaveChanged(isPowerSave: bool): ViewState
    {
      this.(drawables := FanOut(drawables, SetPowerSaveEnabled(isPowerSave))).UpdateShowPercent()
    }

    /** `onBatteryUnknownStateChanged`. */
    function OnBatteryUnknownStateChanged(isUnknown: bool): ViewState
      requires Complete(drawables)
    {
      if stateUnknown == isUnknown then this
      else
        var s := this.(stateUnknown := isUnknown);
        var shown :=
          if isUnknown then s.ShowUnknownIcon() else s.UpdateBatteryStyle();
        shown.UpdateShowPercent()
    }

    /** The icon view shows the unknown-state drawable, created tinted with the text colour on first use. */
    function ShowUnknownIcon(): ViewState
    {
      this.(icon := UnknownIcon, unknownTint := if unknownTint.None? then Some(textColor) else unknownTint)
    }

    /** `updateColors`. */
    function UpdateColors(foreground: int, background: int, singleTone: int): ViewState
    {
      this.(drawables := FanOut(drawables, SetColors(Colors(foreground, background, singleTone))),
            textColor := singleTone,
            percentView := if percentView.Some? then Some(percentView.value.(textColor := Some(singleTone))) else None,
            unknownTint := if unknownTint.Some? then Some(singleTone) else None)
    }
  }

  /** The view's field defaults, plus the drawables and the themed icon the constructor creates first. */
  function FreshState(reading: Reading, initial: Meter): ViewState
  {
    ViewState(
      reading := reading, style := BATTERY_STYLE_PORTRAIT, percentMode := MODE_DEFAULT, showBatteryPercent := BATTERY_PERCENT_HIDDEN,
      level := 0, charging := false, pCharging := false, isQsHeader := false, stateUnknown := false,
      textColor := 0, percentView := None, iconVisible := true, icon := MeterIcon(Themed), unknownTint := None,
      drawables := AllDrawables(initial), hasEstimateFetcher := false, callbacks := [], notices := [])
  }

  /** The view, its fields updated in place by its methods. */
  class BatteryMeterView {
    const reading: Reading
    var batteryStyle: int
    var showPercentMode: int
    var showBatteryPercent: int
    var level: int
    var charging: bool
    /** The charging state the percent text was last rendered for; used but not declared in the view's source. */
    var pCharging: bool
    var isQsHeader: bool
    var batteryStateUnknown: bool
    var textColor: int
    var batteryPercentView: Option<TextView>
    var iconVisible: bool
    var iconDrawable: Icon
    var unknownStateTint: Option<int>
    var drawables: map<Kind, Meter>
    var hasEstimateFetcher: bool
    var callbacks: seq<CallbackId>
    var hiddenNotices: seq<Notice>

    ghost predicate Valid()
      reads this
    {
      Complete(drawables) && Uniform(drawables)
    }

    ghost function State(): ViewState
      reads this
    {
      ViewState(reading, batteryStyle, showPercentMode, showBatteryPercent, level, charging, pCharging, isQsHeader,
                batteryStateUnknown, textColor, batteryPercentView, iconVisible, iconDrawable, unknownStateTint,
                drawables, hasEstimateFetcher, callbacks, hiddenNotices)
    }

    /**
     * The constructor: the icon starts on the themed drawable, then
     * `updateShowPercent` and the initial `onDarkChanged`, whose colours (the
     * dual-tone handler's at zero intensity) are the last three parameters.
     * `initial` is what every drawable holds when created.
     */
    constructor (reading: Reading, initial: Meter, foreground: int, background: int, singleTone: int)
      ensures Valid()
      ensures State() == FreshState(reading, initial).UpdateShowPercent().UpdateColors(foreground, background, singleTone)
    {
      this.reading := reading;
      batteryStyle, showPercentMode, showBatteryPercent := BATTERY_STYLE_PORTRAIT, MODE_DEFAULT, BATTERY_PERCENT_HIDDEN;
      level, charging, pCharging, isQsHeader, batteryStateUnknown := 0, false, false, false, false;
      textColor, batteryPercentView := 0, None;
      iconVisible, iconDrawable, unknownStateTint := true, MeterIcon(Themed), None;
      drawables := AllDrawables(initial);
      hasEstimateFetcher, callbacks, hiddenNotices := false, [], [];
      new;
      UpdateShowPercent();
      UpdateColors(foreground, background, singleTone);
    }

    method SetBatteryStyle(style: int)
      requires Valid()
      modifies this
      ensures Valid()
      ensures State() == old(State()).SetBatteryStyle(style)
    {
      if style == batteryStyle {
        return;
      }
      batteryStyle := style;
      UpdateBatteryStyle();
      UpdateShowPercent();
    }

    method SetForceShowPercent(show: bool)
      requires Valid()
      modifies this
      ensures Valid()
      ensures State() == old(State()).SetPercentShowMode(if show then MODE_ON else MODE_DEFAULT)
    {
      SetPercentShowMode(if show then MODE_ON else MODE_DEFAULT);
    }

    method SetPercentShowMode(mode: int)
      requires Valid()
      modifies this
      ensures Valid()
      ensures State() == old(State()).SetPercentShowMode(mode)
    {
      if mode == showPercentMode {
        return;
      }
      showPercentMode := mode;
      UpdateShowPercent();
      UpdatePercentText();
    }

    /** `updateSettings`: the battery style first, then the percent placement. */
    method UpdateSettings(styleSetting: Option<int>, percentSetting: Option<int>)
      requires Valid()
      modifies this
      ensures Valid()
      ensures State() == old(State()).UpdateSbBatteryStyle(styleSetting).UpdateSbShowBatteryPercent(percentSetting)
    {
      UpdateSbBatteryStyle(styleSetting);
      UpdateSbShowBatteryPercent(percentSetting);
    }

    method UpdateSbBatteryStyle(setting: Option<int>)
      requires Valid()
      modifies this
      ensures Valid()
      ensures State() == old(State()).UpdateSbBatteryStyle(setting)
    {
      batteryStyle := setting.GetOr(BATTERY_STYLE_PORTRAIT);
      UpdateBatteryStyle();
      UpdateVisibility();
      NotifyHidden();
    }

    method NotifyHidden()
      requires Valid()
      modifies this
      ensures Valid()
      ensures State() == old(State()).NotifyHidden()
    {
      var hidden := batteryStyle == BATTERY_STYLE_HIDDEN;
      var i := 0;
      while i < |callbacks|
        invariant 0 <= i <= |callbacks|
        invariant State() == old(State()).(notices := old(hiddenNotices) + HiddenNotices(callbacks[..i], hidden))
      {
        assert HiddenNotices(callbacks[..i + 1], hidden) == HiddenNotices(callbacks[..i], hidden) + [Notice(callbacks[i], hidden)];
        hiddenNotices := hiddenNotices + [Notice(callbacks[i], hidden)];
        i := i + 1;
      }
      assert callbacks[..i] == callbacks;
    }

    method UpdateSbShowBatteryPercent(setting: Option<int>)
      requires Valid()
      modifies this
      ensures Valid()
      ensures State() == old(State()).UpdateSbShowBatteryPercent(setting)
    {
      if batteryStyle == BATTERY_STYLE_TEXT {
        showBatteryPercent := BATTERY_PERCENT_SHOW_OUTSIDE;
      } else if batteryStyle == BATTERY_STYLE_HIDDEN {
        showBatteryPercent := BATTERY_PERCENT_HIDDEN;
      } else {
        showBatteryPercent := setting.GetOr(BATTERY_PERCENT_HIDDEN);
      }
      UpdatePercentView();
    }

    method OnBatteryLevelChanged(newLevel: int, pluggedIn: bool)
      requires Valid()
      modifies this
      ensures Valid()
      ensures State() == old(State()).OnBatteryLevelChanged(newLevel, pluggedIn)
    {
      if level != newLevel {
        level := newLevel;
        drawables := FanOut(drawables, SetBatteryLevel(level));
        FanOutKeepsUniform(old(drawables), SetBatteryLevel(level));
      }
      if charging != pluggedIn {
        charging := pluggedIn;
        FanOutKeepsUniform(drawables, SetCharging(charging));
        drawables := FanOut(drawables, SetCharging(charging));
        UpdateShowPercent();
      } else {
        UpdatePercentText();
      }
    }

    method OnPowerSaveChanged(isPowerSave: bool)
      requires Valid()
      modifies this
      ensures Valid()
      ensures State() == old(State()).OnPowerSaveChanged(isPowerSave)
    {
      FanOutKeepsUniform(drawables, SetPowerSaveEnabled(isPowerSave));
      drawables := FanOut(drawables, SetPowerSaveEnabled(isPowerSave));
      UpdateShowPercent();
    }

    /** `updatePercentView`: only re-runs `updateShowPercent`. */
    method UpdatePercentView()
      requires Valid()
      modifies this
      ensures Valid()
      ensures State() == old(State()).UpdateShowPercent()
    {
      UpdateShowPercent();
    }

    method SetBatteryEstimateFetcher(present: bool)
      modifies this
      ensures State() == old(State()).(hasEstimateFetcher := present)
    {
      hasEstimateFetcher := present;
    }

    method UpdatePercentText()
      requires Valid()
      modifies this
      ensures Valid()
      ensures State() == old(State()).UpdatePercentText()
    {
      if batteryStateUnknown {
        return;
      }
      if !hasEstimateFetcher {
        SetPercentTextAtCurrentLevel();
        return;
      }
      if batteryPercentView.Some? {
        if showPercentMode == MODE_ESTIMATE && !charging {
          // The estimate arrives later, through a callback that is not modelled.
        } else {
          SetPercentTextAtCurrentLevel();
        }
      }
    }

    method SetPercentTextAtCurrentLevel()
      requires Valid()
      modifies this
      ensures Valid()
      ensures State() == old(State()).SetPercentTextAtCurrentLevel()
    {
      if batteryPercentView.None? {
        return;
      }
      var percentText := PercentText(level);
      var chargeIndicator := if charging && batteryStyle == BATTERY_STYLE_TEXT then BOLT + " " else "";
      var stale := match reading
        case AsWritten => batteryPercentView.value.text != percentText || pCharging != charging
        case Intended => batteryPercentView.value.text != chargeIndicator + percentText || pCharging != charging;
      if stale {
        pCharging := charging;
        batteryPercentView := Some(batteryPercentView.value.(text := chargeIndicator + percentText));
      }
    }

    method UpdateShowPercent()
      requires Valid()
      modifies this
      ensures Valid()
      ensures State() == old(State()).UpdateShowPercent()
    {
      LayOutPercent();
      UpdatePercentText();
    }

    method LayOutPercent()
      requires Valid()
      modifies this
      ensures Valid()
      ensures State() == old(State()).LayOutPercent()
    {
      var showing := batteryPercentView.Some?;
      var drawPercentInside := showPercentMode == MODE_DEFAULT && showBatteryPercent == BATTERY_PERCENT_SHOW_INSIDE;
      var drawPercentOnly := showPercentMode == MODE_ESTIMATE || showPercentMode == MODE_ON
                             || showBatteryPercent == BATTERY_PERCENT_SHOW_OUTSIDE;
      if !(!isQsHeader && batteryStyle == BATTERY_STYLE_HIDDEN) && drawPercentOnly && (!drawPercentInside || charging) {
        FanOutKeepsUniform(drawables, SetShowPercent(false));
        drawables := FanOut(drawables, SetShowPercent(false));
        if !showing {
          batteryPercentView := Some(InflatedPercentView(textColor));
        }
      } else {
        batteryPercentView := None;
        FanOutKeepsUniform(drawables, SetShowPercent(drawPercentInside));
        drawables := FanOut(drawables, SetShowPercent(drawPercentInside));
      }
    }

    method SetIsQsHeader(isQs: bool)
      modifies this
      ensures State() == old(State()).(isQsHeader := isQs)
    {
      isQsHeader := isQs;
    }

    method UpdateVisibility()
      requires Valid()
      modifies this
      ensures Valid()
      ensures State() == old(State()).UpdateVisibility()
    {
      if batteryStyle == BATTERY_STYLE_TEXT || batteryStyle == BATTERY_STYLE_HIDDEN {
        iconVisible := false;
        iconDrawable := NoIcon;
      } else {
        iconVisible := true;
      }
    }

    method OnBatteryUnknownStateChanged(isUnknown: bool)
      requires Valid()
      modifies this
      ensures Valid()
      ensures State() == old(State()).OnBatteryUnknownStateChanged(isUnknown)
    {
      if batteryStateUnknown == isUnknown {
        return;
      }
      batteryStateUnknown := isUnknown;
      if batteryStateUnknown {
        ShowUnknownIcon();
      } else {
        UpdateBatteryStyle();
      }
      UpdateShowPercent();
    }

    method ShowUnknownIcon()
      requires Valid()
      modifies this
      ensures Valid()
      ensures State() == old(State()).ShowUnknownIcon()
    {
      if unknownStateTint.None? {
        unknownStateTint := Some(textColor);
      }
      iconDrawable := UnknownIcon;
    }

    method UpdateBatteryStyle()
      requires Valid()
      modifies this
      ensures Valid()
      ensures State() == old(State()).UpdateBatteryStyle()
    {
      if batteryStyle == BATTERY_STYLE_TEXT || batteryStyle == BATTERY_STYLE_HIDDEN {
      } else if batteryStyle == BATTERY_STYLE_PORTRAIT {
        iconDrawable := MeterIcon(Themed);
      } else if batteryStyle == BATTERY_STYLE_RLANDSCAPE {
        iconDrawable := MeterIcon(RLandscape);
      } else if batteryStyle == BATTERY_STYLE_LANDSCAPE {
        iconDrawable := MeterIcon(Landscape);
      } else if batteryStyle == BATTERY_STYLE_FULL_CIRCLE {
        iconDrawable := MeterIcon(FullCircle);
      } else if batteryStyle == BATTERY_STYLE_RLANDSCAPE_STYLE_A {
        iconDrawable := MeterIcon(RLandscapeStyleA);
      } else if batteryStyle == BATTERY_STYLE_LANDSCAPE_STYLE_A {
        iconDrawable := MeterIcon(LandscapeStyleA);
      } else if batteryStyle == BATTERY_STYLE_RLANDSCAPE_STYLE_B {
        iconDrawable := MeterIcon(RLandscapeStyleB);
      } else if batteryStyle == BATTERY_STYLE_LANDSCAPE_STYLE_B {
        iconDrawable := MeterIcon(LandscapeStyleB);
      } else if batteryStyle == BATTERY_STYLE_LANDSCAPE_BUDDY {
        iconDrawable := MeterIcon(LandscapeBuddy);
      } else if batteryStyle == BATTERY_STYLE_LANDSCAPE_LINE {
        iconDrawable := MeterIcon(LandscapeLine);
      } else if batteryStyle == BATTERY_STYLE_LANDSCAPE_MUSKU {
        iconDrawable := MeterIcon(LandscapeMusku);
      } else if batteryStyle == BATTERY_STYLE_LANDSCAPE_PILL {
        iconDrawable := MeterIcon(LandscapePill);
      } else if batteryStyle == BATTERY_STYLE_LANDSCAPE_SIGNAL {
        iconDrawable := MeterIcon(LandscapeSignal);
      } else {
        CircleKeepsUniform(drawables, batteryStyle);
        drawables := drawables[Circle := drawables[Circle].(meterStyle := batteryStyle)];
        iconDrawable := MeterIcon(Circle);
      }
    }

    method UpdateColors(foreground: int, background: int, singleTone: int)
      requires Valid()
      modifies this
      ensures Valid()
      ensures State() == old(State()).UpdateColors(foreground, background, singleTone)
    {
      FanOutKeepsUniform(drawables, SetColors(Colors(foreground, background, singleTone)));
      drawables := FanOut(drawables, SetColors(Colors(foreground, background, singleTone)));
      textColor := singleTone;
      if batteryPercentView.Some? {
        batteryPercentView := Some(batteryPercentView.value.(textColor := Some(singleTone)));
      }
      if unknownStateTint.Some? {
        unknownStateTint := Some(singleTone);
      }
    }

    method AddCallback(callback: CallbackId)
      modifies this
      ensures State() == old(State()).(callbacks := old(callbacks) + [callback])
    {
      callbacks := callbacks + [callback];
    }

    method RemoveCallback(callback: CallbackId)
      modifies this
      ensures State() == old(State()).(callbacks := RemoveFirst(old(callbacks), callback))
    {
      callbacks := RemoveFirst(callbacks, callback);
    }
  }

  /** A fan-out keeps all fourteen drawables and leaves them agreeing with each other. */
  lemma FanOutKeepsUniform(d: map<Kind, Meter>, op: Setter)
    requires Complete(d) && Uniform(d)
    ensures Complete(FanOut(d, op)) && Uniform(FanOut(d, op))
  {
  }

  /** Setting the circle's meter style does not touch any reading. */
  lemma CircleKeepsUniform(d: map<Kind, Meter>, style: int)
    requires Complete(d) && Uniform(d)
    ensures Complete(d[Circle := d[Circle].(meterStyle := style)]) && Uniform(d[Circle := d[Circle].(meterStyle := style)])
  {
  }

  // ---------------------------------------------------------------------
  // Properties of the view's operations
  // ---------------------------------------------------------------------

  /** A style constant selects a drawable of its own exactly when it is that drawable's named style. */
  lemma StyleSelectsDrawable(style: int, k: Kind)
    ensures StyleIconFor(style) == NamedDrawable(k) <==> k != Circle && style == NamedStyle(k)
  {
  }

  /** The circle drawable serves the circle and dotted-circle styles and every value no case names. */
  lemma CircleIsTheDefault(style: int)
    ensures StyleIconFor(style) == CircleWithMeterStyle <==>
      style == BATTERY_STYLE_CIRCLE || style == BATTERY_STYLE_DOTTED_CIRCLE || style < BATTERY_STYLE_PORTRAIT ||
      style > BATTERY_STYLE_LANDSCAPE_STYLE_B
  {
  }

  /**
   * `updateBatteryStyle`: TEXT and HIDDEN leave the view alone; every other
   * style puts a drawable in the icon, the style's own or else the circle,
   * which alone takes the style as its meter style.
   */
  lemma BatteryStyleStep(s: ViewState)
    requires Complete(s.drawables) && Uniform(s.drawables)
    ensures var r := s.UpdateBatteryStyle();
      && r == s.(icon := r.icon, drawables := r.drawables)
      && Complete(r.drawables) && Uniform(r.drawables)
      && (forall k :: k != Circle ==> r.drawables[k] == s.drawables[k])
      && (IconHidden(s.style) ==> r == s)
      && (!IconHidden(s.style) ==> r.icon.MeterIcon?)
      && (!IconHidden(s.style) && r.icon == MeterIcon(Circle) ==> r.drawables[Circle].meterStyle == s.style)
      && (!IconHidden(s.style) && r.icon.MeterIcon? && r.icon.kind != Circle ==> s.style == NamedStyle(r.icon.kind))
  {
    CircleKeepsUniform(s.drawables, s.style);
    match StyleIconFor(s.style)
    case KeepIcon =>
    case NamedDrawable(k) => StyleSelectsDrawable(s.style, k);
    case CircleWithMeterStyle =>
  }

  /**
   * `updateSbBatteryStyle`: the icon is gone and cleared in the TEXT and HIDDEN
   * styles and otherwise shows the style's drawable (the circle, given the
   * style as its meter style, for every unnamed style); then every callback
   * is told, in list order, whether the battery is hidden.
   */
  lemma SbBatteryStyleShowsStyle(s: ViewState, setting: Option<int>)
    requires Complete(s.drawables) && Uniform(s.drawables)
    ensures var r := s.UpdateSbBatteryStyle(setting);
      var style := setting.GetOr(BATTERY_STYLE_PORTRAIT);
      && r.style == style
      && Complete(r.drawables) && Uniform(r.drawables)
      && (IconHidden(style) ==> !r.iconVisible && r.icon == NoIcon)
      && (!IconHidden(style) ==> r.iconVisible && r.icon.MeterIcon?)
      && (r.icon == MeterIcon(Circle) ==> r.drawables[Circle].meterStyle == style)
      && (r.icon.MeterIcon? && r.icon.kind != Circle ==> style == NamedStyle(r.icon.kind))
      && |r.notices| == |s.notices| + |s.callbacks|
      && r.notices[..|s.notices|] == s.notices
      && (forall i :: 0 <= i < |s.callbacks| ==>
            r.notices[|s.notices| + i] == Notice(s.callbacks[i], style == BATTERY_STYLE_HIDDEN))
  {
    var t := s.(style := setting.GetOr(BATTERY_STYLE_PORTRAIT));
    BatteryStyleStep(t);
    var u := t.UpdateBatteryStyle();
    var v := u.UpdateVisibility();
    assert v == u.(iconVisible := !IconHidden(t.style), icon := if IconHidden(t.style) then NoIcon else u.icon);
    assert s.UpdateSbBatteryStyle(setting) == v.NotifyHidden();
  }

  /** `updatePercentText` rewrites at most the percent view's text and the rendered charging flag. */
  lemma PercentTextFrame(s: ViewState)
    ensures var r := s.UpdatePercentText();
      && r == s.(pCharging := r.pCharging, percentView := r.percentView)
      && (r.percentView.Some? <==> s.percentView.Some?)
      && (r.percentView.Some? ==> r.percentView.value.textColor == s.percentView.value.textColor)
  {
  }

  /** The first half of the placement rule: where `updateShowPercent` puts the percentage. */
  lemma LayOutPercentRule(s: ViewState)
    ensures var r := s.LayOutPercent();
      var shows := ShowsPercentView(s.style, s.percentMode, s.showBatteryPercent, s.isQsHeader, s.charging);
      && r == s.(percentView := r.percentView, drawables := r.drawables)
      && r.drawables == FanOut(s.drawables, SetShowPercent(!shows && DrawPercentInside(s.percentMode, s.showBatteryPercent)))
      && (r.percentView.Some? <==> shows)
      && (shows && s.percentView.Some? ==> r.percentView == s.percentView)
      && (shows && s.percentView.None? ==> r.percentView == Some(InflatedPercentView(s.textColor)))
  {
  }

  /**
   * `updateShowPercent`: the separate percent view exists exactly when the
   * layout rule holds, the percentage is drawn inside the drawables only when
   * it does not, and so never in both places; besides the percent text,
   * nothing else changes.
   */
  lemma PercentPlacementRule(s: ViewState)
    ensures var r := s.UpdateShowPercent();
      var shows := ShowsPercentView(s.style, s.percentMode, s.showBatteryPercent, s.isQsHeader, s.charging);
      && r == s.(pCharging := r.pCharging, percentView := r.percentView, drawables := r.drawables)
      && r.drawables == FanOut(s.drawables, SetShowPercent(!shows && DrawPercentInside(s.percentMode, s.showBatteryPercent)))
      && (r.percentView.Some? <==> shows)
      && (shows && s.percentView.Some? ==> r.percentView.value.textColor == s.percentView.value.textColor)
      && (shows && s.percentView.None? ==> r.percentView.value.textColor == InflatedPercentView(s.textColor).textColor)
      && !(r.percentView.Some? && exists k :: k in r.drawables && r.drawables[k].showPercent)
  {
    LayOutPercentRule(s);
    PercentTextFrame(s.LayOutPercent());
  }

  /** `updateShowPercent` keeps all fourteen drawables and their agreement. */
  lemma LayoutKeepsUniform(s: ViewState)
    requires Complete(s.drawables) && Uniform(s.drawables)
    ensures Complete(s.UpdateShowPercent().drawables) && Uniform(s.UpdateShowPercent().drawables)
  {
    PercentPlacementRule(s);
    FanOutKeepsUniform(s.drawables, SetShowPercent(
      !ShowsPercentView(s.style, s.percentMode, s.showBatteryPercent, s.isQsHeader, s.charging)
      && DrawPercentInside(s.percentMode, s.showBatteryPercent)));
  }

  /** Drawing inside and drawing the text only exclude each other, so the rule's charging clause never decides. */
  lemma ChargingClauseNeverDecides(style: int, mode: int, showBatteryPercent: int, isQsHeader: bool, charging: bool)
    ensures !(DrawPercentInside(mode, showBatteryPercent) && DrawPercentOnly(mode, showBatteryPercent))
    ensures ShowsPercentView(style, mode, showBatteryPercent, isQsHeader, charging) <==>
      !(!isQsHeader && style == BATTERY_STYLE_HIDDEN) && DrawPercentOnly(mode, showBatteryPercent)
  {
  }

  /** `updateSettings` in the TEXT style: no icon, the percentage outside and in the text view only. */
  lemma TextStyleShowsOnlyText(s: ViewState, percentSetting: Option<int>)
    requires Complete(s.drawables) && Uniform(s.drawables)
    ensures var r := s.UpdateSbBatteryStyle(Some(BATTERY_STYLE_TEXT)).UpdateSbShowBatteryPercent(percentSetting);
      && !r.iconVisible && r.icon == NoIcon
      && r.showBatteryPercent == BATTERY_PERCENT_SHOW_OUTSIDE
      && r.percentView.Some?
      && (forall k :: k in r.drawables ==> !r.drawables[k].showPercent)
  {
    SbBatteryStyleShowsStyle(s, Some(BATTERY_STYLE_TEXT));
    var t := s.UpdateSbBatteryStyle(Some(BATTERY_STYLE_TEXT));
    var u := t.(showBatteryPercent := BATTERY_PERCENT_SHOW_OUTSIDE);
    PercentPlacementRule(u);
    assert t.UpdateSbShowBatteryPercent(percentSetting) == u.UpdateShowPercent();
  }

  /**
   * `updateSettings` in the HIDDEN style: no icon and no percentage in the
   * drawables; the text view only in the quick-settings header with the
   * percentage forced on or in estimate mode.
   */
  lemma HiddenStyleShowsNothingOutsideHeader(s: ViewState, percentSetting: Option<int>)
    requires Complete(s.drawables) && Uniform(s.drawables)
    ensures var r := s.UpdateSbBatteryStyle(Some(BATTERY_STYLE_HIDDEN)).UpdateSbShowBatteryPercent(percentSetting);
      && !r.iconVisible && r.icon == NoIcon
      && r.showBatteryPercent == BATTERY_PERCENT_HIDDEN
      && (r.percentView.Some? <==> s.isQsHeader && (s.percentMode == MODE_ON || s.percentMode == MODE_ESTIMATE))
      && (forall k :: k in r.drawables ==> !r.drawables[k].showPercent)
  {
    SbBatteryStyleShowsStyle(s, Some(BATTERY_STYLE_HIDDEN));
    var t := s.UpdateSbBatteryStyle(Some(BATTERY_STYLE_HIDDEN));
    var u := t.(showBatteryPercent := BATTERY_PERCENT_HIDDEN);
    PercentPlacementRule(u);
    assert t.UpdateSbShowBatteryPercent(percentSetting) == u.UpdateShowPercent();
  }

  /** `updateSettings` reads the style (default PORTRAIT), then the placement, which TEXT and HIDDEN override. */
  lemma SettingsReadInOrder(s: ViewState, styleSetting: Option<int>, percentSetting: Option<int>)
    requires Complete(s.drawables) && Uniform(s.drawables)
    ensures var r := s.UpdateSbBatteryStyle(styleSetting).UpdateSbShowBatteryPercent(percentSetting);
      && r.style == styleSetting.GetOr(BATTERY_STYLE_PORTRAIT)
      && (r.style == BATTERY_STYLE_TEXT ==> r.showBatteryPercent == BATTERY_PERCENT_SHOW_OUTSIDE)
      && (r.style == BATTERY_STYLE_HIDDEN ==> r.showBatteryPercent == BATTERY_PERCENT_HIDDEN)
      && (r.style != BATTERY_STYLE_TEXT && r.style != BATTERY_STYLE_HIDDEN ==>
            r.showBatteryPercent == percentSetting.GetOr(BATTERY_PERCENT_HIDDEN))
  {
    SbBatteryStyleShowsStyle(s, styleSetting);
    var t := s.UpdateSbBatteryStyle(styleSetting);
    var u := t.(showBatteryPercent := PercentPlacement(t.style, percentSetting));
    PercentPlacementRule(u);
    assert t.UpdateSbShowBatteryPercent(percentSetting) == u.UpdateShowPercent();
  }

  /** The drawables show the view's level and charging state. */
  predicate Synced(s: ViewState)
  {
    forall k :: k in s.drawables ==> s.drawables[k].level == s.level && s.drawables[k].charging == s.charging
  }

  /**
   * The drawables after `onBatteryLevelChanged`: each of level and plug state
   * is pushed to every drawable only when it differs from the view's own,
   * and the other readings stay.
   */
  lemma LevelChangeDrawables(s: ViewState, newLevel: int, pluggedIn: bool)
    requires Complete(s.drawables)
    ensures var r := s.OnBatteryLevelChanged(newLevel, pluggedIn);
      && r.drawables.Keys == s.drawables.Keys
      && (forall k :: r.drawables[k].level == (if newLevel != s.level then newLevel else s.drawables[k].level))
      && (forall k :: r.drawables[k].charging == (if pluggedIn != s.charging then pluggedIn else s.drawables[k].charging))
      && (forall k :: r.drawables[k].powerSave == s.drawables[k].powerSave && r.drawables[k].colors == s.drawables[k].colors)
  {
    var s1 := if s.level != newLevel then s.(level := newLevel, drawables := FanOut(s.drawables, SetBatteryLevel(newLevel)))
              else s;
    if s1.charging != pluggedIn {
      var s2 := s1.(charging := pluggedIn, drawables := FanOut(s1.drawables, SetCharging(pluggedIn)));
      LayoutKeepsReadings(s2);
      assert s.OnBatteryLevelChanged(newLevel, pluggedIn) == s2.UpdateShowPercent();
    } else {
      PercentTextFrame(s1);
      assert s.OnBatteryLevelChanged(newLevel, pluggedIn) == s1.UpdatePercentText();
    }
  }

  /** Laying out the percentage changes no drawable reading but the show-percent flag. */
  lemma LayoutKeepsReadings(s: ViewState)
    ensures var r := s.UpdateShowPercent();
      && r.level == s.level && r.charging == s.charging && r.icon == s.icon && r.stateUnknown == s.stateUnknown
      && r.drawables.Keys == s.drawables.Keys
      && forall k :: k in s.drawables ==> KeepsReadings(s.drawables[k], r.drawables[k])
  {
    PercentPlacementRule(s);
  }

  /** `b` holds the level, plug state, power save, colours and meter style of `a`. */
  predicate KeepsReadings(a: Meter, b: Meter)
  {
    b.level == a.level && b.charging == a.charging && b.powerSave == a.powerSave &&
    b.colors == a.colors && b.meterStyle == a.meterStyle
  }

  /**
   * `onBatteryLevelChanged`: the view takes the new level and plug state
   * and its drawables keep agreeing.
   */
  lemma LevelChangeFansOut(s: ViewState, newLevel: int, pluggedIn: bool)
    requires Complete(s.drawables) && Uniform(s.drawables)
    ensures var r := s.OnBatteryLevelChanged(newLevel, pluggedIn);
      && r.level == newLevel && r.charging == pluggedIn
      && Complete(r.drawables) && Uniform(r.drawables)
  {
    var s1 := if s.level != newLevel then s.(level := newLevel, drawables := FanOut(s.drawables, SetBatteryLevel(newLevel)))
              else s;
    FanOutKeepsUniform(s.drawables, SetBatteryLevel(newLevel));
    LevelChangeDrawables(s, newLevel, pluggedIn);
    if s1.charging != pluggedIn {
      var s2 := s1.(charging := pluggedIn, drawables := FanOut(s1.drawables, SetCharging(pluggedIn)));
      FanOutKeepsUniform(s1.drawables, SetCharging(pluggedIn));
      PercentPlacementRule(s2);
      LayoutKeepsUniform(s2);
      assert s.OnBatteryLevelChanged(newLevel, pluggedIn) == s2.UpdateShowPercent();
    } else {
      PercentTextFrame(s1);
      assert s.OnBatteryLevelChanged(newLevel, pluggedIn) == s1.UpdatePercentText();
    }
  }

  /** Drawables in sync with the view before a level change are in sync after it. */
  lemma LevelChangeKeepsSync(s: ViewState, newLevel: int, pluggedIn: bool)
    requires Complete(s.drawables) && Uniform(s.drawables) && Synced(s)
    ensures Synced(s.OnBatteryLevelChanged(newLevel, pluggedIn))
  {
    LevelChangeFansOut(s, newLevel, pluggedIn);
    LevelChangeDrawables(s, newLevel, pluggedIn);
  }

  /** `onPowerSaveChanged` reaches every drawable and no other reading. */
  lemma PowerSaveFansOut(s: ViewState, isPowerSave: bool)
    requires Complete(s.drawables) && Uniform(s.drawables)
    ensures var r := s.OnPowerSaveChanged(isPowerSave);
      && Complete(r.drawables) && Uniform(r.drawables)
      && (forall k :: r.drawables[k].powerSave == isPowerSave)
      && (forall k :: r.drawables[k].level == s.drawables[k].level && r.drawables[k].charging == s.drawables[k].charging)
      && (Synced(s) ==> Synced(r))
  {
    var op := SetPowerSaveEnabled(isPowerSave);
    var t := s.(drawables := FanOut(s.drawables, op));
    FanOutKeepsUniform(s.drawables, op);
    LayoutKeepsUniform(t);
    LayoutKeepsReadings(t);
    var r := t.UpdateShowPercent();
    assert s.OnPowerSaveChanged(isPowerSave) == r;
    forall k
      ensures r.drawables[k].powerSave == isPowerSave
      ensures r.drawables[k].level == s.drawables[k].level && r.drawables[k].charging == s.drawables[k].charging
    {
      assert KeepsReadings(t.drawables[k], r.drawables[k]);
    }
  }

  /** Every tint the view owns follows the single-tone colour. */
  predicate TintsFollowText(s: ViewState)
  {
    (s.unknownTint.Some? ==> s.unknownTint.value == s.textColor) &&
    (s.percentView.Some? && s.percentView.value.textColor.Some? ==> s.percentView.value.textColor.value == s.textColor)
  }

  /** `updateColors`: all drawables take the three colours; text colour, percent view and unknown drawable the single tone. */
  lemma ColorsReachEverything(s: ViewState, foreground: int, background: int, singleTone: int)
    ensures var r := s.UpdateColors(foreground, background, singleTone);
      && r.textColor == singleTone
      && r.drawables.Keys == s.drawables.Keys
      && (forall k :: k in r.drawables ==> r.drawables[k].colors == Colors(foreground, background, singleTone))
      && (r.percentView.Some? <==> s.percentView.Some?)
      && (r.percentView.Some? ==> r.percentView.value == s.percentView.value.(textColor := Some(singleTone)))
      && (r.unknownTint.Some? <==> s.unknownTint.Some?)
      && TintsFollowText(r)
  {
  }

  /** Laying out the percentage keeps the tints in step with the text colour. */
  lemma LayoutKeepsTints(s: ViewState)
    requires TintsFollowText(s)
    ensures TintsFollowText(s.UpdateShowPercent())
  {
    PercentPlacementRule(s);
  }

  /** Entering or leaving the unknown state keeps the tints in step; the unknown drawable is created with the text colour. */
  lemma UnknownStateKeepsTints(s: ViewState, isUnknown: bool)
    requires Complete(s.drawables) && Uniform(s.drawables) && TintsFollowText(s)
    ensures TintsFollowText(s.OnBatteryUnknownStateChanged(isUnknown))
  {
    if s.stateUnknown != isUnknown {
      var t := s.(stateUnknown := isUnknown);
      var u := if isUnknown then t.ShowUnknownIcon() else t.UpdateBatteryStyle();
      if !isUnknown {
        BatteryStyleStep(t);
      }
      assert TintsFollowText(u);
      LayoutKeepsTints(u);
      assert s.OnBatteryUnknownStateChanged(isUnknown) == u.UpdateShowPercent();
    }
  }

  /** Setting the style it already has is a no-op, so setting a style twice is setting it once. */
  lemma SetBatteryStyleIdempotent(s: ViewState, style: int)
    requires Complete(s.drawables) && Uniform(s.drawables)
    ensures Complete(s.SetBatteryStyle(style).drawables)
    ensures s.SetBatteryStyle(style).SetBatteryStyle(style) == s.SetBatteryStyle(style)
  {
    if style != s.style {
      var t := s.(style := style);
      BatteryStyleStep(t);
      var u := t.UpdateBatteryStyle();
      PercentPlacementRule(u);
      assert s.SetBatteryStyle(style) == u.UpdateShowPercent();
    }
  }

  /** Setting the mode it already has is a no-op, so setting a mode twice is setting it once. */
  lemma SetPercentShowModeIdempotent(s: ViewState, mode: int)
    ensures s.SetPercentShowMode(mode).SetPercentShowMode(mode) == s.SetPercentShowMode(mode)
  {
    if mode != s.percentMode {
      var t := s.(percentMode := mode);
      PercentPlacementRule(t);
      var u := t.UpdateShowPercent();
      PercentTextFrame(u);
      assert s.SetPercentShowMode(mode) == u.UpdatePercentText();
    }
  }

  /** While the state is unknown the percent text is frozen. */
  lemma UnknownStateFreezesText(s: ViewState)
    requires s.stateUnknown
    ensures s.UpdatePercentText() == s
  {
  }

  /**
   * `onBatteryUnknownStateChanged(true)`: the icon shows the unknown-state
   * drawable, which exists and is tinted, and no percent text is rewritten.
   */
  lemma EnteringUnknownState(s: ViewState)
    requires Complete(s.drawables) && !s.stateUnknown
    ensures var r := s.OnBatteryUnknownStateChanged(true);
      && r.stateUnknown && r.icon == UnknownIcon && r.unknownTint.Some?
      && (r.percentView.Some? && s.percentView.Some? ==> r.percentView.value.text == s.percentView.value.text)
      && r.OnBatteryUnknownStateChanged(true) == r
  {
    PercentPlacementRule(s.(stateUnknown := true).ShowUnknownIcon());
  }

  /**
   * `onBatteryUnknownStateChanged(false)` puts the style's drawable back in
   * the icon: its own drawable, or the circle with the style as meter style;
   * for TEXT and HIDDEN the switch breaks and the icon is left as it was.
   */
  lemma LeavingUnknownState(s: ViewState)
    requires Complete(s.drawables) && s.stateUnknown
    ensures var r := s.OnBatteryUnknownStateChanged(false);
      var pick := StyleIconFor(s.style);
      && !r.stateUnknown
      && Complete(r.drawables)
      && (pick.NamedDrawable? ==> r.icon == MeterIcon(pick.kind))
      && (pick == CircleWithMeterStyle ==> r.icon == MeterIcon(Circle) && r.drawables[Circle].meterStyle == s.style)
      && (pick == KeepIcon ==> r.icon == s.icon)
  {
    var u := s.(stateUnknown := false);
    StylePicksIcon(u);
    var t := u.UpdateBatteryStyle();
    LayoutKeepsReadings(t);
    LeaveUnknownStep(s);
    assert KeepsReadings(t.drawables[Circle], t.UpdateShowPercent().drawables[Circle]);
  }

  /** The icon `updateBatteryStyle` picks for each kind of style. */
  lemma StylePicksIcon(s: ViewState)
    requires Complete(s.drawables)
    ensures var r := s.UpdateBatteryStyle();
      var pick := StyleIconFor(s.style);
      && r.stateUnknown == s.stateUnknown
      && r.drawables.Keys == s.drawables.Keys
      && (pick.NamedDrawable? ==> r.icon == MeterIcon(pick.kind))
      && (pick == CircleWithMeterStyle ==> r.icon == MeterIcon(Circle) && r.drawables[Circle].meterStyle == s.style)
      && (pick == KeepIcon ==> r.icon == s.icon)
  {
    match StyleIconFor(s.style)
    case KeepIcon =>
    case NamedDrawable(k) =>
    case CircleWithMeterStyle =>
  }

  lemma LeaveUnknownStep(s: ViewState)
    requires Complete(s.drawables) && s.stateUnknown
    ensures s.OnBatteryUnknownStateChanged(false) == s.(stateUnknown := false).UpdateBatteryStyle().UpdateShowPercent()
  {
  }

  /** The label starts with the bolt exactly when charging in the TEXT style. */
  lemma BoltIffChargingInTextStyle(level: int, charging: bool, style: int)
    ensures var shown := Label(level, charging, style);
      (|shown| >= |BOLT| && shown[..|BOLT|] == BOLT) <==> charging && style == BATTERY_STYLE_TEXT
  {
    var shown := Label(level, charging, style);
    if !(charging && style == BATTERY_STYLE_TEXT) {
      assert shown == PercentText(level);
      assert shown[0] == IntToDecimal(level)[0];
      assert shown[0] != BOLT[0];
    } else {
      assert shown[..|BOLT|] == BOLT;
    }
  }

  /** A second refresh finds nothing to change, under either change check. */
  lemma SetPercentTextIdempotent(s: ViewState)
    ensures s.SetPercentTextAtCurrentLevel().SetPercentTextAtCurrentLevel() == s.SetPercentTextAtCurrentLevel()
  {
  }

  /**
   * As written: a charging view in the PORTRAIT style, percentage forced on
   * and showing "50%", keeps "50%" without the bolt after switching to the
   * TEXT style, because the change check ignores the prefix.
   */
  lemma AsWrittenStyleSwitchDropsBolt()
    ensures var s := ViewState(
        reading := AsWritten, style := BATTERY_STYLE_PORTRAIT, percentMode := MODE_ON,
        showBatteryPercent := BATTERY_PERCENT_HIDDEN, level := 50, charging := true, pCharging := true,
        isQsHeader := false, stateUnknown := false, textColor := 0, percentView := Some(TextView("50%", None)),
        iconVisible := true, icon := MeterIcon(Themed), unknownTint := None,
        drawables := AllDrawables(Meter(50, true, false, false, Colors(0, 0, 0), 0)),
        hasEstimateFetcher := false, callbacks := [], notices := []);
      var r := s.SetBatteryStyle(BATTERY_STYLE_TEXT);
      && r.charging && r.style == BATTERY_STYLE_TEXT
      && r.percentView == Some(TextView("50%", None))
      && r.percentView.value.text != Label(r.level, r.charging, r.style)
  {
    assert NatToDecimal(5) == "5";
    assert NatToDecimal(50) == NatToDecimal(5) + "0";
    assert PercentText(50) == "50%";
  }

  /** Intended: after a refresh the percent view always shows the label for the current level, plug state and style. */
  lemma IntendedLabelAlwaysCurrent(s: ViewState)
    requires s.reading == Intended
    ensures var r := s.SetPercentTextAtCurrentLevel();
      r.percentView.Some? ==> r.percentView.value.text == Label(s.level, s.charging, s.style)
  {
  }

  /** Intended: switching a charging view to the TEXT style with the percentage forced on shows the bolt. */
  lemma IntendedStyleSwitchShowsBolt(s: ViewState)
    requires s.reading == Intended && Complete(s.drawables)
    requires s.charging && s.style != BATTERY_STYLE_TEXT && !s.stateUnknown
    requires s.percentMode == MODE_ON
    ensures var r := s.SetBatteryStyle(BATTERY_STYLE_TEXT);
      r.percentView.Some? && |r.percentView.value.text| >= |BOLT| && r.percentView.value.text[..|BOLT|] == BOLT
  {
    var t := s.(style := BATTERY_STYLE_TEXT).UpdateBatteryStyle();
    assert t.LayOutPercent().percentView.Some?;
    BoltIffChargingInTextStyle(s.level, true, BATTERY_STYLE_TEXT);
  }

  /** `addCallback` then `removeCallback` of a callback not yet registered gives the list back. */
  lemma RemoveUndoesAdd(xs: seq<CallbackId>, c: CallbackId)
    requires c !in xs
    ensures RemoveFirst(xs + [c], c) == xs
  {
    var ys := xs + [c];
    var i := IndexOf(ys, c);
    assert i == |xs| by {
      assert forall j :: 0 <= j < |xs| ==> ys[j] == xs[j];
    }
    assert ys[..i] == xs;
  }

  /** `removeCallback` removes one registration of the callback and keeps every other. */
  lemma {:induction false} RemoveDropsOne(xs: seq<CallbackId>, c: CallbackId)
    ensures c in xs ==> multiset(RemoveFirst(xs, c)) == multiset(xs) - multiset{c}
    ensures c !in xs ==> RemoveFirst(xs, c) == xs
  {
    if c in xs {
      var i := IndexOf(xs, c);
      assert xs == xs[..i] + [c] + xs[i + 1..];
      calc {
        multiset(xs);
        multiset(xs[..i]) + multiset{c} + multiset(xs[i + 1..]);
      }
    }
  }
}
