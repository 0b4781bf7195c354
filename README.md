# Property spoofing hooks and the status-bar battery meter, in Dafny

This project models two pieces of an Android platform fork.

- **`PropImitationHooks`** runs when an app process starts. According to the app's package and process name, it rewrites selected static fields of `android.os.Build`:
  - the GMS attestation process gets a certified fingerprint and a marked model name, when a certified fingerprint is configured;
  - ARCore gets a stock fingerprint, when one is configured;
  - when the Google-apps toggle is on, Google Photos, the Velvet/Wallpapers apps and Turbo each get a device profile; Gboard and SetupWizard get one whatever the toggle (see Findings);
  - Netflix gets only a `MODEL`, and only when a Netflix model is configured;
  - a OnePlus profile is declared for the Dolby apps, but as written its branch can never fire (see Findings).

  A call is skipped when the package name is empty or missing, or the process name is missing. Every call past that guard first sets `TYPE = "user"` and `TAGS = "release-keys"`. The caller flags it records are later read by two predicates:
  - `hasSystemFeature` hides Pixel-only features from Google Photos, when the Google-apps toggle is on;
  - `onEngineGetCertificateChain` refuses key attestation to the Play Store and to SafetyNet code inside GMS.
- **`BatteryMeterView`** is the SystemUI battery widget. It keeps fourteen battery drawables in step:
  - every reading is fanned out to all fourteen;
  - it chooses which drawable the icon shows from the battery-style setting;
  - it decides whether the percentage is drawn inside the icon or in a separate text view (with a charging bolt in the TEXT style);
  - it tells registered callbacks whether the battery is hidden.

Files:

- `wrappers.dfy`: `Option`.
- `java_strings.dfy`: the Java library pieces the core relies on: `String.contains`, `Stream.anyMatch` and decimal rendering of integers.
- `prop_imitation_hooks.dfy`, module `PropImitation`:
  - the class `PropImitationHooks` holds the statics as fields, and its methods update them in place;
  - `SetProps` is proved against the specification function `SetPropsSpec` on the value `HookState`; `SetPropValue`, `ApplyProps` and `ApplyBranch` are proved against `Put`, `Overlay` and `BranchWrites` on the `Build` map;
  - the queries `IsCallerSafetyNet`, `OnEngineGetCertificateChain` and `HasSystemFeature` are functions of the fields with if-and-only-if contracts of their own;
  - lemmas state the properties of the override chain.
- `battery_meter_view.dfy`, module `Battery`:
  - the class `BatteryMeterView` holds the view's fields;
  - each method is proved equal to a transition function on the value `ViewState`;
  - a `Valid` invariant says all fourteen drawables exist and show the same reading;
  - lemmas state the layout, fan-out, colour, unknown-state and callback properties.

Both models carry a `Reading` switch.

- `AsWritten` is the source's behaviour.
- `Intended` corrects the defects listed under Findings.

Properties whose lemmas take the reading as a parameter hold under both readings.

## Model

| member | source | states |
|---|---|---|
| PropImitation.Put | core/java/com/android/internal/util/PropImitationHooks.java:168-178 | a reflective write changes only the named field, and only if it exists; it never adds or removes a field |
| PropImitation.Overlay | core/java/com/android/internal/util/PropImitationHooks.java:140 | applying a profile gives each existing field the profile value where the profile names it and keeps it otherwise |
| PropImitation.DolbyPackage | core/java/com/android/internal/util/PropImitationHooks.java:159 | the package test of the Dolby branch: both package names as written, either one corrected |
| PropImitation.Pixel7Condition | core/java/com/android/internal/util/PropImitationHooks.java:162 | the whole Pixel 7 Pro condition: Java's binding of `&&` over `\|\|` as written, the toggle over all three packages corrected |
| PropImitation.SelectBranch | core/java/com/android/internal/util/PropImitationHooks.java:142-165 | the if/else-if chain: the first branch, in source order, whose condition holds, or none |
| PropImitation.BranchWrites | core/java/com/android/internal/util/PropImitationHooks.java:142-165 | the writes of each branch body: GMS puts the certified fingerprint and MODEL plus U+200B, ArCore the stock fingerprint, Netflix the configured model, the others their profile |
| PropImitation.SetPropsSpec | core/java/com/android/internal/util/PropImitationHooks.java:128-166 | the whole of `setProps`: the guard returns with nothing changed; otherwise the flags from the names, TYPE/TAGS, then the writes of the selected branch |
| PropImitation.PropImitationHooks.constructor | core/java/com/android/internal/util/PropImitationHooks.java:124-126 | the three caller flags start false; the Build fields are the given ones |
| PropImitation.PropImitationHooks.SetPropValue | core/java/com/android/internal/util/PropImitationHooks.java:168-178 | the Build map becomes `Put` of the old map |
| PropImitation.PropImitationHooks.ApplyProps | core/java/com/android/internal/util/PropImitationHooks.java:140 | the forEach loop, in whatever order the map yields keys, ends with the overlay of the whole profile |
| PropImitation.PropImitationHooks.SetProps | core/java/com/android/internal/util/PropImitationHooks.java:128-166 | the new flags and fields are those of the specification of `setProps`: the guard, the flags, the TYPE/TAGS normalisation, then the chain |
| PropImitation.PropImitationHooks.ApplyBranch | core/java/com/android/internal/util/PropImitationHooks.java:142-165 | running one branch of the chain writes exactly that branch's fields |
| PropImitation.PropImitationHooks.IsCallerSafetyNet | core/java/com/android/internal/util/PropImitationHooks.java:180-183 | true exactly in the GMS unstable process with some stack frame's class name containing "DroidGuard" |
| PropImitation.PropImitationHooks.OnEngineGetCertificateChain | core/java/com/android/internal/util/PropImitationHooks.java:185-191 | throws exactly for the Play Store or for SafetyNet inside GMS |
| PropImitation.PropImitationHooks.HasSystemFeature | core/java/com/android/internal/util/PropImitationHooks.java:193-200 | never reports a feature the system does not have; reports a present feature absent exactly for Google Photos when its name contains a blacklist entry |
| PropImitation.OverlayStep | core/java/com/android/internal/util/PropImitationHooks.java:140 | applying one more profile key is one more `setPropValue` |
| PropImitation.BranchWritesFrame | core/java/com/android/internal/util/PropImitationHooks.java:142-165 | a branch adds or removes no field and leaves every field outside its own keys unchanged |
| PropImitation.NoBranchWritesTypeOrTags | core/java/com/android/internal/util/PropImitationHooks.java:52-122 | no profile and no branch names TYPE or TAGS |
| PropImitation.SkippedCallChangesNothing | core/java/com/android/internal/util/PropImitationHooks.java:132-134 | an empty or null package name, or a null process name, writes no flag and no field |
| PropImitation.SetPropsFlagsAndNormalisation | core/java/com/android/internal/util/PropImitationHooks.java:136-140 | past the guard the flags are recomputed from the names alone; TYPE is "user" and TAGS "release-keys" afterwards, whichever branch runs |
| PropImitation.SetPropsWritesOneBranch | core/java/com/android/internal/util/PropImitationHooks.java:139-165 | only TYPE, TAGS and the fields of the branch that fired may change |
| PropImitation.GmsBranchCondition | core/java/com/android/internal/util/PropImitationHooks.java:136-142 | the GMS branch fires if and only if a certified fingerprint is configured and the caller is the GMS unstable process |
| PropImitation.GmsBranchWritesFingerprintAndModel | core/java/com/android/internal/util/PropImitationHooks.java:142-145 | in that branch FINGERPRINT becomes the certified value, MODEL gets U+200B appended, and no other non-normalised field changes |
| PropImitation.OverlayFixed | core/java/com/android/internal/util/PropImitationHooks.java:140 | a profile whose values the fields already hold changes nothing |
| PropImitation.BranchWritesIdempotent | core/java/com/android/internal/util/PropImitationHooks.java:146-165 | every branch except GMS writes constants, so repeating it changes nothing |
| PropImitation.SetPropsRepeatIffNotGms | core/java/com/android/internal/util/PropImitationHooks.java:128-166 | a second `setProps` with the same names is a no-op if and only if the GMS branch did not fire (it appends a second U+200B) |
| PropImitation.UnlistedPackageOnlyNormalised | core/java/com/android/internal/util/PropImitationHooks.java:136-165 | a package none of the rules names gets all flags false and only the TYPE/TAGS normalisation |
| PropImitation.DolbyBranchUnreachable | core/java/com/android/internal/util/PropImitationHooks.java:159 | as written, the Dolby branch never fires |
| PropImitation.IntendedDolbyBranchFires | core/java/com/android/internal/util/PropImitationHooks.java:159-161 | read with `\|\|`, either Dolby package gets the Dolby profile when the toggle is on |
| PropImitation.DolbyKeysAreDotted | core/java/com/android/internal/util/PropImitationHooks.java:116-122 | every key of the Dolby profile contains a '.' |
| PropImitation.DolbyProfileWritesNoBuildField | core/java/com/android/internal/util/PropImitationHooks.java:116-122 | Build field names are Java identifiers and hold no '.', so no Dolby key is a Build field; even when the branch fires it writes nothing beyond TYPE/TAGS |
| PropImitation.GboardAndSetupWizardSpoofedRegardless | core/java/com/android/internal/util/PropImitationHooks.java:162 | as written, Gboard and SetupWizard get the Pixel 7 Pro profile whether the Google-apps toggle is on or off |
| PropImitation.TurboNeedsToggle | core/java/com/android/internal/util/PropImitationHooks.java:162 | as written, Turbo gets the Pixel 7 Pro profile if and only if the toggle is on |
| PropImitation.IntendedPixel7NeedsToggle | core/java/com/android/internal/util/PropImitationHooks.java:162-164 | corrected, each of Turbo, Gboard and SetupWizard gets the profile if and only if the toggle is on |
| PropImitation.ReadingsAgreeOffTheDefects | core/java/com/android/internal/util/PropImitationHooks.java:142-165 | outside those two conditions the original and corrected chains take the same branch |
| PropImitation.PhotosLosesBlacklistedFeatures | core/java/com/android/internal/util/PropImitationHooks.java:61-70 | for Google Photos every blacklist entry is reported absent |
| PropImitation.FeatureFilterOnlyForPhotos | core/java/com/android/internal/util/PropImitationHooks.java:193-200 | after `setProps` for any other package, `hasSystemFeature` returns its default unchanged |
| PropImitation.CertificateChainOnlyRefusedToAttestation | core/java/com/android/internal/util/PropImitationHooks.java:185-191 | after `setProps` for any caller but the Play Store and the GMS unstable process, attestation is never refused, whatever the stack |
| JavaStrings.Contains | core/java/com/android/internal/util/PropImitationHooks.java:180-183 | `String.contains`: true exactly when the needle occurs at some position |
| JavaStrings.AnyMatch | core/java/com/android/internal/util/PropImitationHooks.java:193-196 | `Stream.anyMatch`: true exactly when some element satisfies the predicate |
| Battery.AllDrawables | packages/SystemUI/src/com/android/systemui/battery/BatteryMeterView.java:168-181 | the fourteen drawables exist and are created alike |
| Battery.HiddenNotices | packages/SystemUI/src/com/android/systemui/battery/BatteryMeterView.java:284-286 | one `onHiddenBattery(hidden)` per callback, in list order |
| Battery.RemoveFirst | packages/SystemUI/src/com/android/systemui/battery/BatteryMeterView.java:813-815 | `ArrayList.remove(Object)`: the list without its first occurrence of the callback, or unchanged if it has none |
| Battery.IndexOf | packages/SystemUI/src/com/android/systemui/battery/BatteryMeterView.java:813-815 | the first position holding the callback |
| Battery.StyleIconFor | packages/SystemUI/src/com/android/systemui/battery/BatteryMeterView.java:683-732 | the switch of `updateBatteryStyle`: nothing for TEXT/HIDDEN, each style's own drawable, the circle for the rest |
| Battery.PercentPlacement | packages/SystemUI/src/com/android/systemui/battery/BatteryMeterView.java:289-305 | OUTSIDE for TEXT, HIDDEN for HIDDEN, otherwise the setting with default HIDDEN |
| Battery.ShowsPercentView | packages/SystemUI/src/com/android/systemui/battery/BatteryMeterView.java:497-504 | the condition under which `updateShowPercent` shows the text view |
| Battery.Label | packages/SystemUI/src/com/android/systemui/battery/BatteryMeterView.java:458-465 | the bolt and a space when charging in TEXT, then the percentage |
| Battery.TextStale | packages/SystemUI/src/com/android/systemui/battery/BatteryMeterView.java:454 | the change check: as written the bare percentage and the rendered charging flag; corrected the whole label |
| Battery.FreshState | packages/SystemUI/src/com/android/systemui/battery/BatteryMeterView.java:124-189 | the field defaults (style PORTRAIT, mode DEFAULT, no percent view, no callbacks), plus the fourteen drawables and the themed icon the constructor creates first |
| Battery.ViewState.UpdateBatteryStyle | packages/SystemUI/src/com/android/systemui/battery/BatteryMeterView.java:683-732 | the icon takes the drawable `StyleIconFor` selects; the circle first takes the style as meter style |
| Battery.ViewState.UpdateVisibility | packages/SystemUI/src/com/android/systemui/battery/BatteryMeterView.java:562-570 | TEXT and HIDDEN hide and clear the icon, other styles show it |
| Battery.ViewState.SetPercentTextAtCurrentLevel | packages/SystemUI/src/com/android/systemui/battery/BatteryMeterView.java:447-471 | with a percent view and a stale text, the text becomes the label and the rendered charging flag the current one |
| Battery.ViewState.UpdatePercentText | packages/SystemUI/src/com/android/systemui/battery/BatteryMeterView.java:403-445 | nothing while unknown; the level text without a fetcher; with one, the level text unless estimate mode is on while discharging |
| Battery.ViewState.LayOutPercent | packages/SystemUI/src/com/android/systemui/battery/BatteryMeterView.java:497-555 | the percentage in a text view (kept or inflated, inside flag off) or inside the drawables (view removed) |
| Battery.ViewState.UpdateShowPercent | packages/SystemUI/src/com/android/systemui/battery/BatteryMeterView.java:497-556 | layout, then the text refresh |
| Battery.ViewState.NotifyHidden | packages/SystemUI/src/com/android/systemui/battery/BatteryMeterView.java:284-286 | one notice per callback, in order, saying whether the style is HIDDEN |
| Battery.ViewState.SetBatteryStyle | packages/SystemUI/src/com/android/systemui/battery/BatteryMeterView.java:227-232 | no change for the current style; otherwise the new style, its icon and a new layout |
| Battery.ViewState.SetPercentShowMode | packages/SystemUI/src/com/android/systemui/battery/BatteryMeterView.java:247-252 | no change for the current mode; otherwise the new mode, a new layout and a text refresh |
| Battery.ViewState.UpdateSbBatteryStyle | packages/SystemUI/src/com/android/systemui/battery/BatteryMeterView.java:279-287 | the style setting (default PORTRAIT), icon, visibility, then the notices |
| Battery.ViewState.UpdateSbShowBatteryPercent | packages/SystemUI/src/com/android/systemui/battery/BatteryMeterView.java:289-305 | the placement `PercentPlacement` gives, then a new layout |
| Battery.ViewState.OnBatteryLevelChanged | packages/SystemUI/src/com/android/systemui/battery/BatteryMeterView.java:307-348 | changed level and plug state fanned out; a new layout on a plug change, otherwise a text refresh |
| Battery.ViewState.OnPowerSaveChanged | packages/SystemUI/src/com/android/systemui/battery/BatteryMeterView.java:350-366 | the flag on every drawable, then a new layout |
| Battery.ViewState.OnBatteryUnknownStateChanged | packages/SystemUI/src/com/android/systemui/battery/BatteryMeterView.java:588-603 | no change for the current value; otherwise the unknown icon or the style's icon, then a new layout |
| Battery.ViewState.ShowUnknownIcon | packages/SystemUI/src/com/android/systemui/battery/BatteryMeterView.java:579-586 | the unknown drawable in the icon, created with the text colour as tint on first use |
| Battery.ViewState.UpdateColors | packages/SystemUI/src/com/android/systemui/battery/BatteryMeterView.java:753-779 | the colours on every drawable; the single tone on the text colour, the percent view and an existing unknown drawable |
| Battery.BatteryMeterView.constructor | packages/SystemUI/src/com/android/systemui/battery/BatteryMeterView.java:158-204 | Java's field defaults and the themed icon, then `updateShowPercent` and `updateColors` with the initial colours; the drawable invariant holds |
| Battery.BatteryMeterView.SetBatteryStyle | packages/SystemUI/src/com/android/systemui/battery/BatteryMeterView.java:227-232 | returns at once for the current style; otherwise stores it, updates the icon and re-lays out the percentage |
| Battery.BatteryMeterView.SetForceShowPercent | packages/SystemUI/src/com/android/systemui/battery/BatteryMeterView.java:234-236 | the same as setting mode ON, or DEFAULT |
| Battery.BatteryMeterView.SetPercentShowMode | packages/SystemUI/src/com/android/systemui/battery/BatteryMeterView.java:247-252 | returns at once for the current mode; otherwise stores it, re-lays out and refreshes the text |
| Battery.BatteryMeterView.UpdateSettings | packages/SystemUI/src/com/android/systemui/battery/BatteryMeterView.java:274-277 | the style setting is read first, then the percentage setting |
| Battery.BatteryMeterView.UpdateSbBatteryStyle | packages/SystemUI/src/com/android/systemui/battery/BatteryMeterView.java:279-287 | the style becomes the setting (default PORTRAIT); icon and visibility follow; callbacks are told |
| Battery.BatteryMeterView.NotifyHidden | packages/SystemUI/src/com/android/systemui/battery/BatteryMeterView.java:284-286 | the loop tells every registered callback, in order, whether the style is HIDDEN |
| Battery.BatteryMeterView.UpdateSbShowBatteryPercent | packages/SystemUI/src/com/android/systemui/battery/BatteryMeterView.java:289-305 | the placement is OUTSIDE for TEXT, HIDDEN for HIDDEN, otherwise the setting (default HIDDEN); then the layout is redone |
| Battery.BatteryMeterView.OnBatteryLevelChanged | packages/SystemUI/src/com/android/systemui/battery/BatteryMeterView.java:307-348 | level and plug state go to all drawables only when changed; a plug change re-lays out, otherwise the text is refreshed |
| Battery.BatteryMeterView.OnPowerSaveChanged | packages/SystemUI/src/com/android/systemui/battery/BatteryMeterView.java:350-366 | power save goes to all drawables, then the layout is redone |
| Battery.BatteryMeterView.UpdatePercentView | packages/SystemUI/src/com/android/systemui/battery/BatteryMeterView.java:387-389 | the same as `updateShowPercent` |
| Battery.BatteryMeterView.SetBatteryEstimateFetcher | packages/SystemUI/src/com/android/systemui/battery/BatteryMeterView.java:395-397 | records whether a fetcher is set; nothing else changes |
| Battery.BatteryMeterView.UpdatePercentText | packages/SystemUI/src/com/android/systemui/battery/BatteryMeterView.java:403-445 | nothing while the state is unknown; without a fetcher the level text is set directly; with one, it is set unless estimate mode is on while discharging |
| Battery.BatteryMeterView.SetPercentTextAtCurrentLevel | packages/SystemUI/src/com/android/systemui/battery/BatteryMeterView.java:447-471 | the view's text becomes the charge indicator plus the percentage when the change check fires |
| Battery.BatteryMeterView.UpdateShowPercent | packages/SystemUI/src/com/android/systemui/battery/BatteryMeterView.java:497-556 | lays out the percentage, then refreshes the text |
| Battery.BatteryMeterView.LayOutPercent | packages/SystemUI/src/com/android/systemui/battery/BatteryMeterView.java:497-555 | creates or keeps the text view and turns off the inside percentage, or removes the view and sets the inside flag |
| Battery.BatteryMeterView.SetIsQsHeader | packages/SystemUI/src/com/android/systemui/battery/BatteryMeterView.java:558-560 | stores the flag; nothing else changes |
| Battery.BatteryMeterView.UpdateVisibility | packages/SystemUI/src/com/android/systemui/battery/BatteryMeterView.java:562-570 | TEXT and HIDDEN hide and clear the icon; any other style shows it |
| Battery.BatteryMeterView.ShowUnknownIcon | packages/SystemUI/src/com/android/systemui/battery/BatteryMeterView.java:579-586 | the icon shows the unknown-state drawable, created on first use with the text colour as tint |
| Battery.BatteryMeterView.OnBatteryUnknownStateChanged | packages/SystemUI/src/com/android/systemui/battery/BatteryMeterView.java:588-603 | returns at once for the current value; otherwise shows the unknown icon or the style's icon, then re-lays out |
| Battery.BatteryMeterView.UpdateBatteryStyle | packages/SystemUI/src/com/android/systemui/battery/BatteryMeterView.java:683-732 | the style's drawable goes into the icon |
| Battery.BatteryMeterView.UpdateColors | packages/SystemUI/src/com/android/systemui/battery/BatteryMeterView.java:753-779 | the colours go to all drawables; the text colour, the percent view and the unknown drawable take the single tone |
| Battery.BatteryMeterView.AddCallback | packages/SystemUI/src/com/android/systemui/battery/BatteryMeterView.java:809-811 | appends the callback |
| Battery.BatteryMeterView.RemoveCallback | packages/SystemUI/src/com/android/systemui/battery/BatteryMeterView.java:813-815 | removes the first registration of the callback |
| Battery.FanOutKeepsUniform | packages/SystemUI/src/com/android/systemui/battery/BatteryMeterView.java:307-366 | the same setter on all fourteen drawables keeps them complete and agreeing |
| Battery.CircleKeepsUniform | packages/SystemUI/src/com/android/systemui/battery/BatteryMeterView.java:727-729 | the circle's meter style is not part of the shared reading |
| Battery.StyleSelectsDrawable | packages/SystemUI/src/com/android/systemui/battery/BatteryMeterView.java:683-726 | a style selects a non-circle drawable if and only if it is that drawable's own style constant |
| Battery.CircleIsTheDefault | packages/SystemUI/src/com/android/systemui/battery/BatteryMeterView.java:727-730 | the circle drawable is used exactly for CIRCLE, DOTTED_CIRCLE and every value outside 0..16 |
| Battery.BatteryStyleStep | packages/SystemUI/src/com/android/systemui/battery/BatteryMeterView.java:683-732 | TEXT/HIDDEN change nothing; any other style puts a drawable in the icon, its own or the circle with the style as meter style |
| Battery.SbBatteryStyleShowsStyle | packages/SystemUI/src/com/android/systemui/battery/BatteryMeterView.java:279-287 | after reading the style, the icon is gone for TEXT/HIDDEN and otherwise shows the style's drawable; the notices are the old ones followed by one per callback in order |
| Battery.PercentTextFrame | packages/SystemUI/src/com/android/systemui/battery/BatteryMeterView.java:403-471 | refreshing the text changes only the view's text and the rendered charging flag |
| Battery.LayOutPercentRule | packages/SystemUI/src/com/android/systemui/battery/BatteryMeterView.java:497-555 | the text view exists if and only if the layout condition holds; an existing view is kept and a new one is tinted with a non-zero text colour |
| Battery.PercentPlacementRule | packages/SystemUI/src/com/android/systemui/battery/BatteryMeterView.java:497-556 | the view exists if and only if the condition holds; the drawables show the percentage inside only when it does not; never both |
| Battery.LayoutKeepsUniform | packages/SystemUI/src/com/android/systemui/battery/BatteryMeterView.java:497-556 | the layout keeps the drawable invariant |
| Battery.ChargingClauseNeverDecides | packages/SystemUI/src/com/android/systemui/battery/BatteryMeterView.java:499-504 | inside and text-only exclude each other, so the `\|\| mCharging` clause never changes the outcome |
| Battery.TextStyleShowsOnlyText | packages/SystemUI/src/com/android/systemui/battery/BatteryMeterView.java:274-305 | in the TEXT style: no icon, placement OUTSIDE, the text view shown, no percentage inside |
| Battery.HiddenStyleShowsNothingOutsideHeader | packages/SystemUI/src/com/android/systemui/battery/BatteryMeterView.java:274-305 | in the HIDDEN style: no icon, placement HIDDEN, the text view only in the QS header with mode ON or ESTIMATE |
| Battery.SettingsReadInOrder | packages/SystemUI/src/com/android/systemui/battery/BatteryMeterView.java:274-305 | the style is the setting (default PORTRAIT); TEXT forces OUTSIDE, HIDDEN forces HIDDEN, other styles take the percentage setting (default HIDDEN) |
| Battery.LevelChangeDrawables | packages/SystemUI/src/com/android/systemui/battery/BatteryMeterView.java:307-348 | every drawable gets the new level and plug state when they differ from the view's own and keeps its old one otherwise; power save and colours stay |
| Battery.LevelChangeFansOut | packages/SystemUI/src/com/android/systemui/battery/BatteryMeterView.java:307-348 | the view takes the new level and plug state, and its drawables keep agreeing |
| Battery.LevelChangeKeepsSync | packages/SystemUI/src/com/android/systemui/battery/BatteryMeterView.java:307-348 | drawables that showed the view's level and plug state still do afterwards |
| Battery.PowerSaveFansOut | packages/SystemUI/src/com/android/systemui/battery/BatteryMeterView.java:350-366 | every drawable gets the power-save flag; level and charging stay; sync is kept |
| Battery.ColorsReachEverything | packages/SystemUI/src/com/android/systemui/battery/BatteryMeterView.java:753-779 | every drawable gets the three colours; the text colour, the percent view and an existing unknown drawable take the single tone |
| Battery.LayoutKeepsTints | packages/SystemUI/src/com/android/systemui/battery/BatteryMeterView.java:519-529 | an inflated percent view is tinted with the current text colour, so the tints keep following it |
| Battery.UnknownStateKeepsTints | packages/SystemUI/src/com/android/systemui/battery/BatteryMeterView.java:579-603 | the unknown drawable is created with the text colour |
| Battery.SetBatteryStyleIdempotent | packages/SystemUI/src/com/android/systemui/battery/BatteryMeterView.java:227-232 | setting a style twice is setting it once |
| Battery.SetPercentShowModeIdempotent | packages/SystemUI/src/com/android/systemui/battery/BatteryMeterView.java:247-252 | setting a mode twice is setting it once |
| Battery.UnknownStateFreezesText | packages/SystemUI/src/com/android/systemui/battery/BatteryMeterView.java:403-406 | while the state is unknown the text refresh does nothing |
| Battery.EnteringUnknownState | packages/SystemUI/src/com/android/systemui/battery/BatteryMeterView.java:588-603 | entering the unknown state shows the tinted unknown drawable and rewrites no text; repeating the call changes nothing |
| Battery.LeavingUnknownState | packages/SystemUI/src/com/android/systemui/battery/BatteryMeterView.java:588-603 | leaving it puts the style's icon back: a style's own drawable, or the circle with the style as meter style; for TEXT and HIDDEN the style switch breaks (685-687) and the icon stays as it was |
| Battery.BoltIffChargingInTextStyle | packages/SystemUI/src/com/android/systemui/battery/BatteryMeterView.java:460-464 | the label starts with the bolt if and only if the view is charging in the TEXT style |
| Battery.SetPercentTextIdempotent | packages/SystemUI/src/com/android/systemui/battery/BatteryMeterView.java:447-471 | a second refresh changes nothing, under either change check |
| Battery.AsWrittenStyleSwitchDropsBolt | packages/SystemUI/src/com/android/systemui/battery/BatteryMeterView.java:454 | as written: a charging view at 50% that switches to TEXT keeps "50%" without the bolt |
| Battery.IntendedLabelAlwaysCurrent | packages/SystemUI/src/com/android/systemui/battery/BatteryMeterView.java:447-471 | corrected: after a refresh the text is always the label for the current level, plug state and style |
| Battery.IntendedStyleSwitchShowsBolt | packages/SystemUI/src/com/android/systemui/battery/BatteryMeterView.java:227-232 | corrected: switching a charging view to TEXT with the percentage forced on shows the bolt |
| Battery.RemoveUndoesAdd | packages/SystemUI/src/com/android/systemui/battery/BatteryMeterView.java:809-815 | adding a callback not yet registered and then removing it restores the list |
| Battery.RemoveDropsOne | packages/SystemUI/src/com/android/systemui/battery/BatteryMeterView.java:813-815 | removing drops exactly one registration of the callback (as multisets) and changes nothing when it is absent |

## Left out

- The `Build` fields are a map given to the hooks object. The platform's `Build` class is not part of this model, so which names are real fields is a parameter. The hooks object requires `MODEL`, because the GMS branch reads it, and that every name is a Java identifier, so it holds no '.'.
- Reflection, `Log`, `dlog` and the `DEBUG` flag are not modelled. A failed reflective write appears only as "leaves the map unchanged".
- The resource reads that configure the hooks (`sCertifiedFp`, `sStockFp`, `sSpoofGapps`, `sNetflixModel`, `sDolbyAtmos`) are the `Config` parameter.
- `volatile` and the process-wide sharing of the hooks' statics are not modelled: there is one hooks object and no concurrency.
- The thread's stack is a parameter: a sequence of class names.
- The `xperienceUtils` helpers are not part of this model.
- Android view machinery is not modelled:
  - layout transitions, padding, text appearance, margins and `addView`/`removeView`;
  - the estimate fetcher's asynchronous completion. Only whether a fetcher is set is modelled, and the estimate path leaves the text as it was.
- `scaleBatteryMeterViews` is not modelled, because its sizes come from resources and floating point.
- Content descriptions, `updateContentDescription`, `dump`, `onConfigurationChanged`, `setColorsFromContext` and `hasOverlappingRendering` are not modelled.
- `onIsOverheatedChanged` and `setDisplayShieldEnabled` are not modelled; they only affect the content description and scaling.
- `onDarkChanged`'s area test and the `DualToneHandler` are not modelled. The constructor receives the three colours the handler gives at zero intensity.
- `NumberFormat.getPercentInstance()` is rendered locale-free, as the decimal level followed by "%".
- `removeBatteryPercentView()` is called by `updateShowPercent` (BatteryMeterView.java:539) but is not defined in the view's source. The model takes it to remove the text view and drop the reference, so `mBatteryPercentView` becomes null; `LayOutPercentRule` and `PercentPlacementRule` rest on this.
- The fourteen drawable classes of settingslib are not part of this model. They are assumed to start with one identical recorded reading, the `initial` value given to the constructor; the drawables agree from construction on only because of this. `onBatteryLevelChanged` pushes only changed values, so a drawable that started with another level would not be corrected.
- A freshly inflated percent view is modelled with empty text; the layout resource is not part of this model.
- The drawables record what their setters were given; their drawing is not modelled.
- Settings reads are `Option<int>` parameters; `None` means the setting is unset and the source's default applies.
- `mPCharging`, the charging state the text was last rendered for, is used by `setPercentTextAtCurrentLevel` but not declared in the view's source. It is modelled as a boolean field that starts false.
- Callbacks are compared by identity through an integer id. An `onHiddenBattery` call is recorded as a `Notice`; what a callback does with it is not modelled.

## Findings

| source | as written | input that shows it | evidently intended | confidence | as-written member | corrected member |
|---|---|---|---|---|---|---|
| core/java/com/android/internal/util/PropImitationHooks.java:159 | `packageName.equals(PACKAGE_DAX_UI) && packageName.equals(PACKAGE_DAX_SERVICE)` | package "com.dolby.daxappui" with the Dolby toggle on: no Dolby profile is applied | either Dolby package (`\|\|`) | high, not executed | PropImitation.DolbyBranchUnreachable | PropImitation.IntendedDolbyBranchFires |
| core/java/com/android/internal/util/PropImitationHooks.java:162 | `sSpoofGapps && a \|\| b \|\| c` binds as `(sSpoofGapps && a) \|\| b \|\| c` | package "com.google.android.inputmethod.latin" with the Google-apps toggle off: the Pixel 7 Pro profile is applied | the toggle guards all three packages, as it does for the Pixel 6 branch | medium, not executed | PropImitation.GboardAndSetupWizardSpoofedRegardless | PropImitation.IntendedPixel7NeedsToggle |
| packages/SystemUI/src/com/android/systemui/battery/BatteryMeterView.java:454 | the change check compares the text with the bare percentage, ignoring the style | charging at level 50, mode ON, text "50%", then `setBatteryStyle(TEXT)`: the text stays "50%" without the bolt until the level changes | compare with the whole label, bolt included | medium, not executed | Battery.AsWrittenStyleSwitchDropsBolt | Battery.IntendedLabelAlwaysCurrent |
