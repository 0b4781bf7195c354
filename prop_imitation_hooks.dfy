/**
 * Model of `PropImitationHooks`: a per-package table of overrides for the
 * fields of `android.os.Build`, plus two predicates that later read the
 * caller flags it computes (feature hiding and key-attestation blocking).
 *
 * The static `Build` fields are a map from field name to value; writing a
 * name that is not a field of `Build` is a reflection failure that is logged
 * and swallowed, so it leaves the map unchanged. The static configuration read
 * from resources is the `Config` value the hooks object is built with.
 */
module PropImitation {
  import opened Wrappers
  import opened JavaStrings

  const PACKAGE_ARCORE := "com.google.ar.core"
  const PACKAGE_FINSKY := "com.android.vending"
  const PACKAGE_GMS := "com.google.android.gms"
  const PROCESS_GMS_UNSTABLE := PACKAGE_GMS + ".unstable"
  const PACKAGE_GPHOTOS := "com.google.android.apps.photos"
  const PACKAGE_VELVET := "com.google.android.quicksearchbox"
  const PACKAGE_WALLPAPERS := "com.google.android.apps.wallpaper"
  const PACKAGE_TURBO := "com.google.android.apps.turbo"
  const PACKAGE_SETUPWIZARD := "com.google.android.setupwizard"
  const PACKAGE_GBOARD := "com.google.android.inputmethod.latin"
  const PACKAGE_NETFLIX := "com.netflix.mediaclient"
  const PACKAGE_DAX_UI := "com.dolby.daxappui"
  const PACKAGE_DAX_SERVICE := "com.dolby.daxservice"

  /** Appended to the real model name for the GMS unstable process. */
  const ZERO_WIDTH_SPACE := "\U{200B}"
  /** The class-name marker of the SafetyNet / Play Integrity attestation library. */
  const DROIDGUARD := "DroidGuard"

  /** Values of `Build` fields (or of a profile), keyed by field name. */
  type Props = map<string, string>

  /** Pixel XL profile, for Google Photos. */
  const P1_PROPS: Props := map[
    "BRAND" := "google",
    "MANUFACTURER" := "Google",
    "DEVICE" := "marlin",
    "PRODUCT" := "marlin",
    "MODEL" := "Pixel XL",
    "FINGERPRINT" := "google/marlin/marlin:10/QP1A.191005.007.A3/5972272:user/release-keys"]

  /** Pixel 6 Pro profile, for the search app and the wallpapers app. */
  const P6_PROPS: Props := map[
    "BRAND" := "google",
    "MANUFACTURER" := "Google",
    "DEVICE" := "raven",
    "PRODUCT" := "raven",
    "MODEL" := "Pixel 6 Pro",
    "FINGERPRINT" := "google/raven/raven:13/TQ2A.230405.003.E1/9802792:user/release-keys"]

  /** Pixel 7 Pro profile, for Turbo, Gboard and SetupWizard. */
  const P7_PROPS: Props := map[
    "BRAND" := "google",
    "MANUFACTURER" := "Google",
    "DEVICE" := "cheetah",
    "PRODUCT" := "cheetah",
    "MODEL" := "Pixel 7 Pro",
    "FINGERPRINT" := "google/cheetah/cheetah:13/TQ1A.230205.001.D2/9471403:user/release-keys"]

  /** Written for every process that passes the guard. */
  const USER_PROPS: Props := map["TYPE" := "user", "TAGS" := "release-keys"]

  /** OnePlus profile for the Dolby Atmos packages; its keys are system-property names, not `Build` fields. */
  const DOLBY_ATMOS_PROPS: Props := map[
    "ro.vendor.product.device.db" := "OP_DEVICE",
    "ro.vendor.product.manufacturer.db" := "OP_PHONE",
    "vendor.product.device" := "OP_PHONE",
    "vendor.product.manufacturer" := "OPD"]

  /** Feature names hidden from Google Photos. */
  const FEATURES_BLACKLIST: seq<string> := [
    "PIXEL_2017_PRELOAD",
    "PIXEL_2018_PRELOAD",
    "PIXEL_2019_MIDYEAR_PRELOAD",
    "PIXEL_2019_PRELOAD",
    "PIXEL_2020_EXPERIENCE",
    "PIXEL_2020_MIDYEAR_EXPERIENCE",
    "PIXEL_2021_EXPERIENCE",
    "PIXEL_2021_MIDYEAR_EXPERIENCE"]

  /** The resource configuration: certified and stock fingerprints, the Google-apps toggle, the Netflix model, the Dolby toggle. */
  datatype Config = Config(
    certifiedFp: string,
    stockFp: string,
    spoofGapps: bool,
    netflixModel: string,
    dolbyAtmos: bool)

  /**
   * How the two suspicious conditions of the override chain are read:
   * `AsWritten` is the code as it stands (the Dolby test needs the package to
   * equal two different names, and `&&` binds tighter than `||` in the
   * Pixel 7 Pro test); `Intended` is the evident intent (either Dolby
   * package; the Google-apps toggle guards all three Pixel 7 Pro packages).
   */
  datatype Reading = AsWritten | Intended

  /** The branches of the override chain, in priority order; `NoBranch` when none matches. */
  datatype Branch =
    | GmsBranch | ArCoreBranch | PhotosBranch | Pixel6Branch
    | NetflixBranch | DolbyBranch | Pixel7Branch | NoBranch

  /** Every static that `setProps` writes: the three caller flags and the `Build` fields. */
  datatype HookState = HookState(isGms: bool, isFinsky: bool, isPhotos: bool, build: Props)

  /** `setPropValue(key, value)`: a reflective write that silently does nothing when `key` is not a field. */
  function Put(build: Props, key: string, value: string): (r: Props)
    ensures r.Keys == build.Keys
    ensures key in build ==> r[key] == value
    ensures forall k :: k in build && k != key ==> r[k] == build[k]
  {
    if key in build then build[key := value] else build
  }

  /** Every key is a Java field name: an identifier, so it holds no '.'. */
  predicate FieldNames(build: Props)
  {
    forall k :: k in build ==> '.' !in k
  }

  /** `profile.forEach(setPropValue)`: every profile key that is a field takes the profile's value. */
  function Overlay(build: Props, profile: Props): (r: Props)
    ensures r.Keys == build.Keys
    ensures forall k :: k in build && k in profile ==> r[k] == profile[k]
    ensures forall k :: k in build && k !in profile ==> r[k] == build[k]
  {
    map k | k in build :: if k in profile then profile[k] else build[k]
  }

  /** `TextUtils.isEmpty(packageName) || processName == null`: the guard that makes `setProps` return at once. */
  predicate Skipped(packageName: Option<string>, processName: Option<string>)
  {
    packageName.None? || packageName.value == "" || processName.None?
  }

  /** `sIsGms`: the GMS package running in its unstable process. */
  predicate IsGmsCaller(pkg: string, proc: string)
  {
    pkg == PACKAGE_GMS && proc == PROCESS_GMS_UNSTABLE
  }

  /** `sIsPhotos`: Google Photos, and only while the Google-apps toggle is on. */
  predicate IsPhotosCaller(config: Config, pkg: string)
  {
    config.spoofGapps && pkg == PACKAGE_GPHOTOS
  }

  /** The package test of the Dolby branch. */
  predicate DolbyPackage(reading: Reading, pkg: string)
  {
    match reading
    case AsWritten => pkg == PACKAGE_DAX_UI && pkg == PACKAGE_DAX_SERVICE
    case Intended => pkg == PACKAGE_DAX_UI || pkg == PACKAGE_DAX_SERVICE
  }

  /** The whole condition of the Pixel 7 Pro branch. */
  predicate Pixel7Condition(reading: Reading, spoofGapps: bool, pkg: string)
  {
    match reading
    case AsWritten =>
      (spoofGapps && pkg == PACKAGE_TURBO) || pkg == PACKAGE_GBOARD || pkg == PACKAGE_SETUPWIZARD
    case Intended =>
      spoofGapps && (pkg == PACKAGE_TURBO || pkg == PACKAGE_GBOARD || pkg == PACKAGE_SETUPWIZARD)
  }

  /** The if/else-if chain of `setProps`: the first branch whose condition holds. */
  function SelectBranch(reading: Reading, config: Config, pkg: string, isGms: bool, isPhotos: bool): Branch
  {
    if config.certifiedFp != "" && isGms then GmsBranch
    else if config.stockFp != "" && pkg == PACKAGE_ARCORE then ArCoreBranch
    else if isPhotos then PhotosBranch
    else if config.spoofGapps && (pkg == PACKAGE_VELVET || pkg == PACKAGE_WALLPAPERS) then Pixel6Branch
    else if config.netflixModel != "" && pkg == PACKAGE_NETFLIX then NetflixBranch
    else if config.dolbyAtmos && DolbyPackage(reading, pkg) then DolbyBranch
    else if Pixel7Condition(reading, config.spoofGapps, pkg) then Pixel7Branch
    else NoBranch
  }

  /** The branch a call with these names takes, flags computed as `setProps` computes them. */
  function FiredBranch(reading: Reading, config: Config, pkg: string, proc: string): Branch
  {
    SelectBranch(reading, config, pkg, IsGmsCaller(pkg, proc), IsPhotosCaller(config, pkg))
  }

  /** The writes of one branch, applied to the fields as they are when the branch starts. */
  function BranchWrites(b: Branch, config: Config, build: Props): Props
    requires "MODEL" in build
  {
    match b
    case GmsBranch =>
      var withFp := Put(build, "FINGERPRINT", config.certifiedFp);
      Put(withFp, "MODEL", withFp["MODEL"] + ZERO_WIDTH_SPACE)
    case ArCoreBranch => Put(build, "FINGERPRINT", config.stockFp)
    case PhotosBranch => Overlay(build, P1_PROPS)
    case Pixel6Branch => Overlay(build, P6_PROPS)
    case NetflixBranch => Put(build, "MODEL", config.netflixModel)
    case DolbyBranch => Overlay(build, DOLBY_ATMOS_PROPS)
    case Pixel7Branch => Overlay(build, P7_PROPS)
    case NoBranch => build
  }

  /** The field names a branch may write. */
  function BranchKeys(b: Branch): set<string>
  {
    match b
    case GmsBranch => {"FINGERPRINT", "MODEL"}
    case ArCoreBranch => {"FINGERPRINT"}
    case PhotosBranch => P1_PROPS.Keys
    case Pixel6Branch => P6_PROPS.Keys
    case NetflixBranch => {"MODEL"}
    case DolbyBranch => DOLBY_ATMOS_PROPS.Keys
    case Pixel7Branch => P7_PROPS.Keys
    case NoBranch => {}
  }

  /** The state after `setProps(packageName, processName)` from state `s`. */
  function SetPropsSpec(reading: Reading, config: Config, packageName: Option<string>,
                        processName: Option<string>, s: HookState): HookState
    requires "MODEL" in s.build
  {
    if Skipped(packageName, processName) then s
    else
      var pkg := packageName.value;
      var proc := processName.value;
      var isGms := IsGmsCaller(pkg, proc);
      var isPhotos := IsPhotosCaller(config, pkg);
      var normalized := Overlay(s.build, USER_PROPS);
      var b := SelectBranch(reading, config, pkg, isGms, isPhotos);
      HookState(isGms, pkg == PACKAGE_FINSKY, isPhotos, BranchWrites(b, config, normalized))
  }

  /** The outcome of `onEngineGetCertificateChain`: it returns, or throws `UnsupportedOperationException`. */
  datatype CertificateChainCall = Proceed | Unsupported

  /**
   * The process-wide statics of `PropImitationHooks`: the resource
   * configuration (final), the three caller flags and the `Build` fields.
   */
  class PropImitationHooks {
    const config: Config
    const reading: Reading
    var isGms: bool
    var isFinsky: bool
    var isPhotos: bool
    var build: Props

    /** `Build.MODEL` is read directly by the GMS branch, so it is a field; every field has a Java name. */
    ghost predicate Valid()
      reads this
    {
      "MODEL" in build && FieldNames(build)
    }

    ghost function State(): HookState
      reads this
    {
      HookState(isGms, isFinsky, isPhotos, build)
    }

    /** Class initialisation: the flags start false; `build` holds the platform's `Build` fields. */
    constructor (config: Config, reading: Reading, build: Props)
      requires "MODEL" in build && FieldNames(build)
      ensures Valid()
      ensures this.config == config && this.reading == reading
      ensures State() == HookState(false, false, false, build)
    {
      this.config := config;
      this.reading := reading;
      isGms, isFinsky, isPhotos := false, false, false;
      this.build := build;
    }

    /** `setPropValue`: write one field by name; a name that is not a field is logged and ignored. */
    method SetPropValue(key: string, value: string)
      modifies this`build
      ensures build == Put(old(build), key, value)
    {
      if key in build {
        build := build[key := value];
      }
    }

    /** `props.forEach((k, v) -> setPropValue(k, v))`, in whatever order the hash map yields its keys. */
    method ApplyProps(props: Props)
      modifies this`build
      ensures build == Overlay(old(build), props)
    {
      var pending := props.Keys;
      while pending != {}
        invariant pending <= props.Keys
        invariant build == Overlay(old(build), props - pending)
        decreases pending
      {
        var k :| k in pending;
        OverlayStep(old(build), props, pending, k);
        SetPropValue(k, props[k]);
        pending := pending - {k};
      }
      assert props - {} == props;
    }

    /** `setProps`: recompute the caller flags, normalise TYPE and TAGS, then apply the first matching branch. */
    method SetProps(packageName: Option<string>, processName: Option<string>)
      requires Valid()
      modifies this
      ensures Valid()
      ensures State() == SetPropsSpec(reading, config, packageName, processName, old(State()))
    {
      if packageName.None? || packageName.value == "" || processName.None? {
        return;
      }
      var pkg := packageName.value;
      var proc := processName.value;
      isGms := pkg == PACKAGE_GMS && proc == PROCESS_GMS_UNSTABLE;
      isFinsky := pkg == PACKAGE_FINSKY;
      isPhotos := config.spoofGapps && pkg == PACKAGE_GPHOTOS;
      ApplyProps(USER_PROPS);
      var b := SelectBranch(reading, config, pkg, isGms, isPhotos);
      ApplyBranch(b);
    }

    /** The body of the branch `b` of the override chain. */
    method ApplyBranch(b: Branch)
      requires Valid()
      modifies this`build
      ensures Valid()
      ensures build == BranchWrites(b, config, old(build))
    {
      match b
      case GmsBranch =>
        SetPropValue("FINGERPRINT", config.certifiedFp);
        SetPropValue("MODEL", build["MODEL"] + ZERO_WIDTH_SPACE);
      case ArCoreBranch =>
        SetPropValue("FINGERPRINT", config.stockFp);
      case PhotosBranch =>
        ApplyProps(P1_PROPS);
      case Pixel6Branch =>
        ApplyProps(P6_PROPS);
      case NetflixBranch =>
        SetPropValue("MODEL", config.netflixModel);
      case DolbyBranch =>
        ApplyProps(DOLBY_ATMOS_PROPS);
      case Pixel7Branch =>
        ApplyProps(P7_PROPS);
      case NoBranch =>
    }

    /** `isCallerSafetyNet`: the GMS unstable process, with a DroidGuard class on the current stack. */
    function IsCallerSafetyNet(stack: seq<string>): (r: bool)
      reads this
      ensures r <==> isGms && exists i :: 0 <= i < |stack| && Contains(stack[i], DROIDGUARD)
    {
      isGms && AnyMatch(stack, (c: string) => Contains(c, DROIDGUARD))
    }

    /** `onEngineGetCertificateChain`: throws for the Play Store, and for SafetyNet inside GMS. */
    function OnEngineGetCertificateChain(stack: seq<string>): (r: CertificateChainCall)
      reads this
      ensures r == Unsupported <==>
                isFinsky || (isGms && exists i :: 0 <= i < |stack| && Contains(stack[i], DROIDGUARD))
    {
      if IsCallerSafetyNet(stack) || isFinsky then Unsupported else Proceed
    }

    /** `hasSystemFeature`: Google Photos is told a blacklisted feature is absent; every other answer passes through. */
    function HasSystemFeature(name: string, def: bool): (r: bool)
      reads this
      ensures r ==> def
      ensures !r <==>
                !def || (isPhotos && exists j :: 0 <= j < |FEATURES_BLACKLIST| && Contains(name, FEATURES_BLACKLIST[j]))
    {
      if isPhotos && def && AnyMatch(FEATURES_BLACKLIST, (e: string) => Contains(name, e)) then false
      else def
    }
  }

  /** Adding one more key of the profile to the applied part is one more `setPropValue`. */
  lemma OverlayStep(build: Props, props: Props, pending: set<string>, k: string)
    requires k in pending && pending <= props.Keys
    ensures Overlay(build, props - (pending - {k})) == Put(Overlay(build, props - pending), k, props[k])
  {
    var lhs := Overlay(build, props - (pending - {k}));
    var rhs := Put(Overlay(build, props - pending), k, props[k]);
    assert lhs.Keys == rhs.Keys;
    forall x | x in lhs
      ensures lhs[x] == rhs[x]
    {
      if x == k {
        assert k in props - (pending - {k});
      } else {
        assert (x in props - (pending - {k})) == (x in props - pending);
      }
    }
  }


  /* ---------------------------------------------------------------------- */
  /* Properties of setProps                                                  */
  /* ---------------------------------------------------------------------- */

  /** A branch leaves every field outside its own keys as it found it, and adds or removes no field. */
  lemma BranchWritesFrame(b: Branch, config: Config, build: Props)
    requires "MODEL" in build
    ensures BranchWrites(b, config, build).Keys == build.Keys
    ensures forall k :: k in build && k !in BranchKeys(b) ==> BranchWrites(b, config, build)[k] == build[k]
  {
  }

  /** No branch writes TYPE or TAGS, so the normalisation always survives the chain. */
  lemma NoBranchWritesTypeOrTags(b: Branch)
    ensures USER_PROPS.Keys !! BranchKeys(b)
  {
    assert USER_PROPS.Keys == {"TYPE", "TAGS"};
    match b
    case PhotosBranch => assert "TYPE" !in P1_PROPS && "TAGS" !in P1_PROPS;
    case Pixel6Branch => assert "TYPE" !in P6_PROPS && "TAGS" !in P6_PROPS;
    case Pixel7Branch => assert "TYPE" !in P7_PROPS && "TAGS" !in P7_PROPS;
    case DolbyBranch => assert "TYPE" !in DOLBY_ATMOS_PROPS && "TAGS" !in DOLBY_ATMOS_PROPS;
    case _ =>
  }

  /** An empty package name or a null process name: no flag and no field is written. */
  lemma SkippedCallChangesNothing(reading: Reading, config: Config, packageName: Option<string>,
                                  processName: Option<string>, s: HookState)
    requires "MODEL" in s.build
    requires packageName == None || packageName == Some("") || processName == None
    ensures SetPropsSpec(reading, config, packageName, processName, s) == s
  {
  }

  /**
   * A call past the guard recomputes all three flags from the names alone and
   * leaves TYPE = "user" and TAGS = "release-keys", whichever branch then runs.
   */
  lemma SetPropsFlagsAndNormalisation(reading: Reading, config: Config, pkg: string, proc: string, s: HookState)
    requires "MODEL" in s.build && pkg != ""
    ensures var r := SetPropsSpec(reading, config, Some(pkg), Some(proc), s);
            && r.isGms == (pkg == PACKAGE_GMS && proc == PACKAGE_GMS + ".unstable")
            && r.isFinsky == (pkg == PACKAGE_FINSKY)
            && r.isPhotos == (config.spoofGapps && pkg == PACKAGE_GPHOTOS)
            && r.build.Keys == s.build.Keys
            && ("TYPE" in s.build ==> r.build["TYPE"] == "user")
            && ("TAGS" in s.build ==> r.build["TAGS"] == "release-keys")
  {
    var b := FiredBranch(reading, config, pkg, proc);
    var normalized := Overlay(s.build, USER_PROPS);
    BranchWritesFrame(b, config, normalized);
    NoBranchWritesTypeOrTags(b);
    assert "TYPE" in USER_PROPS && "TAGS" in USER_PROPS;
  }

  /** Only the fields of the branch that fired (and TYPE, TAGS) may differ afterwards. */
  lemma SetPropsWritesOneBranch(reading: Reading, config: Config, pkg: string, proc: string, s: HookState)
    requires "MODEL" in s.build && pkg != ""
    ensures var r := SetPropsSpec(reading, config, Some(pkg), Some(proc), s);
            forall k :: k in s.build && k !in USER_PROPS && k !in BranchKeys(FiredBranch(reading, config, pkg, proc))
                        ==> r.build[k] == s.build[k]
  {
    BranchWritesFrame(FiredBranch(reading, config, pkg, proc), config, Overlay(s.build, USER_PROPS));
  }

  /** The GMS branch fires exactly for the GMS unstable process when a certified fingerprint is configured. */
  lemma GmsBranchCondition(reading: Reading, config: Config, pkg: string, proc: string)
    ensures FiredBranch(reading, config, pkg, proc) == GmsBranch <==>
              config.certifiedFp != "" && pkg == PACKAGE_GMS && proc == PROCESS_GMS_UNSTABLE
  {
  }

  /**
   * When the GMS branch fires, FINGERPRINT becomes the certified value, MODEL
   * gets a zero-width space appended, and no other profile field changes.
   */
  lemma GmsBranchWritesFingerprintAndModel(reading: Reading, config: Config, pkg: string, proc: string, s: HookState)
    requires "MODEL" in s.build && pkg != ""
    requires FiredBranch(reading, config, pkg, proc) == GmsBranch
    ensures var r := SetPropsSpec(reading, config, Some(pkg), Some(proc), s);
            && r.build["MODEL"] == s.build["MODEL"] + ZERO_WIDTH_SPACE
            && ("FINGERPRINT" in s.build ==> r.build["FINGERPRINT"] == config.certifiedFp)
            && forall k :: k in s.build && k != "FINGERPRINT" && k != "MODEL" && k !in USER_PROPS
                           ==> r.build[k] == s.build[k]
  {
    var normalized := Overlay(s.build, USER_PROPS);
    assert "MODEL" !in USER_PROPS;
    assert normalized["MODEL"] == s.build["MODEL"];
  }

  /** Fields that already agree with a profile are left alone by it. */
  lemma OverlayFixed(build: Props, profile: Props)
    requires forall k :: k in build && k in profile ==> build[k] == profile[k]
    ensures Overlay(build, profile) == build
  {
  }

  /** Every branch but GMS writes constants, so running it on its own result changes nothing. */
  lemma BranchWritesIdempotent(b: Branch, config: Config, build: Props)
    requires "MODEL" in build && b != GmsBranch
    ensures "MODEL" in BranchWrites(b, config, build)
    ensures BranchWrites(b, config, BranchWrites(b, config, build)) == BranchWrites(b, config, build)
  {
    var once := BranchWrites(b, config, build);
    match b
    case PhotosBranch => OverlayFixed(once, P1_PROPS);
    case Pixel6Branch => OverlayFixed(once, P6_PROPS);
    case DolbyBranch => OverlayFixed(once, DOLBY_ATMOS_PROPS);
    case Pixel7Branch => OverlayFixed(once, P7_PROPS);
    case _ =>
  }

  /**
   * Calling `setProps` a second time with the same names gives the same state
   * exactly when the GMS branch did not fire: every other branch writes
   * constants, while the GMS branch appends a second zero-width space.
   */
  lemma SetPropsRepeatIffNotGms(reading: Reading, config: Config, pkg: string, proc: string, s: HookState)
    requires "MODEL" in s.build && pkg != ""
    ensures var once := SetPropsSpec(reading, config, Some(pkg), Some(proc), s);
            && "MODEL" in once.build
            && (SetPropsSpec(reading, config, Some(pkg), Some(proc), once) == once
                <==> FiredBranch(reading, config, pkg, proc) != GmsBranch)
  {
    var b := FiredBranch(reading, config, pkg, proc);
    var normalized := Overlay(s.build, USER_PROPS);
    BranchWritesFrame(b, config, normalized);
    var once := SetPropsSpec(reading, config, Some(pkg), Some(proc), s);
    assert once.build == BranchWrites(b, config, normalized);
    NoBranchWritesTypeOrTags(b);
    OverlayFixed(once.build, USER_PROPS);
    var twice := SetPropsSpec(reading, config, Some(pkg), Some(proc), once);
    assert twice.build == BranchWrites(b, config, once.build);
    if b == GmsBranch {
      GmsBranchWritesFingerprintAndModel(reading, config, pkg, proc, once);
      assert |twice.build["MODEL"]| == |once.build["MODEL"]| + 1;
    } else {
      BranchWritesIdempotent(b, config, normalized);
    }
  }

  /** The named packages of the chain; any other caller gets only the TYPE/TAGS normalisation. */
  const NAMED_PACKAGES: set<string> := {
    PACKAGE_ARCORE, PACKAGE_FINSKY, PACKAGE_GMS, PACKAGE_GPHOTOS, PACKAGE_VELVET, PACKAGE_WALLPAPERS,
    PACKAGE_TURBO, PACKAGE_SETUPWIZARD, PACKAGE_GBOARD, PACKAGE_NETFLIX, PACKAGE_DAX_UI, PACKAGE_DAX_SERVICE}

  /** An unlisted package gets no flag and no override beyond TYPE and TAGS. */
  lemma UnlistedPackageOnlyNormalised(reading: Reading, config: Config, pkg: string, proc: string, s: HookState)
    requires "MODEL" in s.build && pkg != "" && pkg !in NAMED_PACKAGES
    ensures SetPropsSpec(reading, config, Some(pkg), Some(proc), s)
            == HookState(false, false, false, Overlay(s.build, USER_PROPS))
  {
    assert FiredBranch(reading, config, pkg, proc) == NoBranch;
  }

  /* ---------------------------------------------------------------------- */
  /* The two defects of the chain, as written and as intended                */
  /* ---------------------------------------------------------------------- */

  /** As written, the Dolby branch never fires: no package name equals both Dolby names. */
  lemma DolbyBranchUnreachable(config: Config, pkg: string, proc: string)
    ensures FiredBranch(AsWritten, config, pkg, proc) != DolbyBranch
  {
    assert PACKAGE_DAX_UI[13] != PACKAGE_DAX_SERVICE[13];
  }

  /** As intended, either Dolby package gets the Dolby profile when the toggle is on. */
  lemma IntendedDolbyBranchFires(config: Config, pkg: string, proc: string)
    requires config.dolbyAtmos && (pkg == PACKAGE_DAX_UI || pkg == PACKAGE_DAX_SERVICE)
    ensures FiredBranch(Intended, config, pkg, proc) == DolbyBranch
  {
    assert pkg[4] == 'd';
  }

  /** Every key of the Dolby profile is a dotted system-property name. */
  lemma DolbyKeysAreDotted()
    ensures forall k :: k in DOLBY_ATMOS_PROPS ==> '.' in k
  {
    assert DOLBY_ATMOS_PROPS.Keys == {"ro.vendor.product.device.db", "ro.vendor.product.manufacturer.db",
                                      "vendor.product.device", "vendor.product.manufacturer"};
    assert "ro.vendor.product.device.db"[2] == '.';
    assert "ro.vendor.product.manufacturer.db"[2] == '.';
    assert "vendor.product.device"[6] == '.';
    assert "vendor.product.manufacturer"[6] == '.';
  }

  /**
   * Even when it fires, the Dolby profile names system properties, not
   * `Build` fields: its dotted keys are no Java field name, so it writes
   * nothing beyond the normalisation.
   */
  lemma DolbyProfileWritesNoBuildField(reading: Reading, config: Config, pkg: string, proc: string, s: HookState)
    requires "MODEL" in s.build && FieldNames(s.build) && pkg != ""
    requires FiredBranch(reading, config, pkg, proc) == DolbyBranch
    ensures DOLBY_ATMOS_PROPS.Keys !! s.build.Keys
    ensures SetPropsSpec(reading, config, Some(pkg), Some(proc), s).build == Overlay(s.build, USER_PROPS)
  {
    DolbyKeysAreDotted();
  }

  /** As written, Gboard and SetupWizard get the Pixel 7 Pro profile with the Google-apps toggle on or off. */
  lemma GboardAndSetupWizardSpoofedRegardless(config: Config, pkg: string, proc: string)
    requires pkg == PACKAGE_GBOARD || pkg == PACKAGE_SETUPWIZARD
    ensures FiredBranch(AsWritten, config, pkg, proc) == Pixel7Branch
  {
    assert pkg != PACKAGE_GPHOTOS by {
      if pkg == PACKAGE_SETUPWIZARD { assert pkg[19] != PACKAGE_GPHOTOS[19]; }
    }
  }

  /** As written, Turbo gets the Pixel 7 Pro profile exactly when the Google-apps toggle is on. */
  lemma TurboNeedsToggle(config: Config, proc: string)
    ensures FiredBranch(AsWritten, config, PACKAGE_TURBO, proc) == Pixel7Branch <==> config.spoofGapps
  {
    assert |PACKAGE_TURBO| != |PACKAGE_GPHOTOS|;
  }

  /** As intended, the Pixel 7 Pro profile goes to Turbo, Gboard and SetupWizard exactly when the toggle is on. */
  lemma IntendedPixel7NeedsToggle(config: Config, pkg: string, proc: string)
    requires pkg == PACKAGE_TURBO || pkg == PACKAGE_GBOARD || pkg == PACKAGE_SETUPWIZARD
    ensures FiredBranch(Intended, config, pkg, proc) == Pixel7Branch <==> config.spoofGapps
  {
    assert pkg != PACKAGE_GPHOTOS by {
      if pkg == PACKAGE_SETUPWIZARD { assert pkg[19] != PACKAGE_GPHOTOS[19]; }
    }
  }

  /** Apart from those two conditions the readings agree: the branch taken is the same. */
  lemma ReadingsAgreeOffTheDefects(config: Config, pkg: string, proc: string)
    requires config.spoofGapps || (pkg != PACKAGE_GBOARD && pkg != PACKAGE_SETUPWIZARD)
    requires !config.dolbyAtmos || (pkg != PACKAGE_DAX_UI && pkg != PACKAGE_DAX_SERVICE)
    ensures FiredBranch(AsWritten, config, pkg, proc) == FiredBranch(Intended, config, pkg, proc)
  {
  }

  /* ---------------------------------------------------------------------- */
  /* The two predicates                                                      */
  /* ---------------------------------------------------------------------- */

  /** For Google Photos, each blacklist entry itself is reported absent. */
  lemma PhotosLosesBlacklistedFeatures(h: PropImitationHooks, j: int)
    requires h.isPhotos && 0 <= j < |FEATURES_BLACKLIST|
    ensures !h.HasSystemFeature(FEATURES_BLACKLIST[j], true)
  {
    assert OccursAt(FEATURES_BLACKLIST[j], FEATURES_BLACKLIST[j], 0);
  }

  /** After `setProps` for any package other than Google Photos, feature answers pass through unchanged. */
  lemma FeatureFilterOnlyForPhotos(h: PropImitationHooks, pkg: string, proc: string, s: HookState,
                                   name: string, def: bool)
    requires "MODEL" in s.build && pkg != "" && pkg != PACKAGE_GPHOTOS
    requires h.State() == SetPropsSpec(h.reading, h.config, Some(pkg), Some(proc), s)
    ensures h.HasSystemFeature(name, def) == def
  {
    assert !h.isPhotos;
  }

  /** After `setProps` for any app but the Play Store and GMS's unstable process, certificate chains are never refused. */
  lemma CertificateChainOnlyRefusedToAttestation(h: PropImitationHooks, pkg: string, proc: string, s: HookState,
                                                 stack: seq<string>)
    requires "MODEL" in s.build && pkg != "" && pkg != PACKAGE_FINSKY && !IsGmsCaller(pkg, proc)
    requires h.State() == SetPropsSpec(h.reading, h.config, Some(pkg), Some(proc), s)
    ensures h.OnEngineGetCertificateChain(stack) == Proceed
  {
    assert !h.isFinsky && !h.isGms;
  }
}
