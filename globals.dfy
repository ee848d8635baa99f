/** The addon's process-wide configuration: two mutable configuration records,
    the component that fills them from the host's settings, and the pure
    helpers that derive the portal URL and the device identity. */
module Globals {
  import opened Wrappers
  import opened PyText
  import opened Hex
  import opened Integers
  import opened Paths

  /** The exceptions the modelled code can raise. */
  datatype PyError =
    | IndexError      // `sys.argv` is too short
    | ValueError      // `int()` of a handle that is not a decimal literal
    | TypeError       // a `None` field concatenated or joined
    | AttributeError  // a `str` method called on a `None` field

  type Md5Digest = s: seq<byte> | |s| == 16 witness seq(16, _ => 0)
  type Sha256Digest = s: seq<byte> | |s| == 32 witness seq(32, _ => 0)

  /** The parts `urllib.parse.urlsplit` returns. */
  datatype SplitResult = SplitResult(scheme: string, netloc: string, path: string, query: string, fragment: string)

  /** Library code the configuration calls but does not define, as functions
      about which nothing is known beyond their types. `md5` and `sha256` take
      the text before its UTF-8 encoding. */
  datatype Library = Library(
    md5: string -> Md5Digest,
    sha256: string -> Sha256Digest,
    urlsplit: string -> SplitResult,
    urlencode: seq<(string, string)> -> string,
    translatePath: string -> string)

  const ChangeProperty: string := "change"
  const MacAddressSetting: string := "mac_address"
  const SignatureSetting: string := "signature"
  const ServerAddressSetting: string := "server_address"
  const AlternativeContextSetting: string := "alternative_context_path"

  // ---------------------------------------------------------------------
  // Portal URL assembly

  /** The path of the portal's API entry point. */
  function ContextPath(alternative: bool): (r: string)
    ensures r == "/portal.php" <==> alternative
    ensures r == "/server/load.php" <==> !alternative
  {
    if alternative then "/portal.php" else "/server/load.php"
  }

  /** `get_portal_url` on explicit field values: an ordered three-way decision
      on the suffix of the server address, in which `str.replace` removes
      every occurrence of the marker, not only the trailing one. */
  function PortalUrl(serverAddress: string, portalBaseUrl: string, alternative: bool): (r: string)
    ensures EndsWith(r, ContextPath(alternative))
  {
    var prefix :=
      if EndsWith(serverAddress, "/c/") then Replace(serverAddress, "/c/", "")
      else if EndsWith(serverAddress, "/c") then Replace(serverAddress, "/c", "")
      else portalBaseUrl + "/stalker_portal";
    EndsWithConcat(prefix, ContextPath(alternative));
    prefix + ContextPath(alternative)
  }

  /** The URL names the alternative entry point exactly when the flag is set. */
  lemma PortalUrlContext(serverAddress: string, portalBaseUrl: string, alternative: bool)
    ensures EndsWith(PortalUrl(serverAddress, portalBaseUrl, alternative), "/portal.php") <==> alternative
  {
    var r := PortalUrl(serverAddress, portalBaseUrl, alternative);
    if !alternative {
      assert r[|r| - 11..] == "/server/load.php"[5..];
    }
  }

  /** When the address carries a `/c/` or `/c` marker the base URL is not used. */
  lemma PortalUrlMarkerIgnoresBase(serverAddress: string, base1: string, base2: string, alternative: bool)
    requires EndsWith(serverAddress, "/c/") || EndsWith(serverAddress, "/c")
    ensures PortalUrl(serverAddress, base1, alternative) == PortalUrl(serverAddress, base2, alternative)
  {
  }

  /** The first branch: the address ends in `/c/`. */
  lemma PortalUrlSlashMarker(serverAddress: string, portalBaseUrl: string, alternative: bool)
    requires EndsWith(serverAddress, "/c/")
    ensures PortalUrl(serverAddress, portalBaseUrl, alternative)
         == Replace(serverAddress, "/c/", "") + ContextPath(alternative)
  {
  }

  /** The second branch: the address ends in `/c` but not in `/c/`. */
  lemma PortalUrlMarker(serverAddress: string, portalBaseUrl: string, alternative: bool)
    requires !EndsWith(serverAddress, "/c/") && EndsWith(serverAddress, "/c")
    ensures PortalUrl(serverAddress, portalBaseUrl, alternative)
         == Replace(serverAddress, "/c", "") + ContextPath(alternative)
  {
  }

  /** The third branch: without a marker the URL is built on the base URL. */
  lemma PortalUrlWithoutMarker(serverAddress: string, portalBaseUrl: string, alternative: bool)
    requires !EndsWith(serverAddress, "/c/") && !EndsWith(serverAddress, "/c")
    ensures PortalUrl(serverAddress, portalBaseUrl, alternative)
         == portalBaseUrl + "/stalker_portal" + ContextPath(alternative)
  {
  }

  /** In the first branch every `/c/` in the address is dropped: the URL is
      three characters shorter per occurrence than address and context path. */
  lemma PortalUrlSlashMarkerLength(serverAddress: string, portalBaseUrl: string, alternative: bool)
    requires EndsWith(serverAddress, "/c/")
    ensures Count(serverAddress, "/c/") >= 1
    ensures |PortalUrl(serverAddress, portalBaseUrl, alternative)|
         == |serverAddress| - 3 * Count(serverAddress, "/c/") + |ContextPath(alternative)|
  {
    PortalUrlSlashMarker(serverAddress, portalBaseUrl, alternative);
    RemoveSuffixLength(serverAddress, "/c/");
  }

  /** In the second branch every `/c` in the address is dropped: the URL is
      two characters shorter per occurrence than address and context path. */
  lemma PortalUrlMarkerLength(serverAddress: string, portalBaseUrl: string, alternative: bool)
    requires !EndsWith(serverAddress, "/c/") && EndsWith(serverAddress, "/c")
    ensures Count(serverAddress, "/c") >= 1
    ensures |PortalUrl(serverAddress, portalBaseUrl, alternative)|
         == |serverAddress| - 2 * Count(serverAddress, "/c") + |ContextPath(alternative)|
  {
    PortalUrlMarker(serverAddress, portalBaseUrl, alternative);
    RemoveSuffixLength(serverAddress, "/c");
  }

  /** When the trailing `/c/` is the first occurrence of the marker, the URL is the
      address without it, followed by the context path. */
  lemma PortalUrlStripsOnlyMarkerSlash(pre: string, portalBaseUrl: string, alternative: bool)
    requires forall i :: 0 <= i < |pre| ==> !MatchesAt(pre + "/c/", "/c/", i)
    ensures PortalUrl(pre + "/c/", portalBaseUrl, alternative) == pre + ContextPath(alternative)
  {
    ReplaceOnlyTrailing(pre, "/c/", "");
    assert pre + "" == pre;
    EndsWithConcat(pre, "/c/");
    PortalUrlSlashMarker(pre + "/c/", portalBaseUrl, alternative);
  }

  /** When the trailing `/c` is the first occurrence of the marker, the URL is the
      address without it, followed by the context path. */
  lemma PortalUrlStripsOnlyMarker(pre: string, portalBaseUrl: string, alternative: bool)
    requires forall i :: 0 <= i < |pre| ==> !MatchesAt(pre + "/c", "/c", i)
    ensures PortalUrl(pre + "/c", portalBaseUrl, alternative) == pre + ContextPath(alternative)
  {
    ReplaceOnlyTrailing(pre, "/c", "");
    assert pre + "" == pre;
    EndsWithConcat(pre, "/c");
    assert !EndsWith(pre + "/c", "/c/");
    PortalUrlMarker(pre + "/c", portalBaseUrl, alternative);
  }

  // The lemmas below work on the concrete address `http://h/cdn/c`. They take
  // the marker `/c` as a parameter that their requires pins to that text,
  // rather than writing the literal: with literals the verifier evaluates
  // `Replace` on the whole constant text at once, which costs far more than
  // stepping through the occurrences one lemma at a time.

  /** Replacing the marker `/c` in `/cdn/c` removes both occurrences. */
  lemma ReplaceMarkersAround(marker: string)
    requires |marker| == 2 && marker[0] == '/' && marker[1] == 'c'
    ensures Replace(marker + ['d', 'n'] + marker, marker, "") == ['d', 'n']
  {
    var t1 := ['n'] + marker;
    var t2 := ['d'] + t1;
    ReplaceDropsHead([], marker, "");
    assert marker + [] == marker;
    ReplaceKeepsHead('n', marker, marker, "");
    ReplaceKeepsHead('d', t1, marker, "");
    ReplaceDropsHead(t2, marker, "");
    assert marker + t2 == marker + ['d', 'n'] + marker;
  }

  /** The same in `h/cdn/c`. */
  lemma ReplaceMarkersInPath(marker: string)
    requires |marker| == 2 && marker[0] == '/' && marker[1] == 'c'
    ensures Replace(['h'] + marker + ['d', 'n'] + marker, marker, "") == "hdn"
  {
    var t3 := marker + ['d', 'n'] + marker;
    ReplaceMarkersAround(marker);
    ReplaceKeepsHead('h', t3, marker, "");
    assert ['h'] + t3 == ['h'] + marker + ['d', 'n'] + marker;
  }

  /** The same after the two slashes of `//h/cdn/c`. */
  lemma ReplaceMarkersInHost(marker: string)
    requires |marker| == 2 && marker[0] == '/' && marker[1] == 'c'
    ensures Replace("//h" + marker + "dn" + marker, marker, "") == "//hdn"
  {
    var t4 := ['h'] + marker + ['d', 'n'] + marker;
    var t5 := ['/'] + t4;
    ReplaceMarkersInPath(marker);
    ReplaceKeepsHead('/', t4, marker, "");
    ReplaceKeepsHead('/', t5, marker, "");
    assert ['/'] + t5 == "//h" + marker + "dn" + marker;
  }

  /** The same for the whole address `http://h/cdn/c`. */
  lemma ReplaceMarkersInUrl(marker: string)
    requires |marker| == 2 && marker[0] == '/' && marker[1] == 'c'
    ensures Replace("http://h" + marker + "dn" + marker, marker, "") == "http://hdn"
  {
    var t6 := "//h" + marker + "dn" + marker;
    ReplaceMarkersInHost(marker);
    ReplaceKeepsPrefix("http:", t6, marker, "");
    assert "http:" + t6 == "http://h" + marker + "dn" + marker;
  }

  /** The address `http://h/cdn/c` takes the second branch. */
  lemma MarkerAddressEnds(marker: string)
    requires marker == "/c"
    ensures var address := "http://h" + marker + "dn" + marker;
              !EndsWith(address, "/c/") && EndsWith(address, "/c")
  {
    var address := "http://h" + marker + "dn" + marker;
    EndsWithConcat("http://h" + marker + "dn", marker);
    assert address[|address| - 1] == marker[1] == 'c';
    assert address[|address| - 3..][2] == address[|address| - 1];
  }

  /** Every `/c` is removed, also the one that starts the path segment `/cdn`:
      the address `http://h/cdn/c` gives `http://hdn` and the context path. */
  lemma PortalUrlRemovesEveryMarker(marker: string, portalBaseUrl: string)
    requires marker == "/c"
    ensures PortalUrl("http://h" + marker + "dn" + marker, portalBaseUrl, false) == "http://hdn" + ContextPath(false)
  {
    var address := "http://h" + marker + "dn" + marker;
    ReplaceMarkersInUrl(marker);
    MarkerAddressEnds(marker);
    PortalUrlMarker(address, portalBaseUrl, false);
  }

  /** `__get_portal_base_url`: scheme and network location of the address,
      joined by `://`; path, query and fragment are dropped. */
  function PortalBaseUrl(lib: Library, serverAddress: string): (r: string)
    ensures var parts := lib.urlsplit(serverAddress);
              && |r| == |parts.scheme| + 3 + |parts.netloc|
              && r[..|parts.scheme|] == parts.scheme
              && r[|parts.scheme|..|parts.scheme| + 3] == "://"
              && r[|parts.scheme| + 3..] == parts.netloc
  {
    var parts := lib.urlsplit(serverAddress);
    parts.scheme + "://" + parts.netloc
  }

  /** The profile directory as the host's path translation gives it. */
  function TokenPath(lib: Library, profile: string): string
  {
    lib.translatePath(profile)
  }

  // ---------------------------------------------------------------------
  // Device identity

  /** `generate_device_id` on the MAC text: the upper-cased hex text of its
      SHA-256 digest, 64 upper-case hex digits. */
  function DeviceId(lib: Library, mac: string): (r: string)
    ensures |r| == 64 && IsUpperHex(r)
  {
    UpperHexlifyAlphabet(lib.sha256(mac));
    Upper(Hexlify(lib.sha256(mac)))
  }

  /** The device id decodes back to the digest it was made from. */
  lemma DeviceIdDecodes(lib: Library, mac: string)
    ensures Unhexlify(DeviceId(lib, mac)) == Some(lib.sha256(mac))
  {
    UpperHexlifyRoundTrip(lib.sha256(mac));
  }

  /** Two MAC texts give the same device id exactly when their digests agree. */
  lemma DeviceIdIdentifiesDigest(lib: Library, mac1: string, mac2: string)
    ensures DeviceId(lib, mac1) == DeviceId(lib, mac2) <==> lib.sha256(mac1) == lib.sha256(mac2)
  {
    DeviceIdDecodes(lib, mac1);
    DeviceIdDecodes(lib, mac2);
  }

  /** `generate_serial` on the MAC text: the first 13 hex digits of its MD5
      digest, upper-cased. */
  function Serial(lib: Library, mac: string): (r: string)
    ensures |r| == 13 && IsUpperHex(r)
  {
    UpperHexlifyOddPrefix(lib.md5(mac), 6);
    Upper(Hexlify(lib.md5(mac))[..13])
  }

  /** The serial is the start of the full upper-cased MD5 text: its first 12
      digits decode to the first 6 digest bytes and the 13th is the high digit
      of the 7th byte. */
  lemma SerialDecodes(lib: Library, mac: string)
    ensures var r := Serial(lib, mac);
              && r == Upper(Hexlify(lib.md5(mac)))[..13]
              && Unhexlify(r[..12]) == Some(lib.md5(mac)[..6])
              && r[12] == UpperDigits[lib.md5(mac)[6] / 16]
  {
    UpperHexlifyOddPrefix(lib.md5(mac), 6);
  }

  /** `get_custom_thumb_path` on an addon directory: the file inside its
      `resources/media`; an absolute file name stands for itself. */
  function CustomThumbPath(addonDataPath: string, thumbFileName: string): (r: string)
    ensures thumbFileName != [] && thumbFileName[0] == '/' ==> r == thumbFileName
    ensures thumbFileName == [] || thumbFileName[0] != '/' ==>
              r == DirPrefix(addonDataPath) + "resources" + "/" + "media" + "/" + thumbFileName
  {
    JoinThree(addonDataPath, "resources", "media", thumbFileName);
    JoinAll(addonDataPath, ["resources", "media", thumbFileName])
  }

  // ---------------------------------------------------------------------
  // The first-run field

  /** Line 54: `None` becomes `True`, anything else becomes `False`. */
  function NextFirstRun(firstRun: Option<bool>): (r: Option<bool>)
    ensures r.Some?
    ensures r.value <==> firstRun.None?
  {
    Some(firstRun == None)
  }

  /** The first-run field after `n` calls of `init_globals`. */
  function FirstRunAfter(n: nat): Option<bool>
  {
    if n == 0 then None else NextFirstRun(FirstRunAfter(n - 1))
  }

  /** The field is true after the first call and after no other. */
  lemma {:induction false} FirstRunOnlyOnce(n: nat)
    ensures n >= 1 ==> FirstRunAfter(n).Some?
    ensures FirstRunAfter(n) == Some(true) <==> n == 1
  {
    if n > 1 {
      FirstRunOnlyOnce(n - 1);
    }
  }

  /** Lines 54-56: whether a call of `init_globals` that finds the first-run
      field at `previous` reloads everything: exactly when no call came before,
      or when the `change` property is set. */
  predicate Repopulates(previous: Option<bool>, change: string): (r: bool)
    ensures r <==> previous.None? || change != ""
  {
    NextFirstRun(previous) == Some(true) || change != ""
  }

  /** Call number `k` reloads exactly when it is the first call or the
      `change` property is set. */
  lemma RepopulatesOnCall(k: nat, change: string)
    requires k >= 1
    ensures Repopulates(FirstRunAfter(k - 1), change) <==> k == 1 || change != ""
  {
    FirstRunOnlyOnce(k - 1);
  }

  /** `int(sys.argv[1])`: an `IndexError` exactly when there is no second
      argument, a `ValueError` when it is not a decimal literal. */
  function HandleArgument(argv: seq<string>): (r: Result<int, PyError>)
    ensures r == Failure(IndexError) <==> |argv| < 2
    ensures r.Failure? ==> r.error in {IndexError, ValueError}
  {
    if |argv| < 2 then Failure(IndexError)
    else match ParseInt(argv[1])
      case Some(h) => Success(h)
      case None => Failure(ValueError)
  }

  /** The handle the host passes as decimal text is the one stored. */
  lemma HandleArgumentOfInt(argv: seq<string>, handle: int)
    requires |argv| >= 2 && argv[1] == IntToString(handle)
    ensures HandleArgument(argv) == Success(handle)
  {
    ParseIntRoundTrip(handle);
  }

  /** The text `'{}'.format(x)` gives for an optional string. */
  function FormatText(x: Option<string>): string
  {
    if x.Some? then x.value else "None"
  }

  /** The identity fields are all unset, or all derived from the MAC text
      inside the cookie. */
  ghost predicate IdentityAgrees(lib: Library, macCookie: Option<string>, deviceId: Option<string>,
                                 serialNumber: Option<string>)
  {
    && (macCookie.None? ==> deviceId.None? && serialNumber.None?)
    && (macCookie.Some? ==>
          var cookie := macCookie.value;
          && |cookie| >= 4 && cookie[..4] == "mac="
          && deviceId == Some(DeviceId(lib, cookie[4..]))
          && serialNumber == Some(Serial(lib, cookie[4..])))
  }

  /** A stored portal URL is the one the stored address, base URL and flag give. */
  ghost predicate PortalUrlAgrees(portalUrl: Option<string>, serverAddress: Option<string>,
                                  portalBaseUrl: Option<string>, alternative: bool)
  {
    portalUrl.Some? ==>
      && serverAddress.Some?
      && portalBaseUrl.Some?
      && portalUrl == Some(PortalUrl(serverAddress.value, portalBaseUrl.value, alternative))
  }

  // ---------------------------------------------------------------------
  // The host

  /** The host's window property store (window 10000). */
  class Window {
    var properties: map<string, string>

    constructor(properties: map<string, string>)
      ensures this.properties == properties
    {
      this.properties := properties;
    }

    /** A property that is not set reads as the empty string. */
    function GetProperty(key: string): string
      reads this
    {
      if key in properties then properties[key] else ""
    }

    method ClearProperty(key: string)
      modifies this
      ensures properties == old(properties) - {key}
    {
      properties := properties - {key};
    }
  }

  /** The host's handle on this addon: its metadata and its user settings. */
  class Addon {
    var info: map<string, string>
    var settings: map<string, string>

    constructor(info: map<string, string>, settings: map<string, string>)
      ensures this.info == info && this.settings == settings
    {
      this.info := info;
      this.settings := settings;
    }

    function GetAddonInfo(key: string): string
      reads this
    {
      if key in info then info[key] else ""
    }

    /** A setting that is not defined reads as the empty string. */
    function GetSetting(key: string): string
      reads this
    {
      if key in settings then settings[key] else ""
    }
  }

  // ---------------------------------------------------------------------
  // The configuration records

  class PortalConfig {
    var macCookie: Option<string>
    var portalUrl: Option<string>
    var deviceId: Option<string>
    var deviceId2: Option<string>
    var signature: Option<string>
    var serialNumber: Option<string>
    var portalBaseUrl: Option<string>
    var serverAddress: Option<string>
    var alternativeContextPath: bool

    constructor()
      ensures macCookie == portalUrl == deviceId == deviceId2 == None
      ensures signature == serialNumber == portalBaseUrl == serverAddress == None
      ensures !alternativeContextPath
    {
      macCookie, portalUrl, deviceId, deviceId2 := None, None, None, None;
      signature, serialNumber, portalBaseUrl, serverAddress := None, None, None, None;
      alternativeContextPath := false;
    }
  }

  class AddOnConfig {
    var url: Option<string>
    var addonId: Option<string>
    var name: Option<string>
    var handle: Option<int>
    var addonDataPath: Option<string>
    var maxPageLimit: int
    var maxRetries: int
    var tokenPath: Option<string>

    constructor()
      ensures url == addonId == name == addonDataPath == tokenPath == None
      ensures handle == None
      ensures maxPageLimit == 30 && maxRetries == 3
    {
      url, addonId, name, addonDataPath, tokenPath := None, None, None, None, None;
      handle := None;
      maxPageLimit, maxRetries := 30, 3;
    }
  }

  // ---------------------------------------------------------------------
  // The component that fills the records

  class GlobalVariables {
    const addon: Addon
    const lib: Library
    var firstRun: Option<bool>
    const addonConfig: AddOnConfig
    const portalConfig: PortalConfig

    /** The derived portal fields agree with each other: the identity fields all
        come from the MAC text inside the cookie, the second device id repeats
        the first, and the stored URL is what `get_portal_url` computes now. */
    ghost predicate Valid()
      reads this, portalConfig
    {
      var p := portalConfig;
      && p.deviceId2 == p.deviceId
      && IdentityAgrees(lib, p.macCookie, p.deviceId, p.serialNumber)
      && PortalUrlAgrees(p.portalUrl, p.serverAddress, p.portalBaseUrl, p.alternativeContextPath)
    }

    /** The portal record's fields as one value. */
    ghost function PortalFields(): PortalFieldValues
      reads this, portalConfig
    {
      var p := portalConfig;
      (p.macCookie, p.portalUrl, p.deviceId, p.deviceId2, p.signature,
       p.serialNumber, p.portalBaseUrl, p.serverAddress, p.alternativeContextPath)
    }

    /** The addon record's fields other than the URL as one value. */
    ghost function AddonFields(): AddonFieldValues
      reads this, addonConfig
    {
      var a := addonConfig;
      (a.addonId, a.name, a.handle, a.addonDataPath, a.maxPageLimit, a.maxRetries, a.tokenPath)
    }

    /** The addon fields as a populating call reads them from the host. */
    ghost predicate AddonLoaded()
      reads this, addonConfig, addon
    {
      && addonConfig.addonId == Some(addon.GetAddonInfo("id"))
      && addonConfig.name == Some(addon.GetAddonInfo("name"))
      && addonConfig.addonDataPath == Some(addon.GetAddonInfo("path"))
      && addonConfig.tokenPath == Some(TokenPath(lib, addon.GetAddonInfo("profile")))
    }

    /** The portal fields as a populating call derives them from the settings. */
    ghost predicate PortalLoaded()
      reads this, portalConfig, addon
      ensures PortalLoaded() ==> Valid()
    {
      assert ("mac=" + addon.GetSetting(MacAddressSetting))[4..] == addon.GetSetting(MacAddressSetting);
      var mac := addon.GetSetting(MacAddressSetting);
      var server := addon.GetSetting(ServerAddressSetting);
      var alternative := addon.GetSetting(AlternativeContextSetting) == "true";
      var base := PortalBaseUrl(lib, server);
      && portalConfig.macCookie == Some("mac=" + mac)
      && portalConfig.deviceId == Some(DeviceId(lib, mac))
      && portalConfig.deviceId2 == portalConfig.deviceId
      && portalConfig.signature == Some(addon.GetSetting(SignatureSetting))
      && portalConfig.serialNumber == Some(Serial(lib, mac))
      && portalConfig.alternativeContextPath == alternative
      && portalConfig.serverAddress == Some(server)
      && portalConfig.portalBaseUrl == Some(base)
      && portalConfig.portalUrl == Some(PortalUrl(server, base, alternative))
    }

    constructor(addon: Addon, lib: Library)
      ensures this.addon == addon && this.lib == lib && firstRun == None
      ensures fresh(addonConfig) && fresh(portalConfig)
      ensures addonConfig.url == addonConfig.addonId == addonConfig.name == None
      ensures addonConfig.addonDataPath == addonConfig.tokenPath == None
      ensures addonConfig.handle == None
      ensures addonConfig.maxPageLimit == 30 && addonConfig.maxRetries == 3
      ensures portalConfig.macCookie == portalConfig.portalUrl == None
      ensures portalConfig.deviceId == portalConfig.deviceId2 == None
      ensures portalConfig.signature == portalConfig.serialNumber == None
      ensures portalConfig.portalBaseUrl == portalConfig.serverAddress == None
      ensures !portalConfig.alternativeContextPath
      ensures Valid()
    {
      this.addon := addon;
      this.lib := lib;
      firstRun := None;
      addonConfig := new AddOnConfig();
      portalConfig := new PortalConfig();
    }

    /** `init_globals`: always records `argv[0]` as the addon URL; on the first
        call, or when the host's `change` property is set, clears that property
        and reloads every other field. An exception leaves the fields assigned
        before it in place. */
    method InitGlobals(argv: seq<string>, home: Window) returns (outcome: Outcome<PyError>)
      requires Valid()
      modifies this, addonConfig, portalConfig, home
      ensures Valid()
      ensures firstRun == NextFirstRun(old(firstRun))
      ensures argv == [] ==> outcome == Fail(IndexError) && unchanged(addonConfig, portalConfig, home)
      ensures argv != [] ==> addonConfig.url == Some(argv[0])
      ensures argv != [] && !Repopulates(old(firstRun), old(home.GetProperty(ChangeProperty))) ==>
                && outcome == Pass
                && unchanged(portalConfig, home)
                && unchanged(addonConfig`addonId, addonConfig`name, addonConfig`handle, addonConfig`addonDataPath)
                && unchanged(addonConfig`maxPageLimit, addonConfig`maxRetries, addonConfig`tokenPath)
      ensures argv != [] && Repopulates(old(firstRun), old(home.GetProperty(ChangeProperty))) ==>
                && home.properties == old(home.properties) - {ChangeProperty}
                && AddonLoaded()
                && unchanged(addonConfig`maxPageLimit, addonConfig`maxRetries)
      ensures argv != [] && Repopulates(old(firstRun), old(home.GetProperty(ChangeProperty))) &&
              HandleArgument(argv).Failure? ==>
                && outcome == Fail(HandleArgument(argv).error)
                && unchanged(addonConfig`handle)
                && unchanged(portalConfig)
      ensures argv != [] && Repopulates(old(firstRun), old(home.GetProperty(ChangeProperty))) &&
              HandleArgument(argv).Success? ==>
                && outcome == Pass
                && addonConfig.handle == Some(HandleArgument(argv).value)
                && PortalLoaded()
    {
      firstRun := NextFirstRun(firstRun);
      if argv == [] {
        return Fail(IndexError);
      }
      addonConfig.url := Some(argv[0]);
      if firstRun == Some(true) || home.GetProperty(ChangeProperty) != "" {
        outcome := Populate(argv, home);
      } else {
        outcome := Pass;
      }
    }

    /** Lines 57-73 of `init_globals`, the reload: clears the `change` property,
        then assigns the fields in source order; when `int(sys.argv[1])` raises,
        the addon identity and token path are already assigned and the handle
        and portal fields are not. */
    method Populate(argv: seq<string>, home: Window) returns (outcome: Outcome<PyError>)
      requires Valid()
      modifies home, portalConfig, addonConfig`handle
      modifies addonConfig`addonId, addonConfig`name, addonConfig`addonDataPath, addonConfig`tokenPath
      ensures Valid()
      ensures home.properties == old(home.properties) - {ChangeProperty}
      ensures AddonLoaded()
      ensures HandleArgument(argv).Failure? ==>
                && outcome == Fail(HandleArgument(argv).error)
                && unchanged(addonConfig`handle)
                && unchanged(portalConfig)
      ensures HandleArgument(argv).Success? ==>
                && outcome == Pass
                && addonConfig.handle == Some(HandleArgument(argv).value)
                && PortalLoaded()
    {
      LoadAddonInfo(home);
      assert Valid();
      var handle := HandleArgument(argv);
      if handle.Failure? {
        return Fail(handle.error);
      }
      addonConfig.handle := Some(handle.value);
      assert AddonLoaded();
      LoadPortal();
      outcome := Pass;
    }

    /** Lines 58-65 of `init_globals`: clears the `change` property and reads
        the addon's id, name, installation path and profile directory. */
    method LoadAddonInfo(home: Window)
      modifies home, addonConfig`addonId, addonConfig`name, addonConfig`addonDataPath, addonConfig`tokenPath
      ensures home.properties == old(home.properties) - {ChangeProperty}
      ensures AddonLoaded()
    {
      home.ClearProperty(ChangeProperty);
      addonConfig.addonId := Some(addon.GetAddonInfo("id"));
      addonConfig.name := Some(addon.GetAddonInfo("name"));
      addonConfig.addonDataPath := Some(addon.GetAddonInfo("path"));
      addonConfig.tokenPath := Some(TokenPath(lib, addon.GetAddonInfo("profile")));
    }

    /** Lines 67-73 of `init_globals`: every portal field, from the settings. */
    method LoadPortal()
      modifies portalConfig
      ensures PortalLoaded()
    {
      LoadIdentity();
      SetPortalAddresses();
    }

    /** Lines 67-72 of `init_globals`: the cookie, both device ids, the
        signature, the serial and the context-path flag, from the settings. */
    method LoadIdentity()
      modifies portalConfig`macCookie, portalConfig`deviceId, portalConfig`deviceId2
      modifies portalConfig`signature, portalConfig`serialNumber, portalConfig`alternativeContextPath
      ensures portalConfig.macCookie == Some("mac=" + addon.GetSetting(MacAddressSetting))
      ensures portalConfig.deviceId == Some(DeviceId(lib, addon.GetSetting(MacAddressSetting)))
      ensures portalConfig.deviceId2 == portalConfig.deviceId
      ensures portalConfig.signature == Some(addon.GetSetting(SignatureSetting))
      ensures portalConfig.serialNumber == Some(Serial(lib, addon.GetSetting(MacAddressSetting)))
      ensures portalConfig.alternativeContextPath <==> addon.GetSetting(AlternativeContextSetting) == "true"
    {
      var mac := addon.GetSetting(MacAddressSetting);
      portalConfig.macCookie := Some("mac=" + mac);
      portalConfig.deviceId := Some(GenerateDeviceId());
      portalConfig.deviceId2 := portalConfig.deviceId;
      portalConfig.signature := Some(addon.GetSetting(SignatureSetting));
      portalConfig.serialNumber := Some(GenerateSerial());
      portalConfig.alternativeContextPath := addon.GetSetting(AlternativeContextSetting) == "true";
    }

    /** `__set_portal_addresses`: reads the server address and stores the base
        URL and the portal URL derived from it; the other fields stay as they are. */
    method SetPortalAddresses()
      modifies portalConfig`serverAddress, portalConfig`portalBaseUrl, portalConfig`portalUrl
      ensures portalConfig.serverAddress == Some(addon.GetSetting(ServerAddressSetting))
      ensures portalConfig.portalBaseUrl == Some(PortalBaseUrl(lib, portalConfig.serverAddress.value))
      ensures portalConfig.portalUrl == Some(PortalUrl(portalConfig.serverAddress.value,
                                                       portalConfig.portalBaseUrl.value,
                                                       portalConfig.alternativeContextPath))
      ensures GetPortalUrl() == Success(portalConfig.portalUrl.value)
    {
      portalConfig.serverAddress := Some(addon.GetSetting(ServerAddressSetting));
      portalConfig.portalBaseUrl := Some(PortalBaseUrl(lib, portalConfig.serverAddress.value));
      var url := GetPortalUrl();
      portalConfig.portalUrl := Some(url.value);
    }

    /** `get_portal_url` on the stored fields: a `None` base URL fails first
        (line 101), then a `None` server address (line 102). Once a portal URL
        is stored, this returns exactly that URL. */
    function GetPortalUrl(): (r: Result<string, PyError>)
      reads this, portalConfig
      ensures portalConfig.portalBaseUrl.None? <==> r == Failure(TypeError)
      ensures r.Success? <==> portalConfig.portalBaseUrl.Some? && portalConfig.serverAddress.Some?
      ensures Valid() && portalConfig.portalUrl.Some? ==> r == Success(portalConfig.portalUrl.value)
    {
      var p := portalConfig;
      if p.portalBaseUrl.None? then Failure(TypeError)
      else if p.serverAddress.None? then Failure(AttributeError)
      else Success(PortalUrl(p.serverAddress.value, p.portalBaseUrl.value, p.alternativeContextPath))
    }

    /** `generate_device_id`: hashes the `mac_address` setting exactly as stored,
        without trimming. */
    function GenerateDeviceId(): (r: string)
      reads addon
      ensures |r| == 64 && IsUpperHex(r)
      ensures Unhexlify(r) == Some(lib.sha256(addon.GetSetting(MacAddressSetting)))
    {
      DeviceIdDecodes(lib, addon.GetSetting(MacAddressSetting));
      DeviceId(lib, addon.GetSetting(MacAddressSetting))
    }

    /** `generate_serial`: hashes the `mac_address` setting exactly as stored,
        without trimming. */
    function GenerateSerial(): (r: string)
      reads addon
      ensures |r| == 13 && IsUpperHex(r)
      ensures Unhexlify(r[..12]) == Some(lib.md5(addon.GetSetting(MacAddressSetting))[..6])
    {
      SerialDecodes(lib, addon.GetSetting(MacAddressSetting));
      Serial(lib, addon.GetSetting(MacAddressSetting))
    }

    /** `get_handle` */
    function GetHandle(): (h: Option<int>)
      reads this, addonConfig
      ensures h == addonConfig.handle
    {
      addonConfig.handle
    }

    /** `get_custom_thumb_path`: a `None` addon directory raises. */
    function GetCustomThumbPath(thumbFileName: string): (r: Result<string, PyError>)
      reads this, addonConfig
      ensures addonConfig.addonDataPath.None? <==> r == Failure(TypeError)
      ensures addonConfig.addonDataPath.Some? ==>
                r == Success(CustomThumbPath(addonConfig.addonDataPath.value, thumbFileName))
    {
      if addonConfig.addonDataPath.None? then Failure(TypeError)
      else Success(CustomThumbPath(addonConfig.addonDataPath.value, thumbFileName))
    }

    /** `get_plugin_url`: the addon URL (`None` printed as such), a `?`, and the
        encoded query. */
    function GetPluginUrl(params: seq<(string, string)>): (r: string)
      reads this, addonConfig
      ensures var u := FormatText(addonConfig.url);
                && |r| == |u| + 1 + |lib.urlencode(params)|
                && r[..|u|] == u && r[|u|] == '?' && r[|u| + 1..] == lib.urlencode(params)
    {
      FormatText(addonConfig.url) + "?" + lib.urlencode(params)
    }
  }

  /** Every field of `PortalConfig`, in declaration order. */
  type PortalFieldValues = (Option<string>, Option<string>, Option<string>, Option<string>, Option<string>,
                            Option<string>, Option<string>, Option<string>, bool)

  /** Every field of `AddOnConfig` except the URL, in declaration order. */
  type AddonFieldValues = (Option<string>, Option<string>, Option<int>, Option<string>, int, int, Option<string>)

  /** Two calls in a row without the `change` property: the second refreshes
      only the addon URL, so together they have the effect of the first call
      alone. A first-run value that is already set means no reload at all; a
      missing one means one reload, complete when `argv[1]` parses and stopped
      before the handle and the portal fields when it does not. */
  method InitTwice(g: GlobalVariables, argv1: seq<string>, argv2: seq<string>, home: Window)
      returns (first: Outcome<PyError>, second: Outcome<PyError>)
    requires g.Valid() && argv1 != [] && argv2 != []
    requires ChangeProperty !in home.properties
    modifies g, g.addonConfig, g.portalConfig, home
    ensures g.Valid() && g.firstRun == Some(false)
    ensures second == Pass && g.addonConfig.url == Some(argv2[0])
    ensures home.properties == old(home.properties)
    ensures old(g.firstRun).Some? ==>
              && first == Pass
              && g.PortalFields() == old(g.PortalFields())
              && g.AddonFields() == old(g.AddonFields())
    ensures old(g.firstRun).None? ==> g.AddonLoaded()
    ensures old(g.firstRun).None? && HandleArgument(argv1).Success? ==>
              && first == Pass
              && g.PortalLoaded()
              && g.addonConfig.handle == Some(HandleArgument(argv1).value)
    ensures old(g.firstRun).None? && HandleArgument(argv1).Failure? ==>
              && first == Fail(HandleArgument(argv1).error)
              && g.PortalFields() == old(g.PortalFields())
              && g.addonConfig.handle == old(g.addonConfig.handle)
  {
    first := g.InitGlobals(argv1, home);
    second := g.InitGlobals(argv2, home);
  }
}
