/** Capability resolution in `createDriver`: pick the requested platform profile out of the
    parsed catalog and build the capability record that is sent to the remote host. */
module Capabilities {
  import opened Wrappers

  /** One entry of the catalog's `platforms` list. A key missing from the entry is `None`. */
  datatype PlatformEntry = PlatformEntry(
    platformName: Option<string>,
    deviceName: Option<string>,
    platformVersion: Option<string>,
    app: Option<string>)

  /** The parsed catalog: two labels and the list of platform profiles. */
  datatype Config = Config(
    projectName: Option<string>,
    buildName: Option<string>,
    platforms: seq<PlatformEntry>)

  /** The two credential variables of the process environment; either may be unset. */
  datatype Credentials = Credentials(userName: Option<string>, accessKey: Option<string>)

  /** The vendor options object, sent under the key `bstack:options`. */
  datatype VendorOptions = VendorOptions(
    projectName: Option<string>,
    buildName: Option<string>,
    sessionName: string,
    userName: Option<string>,
    accessKey: Option<string>)

  /** The capability object; the comments give each field's key in the object sent. */
  datatype CapabilityRecord = CapabilityRecord(
    platformName: string,              // platformName
    deviceName: Option<string>,        // appium:deviceName
    platformVersion: Option<string>,   // appium:platformVersion
    app: Option<string>,               // appium:app
    automationName: string,            // appium:automationName
    options: VendorOptions)            // bstack:options

  /** The platform requested when `createDriver` is called without an argument. */
  const DefaultPlatform: string := "android"

  const AndroidEngine: string := "UiAutomator2"
  const OtherEngine: string := "XCUITest"

  const SessionSuffix: string := " Test Session"

  /** The top-level keys of the capability object, in the order the source writes them. */
  const CapabilityKeys: seq<string> :=
    ["platformName", "appium:deviceName", "appium:platformVersion", "appium:app",
     "appium:automationName", "bstack:options"]

  /** The capability names defined by the W3C WebDriver recommendation, section 7
      (Capabilities); every other name must be an extension capability. */
  const StandardCapabilities: seq<string> :=
    ["acceptInsecureCerts", "browserName", "browserVersion", "pageLoadStrategy", "platformName",
     "proxy", "setWindowRect", "strictFileInteractability", "timeouts", "unhandledPromptBehavior"]

  /** An extension capability name in the sense of the W3C WebDriver recommendation, section 7:
      a non-empty vendor prefix, a colon, then the vendor's own name. */
  predicate IsExtensionName(key: string)
  {
    exists i :: 0 < i < |key| - 1 && key[i] == ':'
  }

  /** The `find` predicate: strict equality of the entry's `platformName` with the request. */
  predicate Selects(entry: PlatformEntry, platformType: string)
  {
    entry.platformName == Some(platformType)
  }

  /** `platforms.find(p => p.platformName === platformType)`, as the index of the entry found:
      the first entry in list order that the predicate selects, or none at all. */
  function FirstMatch(platforms: seq<PlatformEntry>, platformType: string): (r: Option<nat>)
    ensures r.None? <==> forall i :: 0 <= i < |platforms| ==> !Selects(platforms[i], platformType)
    ensures r.Some? ==>
      && r.value < |platforms|
      && Selects(platforms[r.value], platformType)
      && forall j :: 0 <= j < r.value ==> !Selects(platforms[j], platformType)
  {
    if |platforms| == 0 then None
    else if Selects(platforms[0], platformType) then Some(0)
    else match FirstMatch(platforms[1..], platformType)
      case None => None
      case Some(i) => Some(i + 1)
  }

  /** The message of the error thrown when no profile matches. */
  function NotFoundMessage(platformType: string): (r: string)
  {
    "Platform '" + platformType + "' not found in browserstack.yml"
  }

  /** The engine chosen for a platform: one for "android", the other for every other name. */
  function AutomationName(platformName: string): (r: string)
    ensures r == AndroidEngine <==> platformName == "android"
    ensures r == OtherEngine <==> platformName != "android"
  {
    if platformName == "android" then AndroidEngine else OtherEngine
  }

  /** The capability object built from the selected entry, whose name is `platformName`. */
  function Build(config: Config, entry: PlatformEntry, platformName: string, creds: Credentials): (r: CapabilityRecord)
  {
    CapabilityRecord(
      platformName, entry.deviceName, entry.platformVersion, entry.app,
      AutomationName(platformName),
      VendorOptions(config.projectName, config.buildName, platformName + SessionSuffix,
                    creds.userName, creds.accessKey))
  }

  /** The pure part of `createDriver`: look the request up and build its capabilities,
      or fail with the source's message when the catalog has no such platform. */
  function Resolve(config: Config, platformType: string, creds: Credentials): (r: Result<CapabilityRecord, string>)
    ensures r.Failure? <==>
      forall i :: 0 <= i < |config.platforms| ==> !Selects(config.platforms[i], platformType)
    ensures r.Failure? ==> r.error == NotFoundMessage(platformType)
    ensures r.Success? ==>
      var entry := config.platforms[FirstMatch(config.platforms, platformType).value];
      && r.value.platformName == platformType
      && r.value.deviceName == entry.deviceName
      && r.value.platformVersion == entry.platformVersion
      && r.value.app == entry.app
      && (r.value.automationName == AndroidEngine <==> platformType == "android")
      && (r.value.automationName == OtherEngine <==> platformType != "android")
      && r.value.options.projectName == config.projectName
      && r.value.options.buildName == config.buildName
      && r.value.options.sessionName == platformType + " Test Session"
      && r.value.options.userName == creds.userName
      && r.value.options.accessKey == creds.accessKey
  {
    match FirstMatch(config.platforms, platformType)
    case None => Failure(NotFoundMessage(platformType))
    case Some(i) => Success(Build(config, config.platforms[i], config.platforms[i].platformName.value, creds))
  }

  /** When several profiles carry the requested name, the earliest one is used: the fields
      copied from the catalog are those of the entry at index `i`, the first that matches. */
  lemma FirstProfileWins(config: Config, platformType: string, creds: Credentials, i: nat)
    requires i < |config.platforms| && Selects(config.platforms[i], platformType)
    requires forall j :: 0 <= j < i ==> !Selects(config.platforms[j], platformType)
    ensures Resolve(config, platformType, creds).Success?
    ensures Resolve(config, platformType, creds).value.deviceName == config.platforms[i].deviceName
    ensures Resolve(config, platformType, creds).value.platformVersion == config.platforms[i].platformVersion
    ensures Resolve(config, platformType, creds).value.app == config.platforms[i].app
  {
  }

  /** Entries appended after a matching profile never change which profile is found. */
  lemma {:induction false} LaterEntriesIgnored(front: seq<PlatformEntry>, back: seq<PlatformEntry>, platformType: string)
    requires FirstMatch(front, platformType).Some?
    ensures FirstMatch(front + back, platformType) == FirstMatch(front, platformType)
  {
    if Selects(front[0], platformType) {
      assert (front + back)[0] == front[0];
    } else {
      assert (front + back)[1..] == front[1..] + back;
      LaterEntriesIgnored(front[1..], back, platformType);
    }
  }

  /** A property value of the object sent: a string, `undefined`, or a nested object. */
  datatype Value = Text(text: string) | Undefined | Nested(fields: seq<(string, Value)>)

  /** A copied property: its string, or `undefined` when the key was missing. */
  function Copied(v: Option<string>): (r: Value)
    ensures r.Text? <==> v.Some?
    ensures v.Some? ==> r.text == v.value
    ensures v.None? ==> r == Undefined
  {
    match v
    case Some(text) => Text(text)
    case None => Undefined
  }

  /** The value stored under `key` in a list of properties. The keys of every object built
      here are distinct, so which duplicate would win never arises. */
  function Lookup(fields: seq<(string, Value)>, key: string): (r: Option<Value>)
    ensures r.None? <==> forall k :: 0 <= k < |fields| ==> fields[k].0 != key
    ensures r.Some? ==> exists k :: 0 <= k < |fields| && fields[k] == (key, r.value)
  {
    if |fields| == 0 then None
    else if fields[0].0 == key then Some(fields[0].1)
    else Lookup(fields[1..], key)
  }

  /** The keys of the `bstack:options` object, in the order the source writes them. */
  const VendorOptionKeys: seq<string> := ["projectName", "buildName", "sessionName", "userName", "accessKey"]

  /** The `bstack:options` object as the source writes it. */
  function VendorObject(v: VendorOptions): (f: seq<(string, Value)>)
    ensures |f| == |VendorOptionKeys| && forall k :: 0 <= k < |f| ==> f[k].0 == VendorOptionKeys[k]
  {
    [("projectName", Copied(v.projectName)),
     ("buildName", Copied(v.buildName)),
     ("sessionName", Text(v.sessionName)),
     ("userName", Copied(v.userName)),
     ("accessKey", Copied(v.accessKey))]
  }

  /** The capability object as the source writes it: its keys in order, each with its value. */
  function Object(c: CapabilityRecord): (o: seq<(string, Value)>)
    ensures |o| == |CapabilityKeys| && forall k :: 0 <= k < |o| ==> o[k].0 == CapabilityKeys[k]
    ensures o[5].1 == Nested(VendorObject(c.options))
  {
    [("platformName", Text(c.platformName)),
     ("appium:deviceName", Copied(c.deviceName)),
     ("appium:platformVersion", Copied(c.platformVersion)),
     ("appium:app", Copied(c.app)),
     ("appium:automationName", Text(c.automationName)),
     ("bstack:options", Nested(VendorObject(c.options)))]
  }

  /** A key that no earlier property carries is looked up to its own value. */
  lemma {:induction false} LookupFirst(fields: seq<(string, Value)>, k: nat)
    requires k < |fields|
    requires forall j :: 0 <= j < k ==> fields[j].0 != fields[k].0
    ensures Lookup(fields, fields[k].0) == Some(fields[k].1)
  {
    if k > 0 {
      LookupFirst(fields[1..], k - 1);
    }
  }

  /** `platformName` and `appium:automationName` hold the record's name and engine. */
  lemma ObjectFields(c: CapabilityRecord)
    ensures Lookup(Object(c), "platformName") == Some(Text(c.platformName))
    ensures Lookup(Object(c), "appium:automationName") == Some(Text(c.automationName))
  {
    var o := Object(c);
    assert o[0].0 == "platformName" && o[4].0 == "appium:automationName";
    // The top-level keys have pairwise different lengths.
    assert |o[0].0| == 12 && |o[1].0| == 17 && |o[2].0| == 22 && |o[3].0| == 10 && |o[4].0| == 21;
    LookupFirst(o, 0);
    LookupFirst(o, 4);
  }

  /** The three keys copied from the catalog entry hold the entry's values, or `undefined`. */
  lemma ObjectCopiedFields(c: CapabilityRecord)
    ensures Lookup(Object(c), "appium:deviceName") == Some(Copied(c.deviceName))
    ensures Lookup(Object(c), "appium:platformVersion") == Some(Copied(c.platformVersion))
    ensures Lookup(Object(c), "appium:app") == Some(Copied(c.app))
  {
    var o := Object(c);
    assert o[1].0 == "appium:deviceName" && o[2].0 == "appium:platformVersion" && o[3].0 == "appium:app";
    assert |o[0].0| == 12 && |o[1].0| == 17 && |o[2].0| == 22 && |o[3].0| == 10;
    LookupFirst(o, 1);
    LookupFirst(o, 2);
    LookupFirst(o, 3);
  }

  /** The `bstack:options` object holds the two catalog labels, the session name and the two
      credentials as copied. */
  lemma VendorFields(v: VendorOptions)
    ensures Lookup(VendorObject(v), "projectName") == Some(Copied(v.projectName))
    ensures Lookup(VendorObject(v), "buildName") == Some(Copied(v.buildName))
    ensures Lookup(VendorObject(v), "sessionName") == Some(Text(v.sessionName))
    ensures Lookup(VendorObject(v), "userName") == Some(Copied(v.userName))
    ensures Lookup(VendorObject(v), "accessKey") == Some(Copied(v.accessKey))
  {
    var f := VendorObject(v);
    assert f[0].0 == "projectName" && f[1].0 == "buildName";
    assert f[2].0 == "sessionName" && f[3].0 == "userName" && f[4].0 == "accessKey";
    assert |f[0].0| == 11 && |f[1].0| == 9 && |f[2].0| == 11 && |f[3].0| == 8 && |f[4].0| == 9;
    assert f[0].0[0] != f[2].0[0];
    assert f[1].0[0] != f[4].0[0];
    LookupFirst(f, 0);
    LookupFirst(f, 1);
    LookupFirst(f, 2);
    LookupFirst(f, 3);
    LookupFirst(f, 4);
  }

  /** The hand-listed keys are standard capability names or vendor-prefixed extension names. */
  lemma CapabilityKeysWellFormed()
    ensures forall k :: 0 <= k < |CapabilityKeys| ==>
      CapabilityKeys[k] in StandardCapabilities || IsExtensionName(CapabilityKeys[k])
    ensures forall k :: 1 <= k < |CapabilityKeys| ==> IsExtensionName(CapabilityKeys[k])
  {
    assert CapabilityKeys[0] == StandardCapabilities[4];
    assert CapabilityKeys[1][6] == ':';
    assert CapabilityKeys[2][6] == ':';
    assert CapabilityKeys[3][6] == ':';
    assert CapabilityKeys[4][6] == ':';
    assert CapabilityKeys[5][6] == ':';
  }

  /** Every key of the capability object is either a standard capability name or a
      vendor-prefixed extension name, and every key but `platformName` is an extension name. */
  lemma ObjectKeysWellFormed(c: CapabilityRecord)
    ensures forall k :: 0 <= k < |Object(c)| ==>
      Object(c)[k].0 in StandardCapabilities || IsExtensionName(Object(c)[k].0)
    ensures forall k :: 1 <= k < |Object(c)| ==> IsExtensionName(Object(c)[k].0)
  {
    CapabilityKeysWellFormed();
  }

  /** The object sent for a resolved request carries `appium:automationName` set to
      `UiAutomator2` exactly when the platform is `android`, and to `XCUITest` otherwise. */
  lemma ResolvedObjectEngine(config: Config, platformType: string, creds: Credentials)
    requires Resolve(config, platformType, creds).Success?
    ensures var o := Object(Resolve(config, platformType, creds).value);
      Lookup(o, "appium:automationName") ==
        Some(Text(if platformType == "android" then "UiAutomator2" else "XCUITest"))
  {
    ObjectFields(Resolve(config, platformType, creds).value);
  }
}
