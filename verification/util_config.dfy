/**
  `utilities.ConfigReader`: typed getters over the loaded `config.properties`.
  The lenient integer getter falls back to a default; the `long` getters have
  no default and throw; the boolean getters read anything but "true" as false.
 */
module UtilConfig {
  import opened JavaLang
  import opened JavaText

  /** The loaded `java.util.Properties`: a key is either absent (`null`) or maps to a string. */
  type Properties = map<string, string>

  const PlatformKey: string := "platform"
  const ServerUrlKey: string := "appium.server.url"
  const ServerIpKey: string := "appium.server.ip"
  const ServerPortKey: string := "appium.server.port"
  const AutomationNameKey: string := "device.automation.name"
  const AndroidPackageKey: string := "android.app.package"
  const AndroidActivityKey: string := "android.app.activity"
  const DeviceNameKey: string := "device.name"
  const UdidKey: string := "device.udid"
  const EmulatorEnabledKey: string := "emulator.enabled"
  const AvdKey: string := "emulator.avd"
  const EmulatorPlatformVersionKey: string := "emulator.platform.version"
  const HeadlessKey: string := "emulator.headless"
  const ImplicitWaitKey: string := "implicit.wait"
  const CommandTimeoutKey: string := "command.timeout"
  const ForceAppLaunchKey: string := "forceAppLaunch"
  const ClearAppDataKey: string := "clear.app.data"
  const IOSBundleIdKey: string := "ios.bundle.id"
  const IOSAppKey: string := "ios.app"
  const IOSDeviceNameKey: string := "ios.device.name"
  const IOSPlatformVersionKey: string := "ios.platform.version"
  const IOSUdidKey: string := "ios.udid"
  const IOSSimulatorDeviceKey: string := "ios.simulator.device"
  const IOSAutoAcceptAlertsKey: string := "ios.auto.accept.alerts"
  const IOSShowLogKey: string := "ios.show.ios.log"

  /** Port the server scan starts from when the configuration does not give a usable one. */
  const DefaultServerPort: Int32 := 4723

  /**
    `getProperty(key)`: the stored string, or `null` when the key is absent.
    The same absent-is-`null` lookup as `Registry.Get`; callers see the body.
   */
  function GetProperty(p: Properties, key: string): Option<string>
  {
    if key in p then Some(p[key]) else None
  }

  /**
    `getIntProperty(key, defaultValue)`: never throws; any value other than the
    default is the decimal reading of the stored string.
   */
  function GetIntProperty(p: Properties, key: string, default: Int32): (r: Int32)
    ensures key !in p ==> r == default
    ensures key in p && ParseInt(p[key]).None? ==> r == default
    ensures key in p && ParseInt(p[key]).Some? ==> r == ParseInt(p[key]).value
    ensures r != default ==> key in p && DecimalValue(p[key]) == Some(r as int)
  {
    match GetProperty(p, key)
    case None => default
    case Some(value) =>
      match ParseInt(value)
      case Some(n) => n
      case None => default
  }

  /** Storing `Integer.toString(n)` under a key makes the lenient getter return `n`, whatever the default. */
  lemma GetIntPropertyReadsBack(p: Properties, key: string, n: Int32, default: Int32)
    ensures GetIntProperty(p[key := IntToString(n)], key, default) == n
  {
    ParseIntToString(n);
  }

  /** A stored value with blanks around the digits is malformed for `parseInt`, so the default is returned. */
  lemma GetIntPropertyPaddedIsDefault(p: Properties, key: string, default: Int32)
    requires key in p && p[key] != [] && (IsBlankChar(p[key][0]) || IsBlankChar(p[key][|p[key]| - 1]))
    ensures GetIntProperty(p, key, default) == default
  {
    if DecimalValue(p[key]).Some? {
      ParsedNumeralHasNoBlanks(p[key]);
    }
  }

  /** `getIPPort()`: the configured server port, or 4723 when it is absent or not a valid `int`. */
  function GetIPPort(p: Properties): (r: Int32)
    ensures ServerPortKey !in p ==> r == 4723
    ensures ServerPortKey in p && ParseInt(p[ServerPortKey]).None? ==> r == 4723
    ensures ServerPortKey in p && ParseInt(p[ServerPortKey]).Some? ==> r == ParseInt(p[ServerPortKey]).value
  {
    GetIntProperty(p, ServerPortKey, DefaultServerPort)
  }

  /**
    `getIOSAppPath()`: a value starting with "~/" is re-rooted at the home
    directory (`Paths.get(home, rest)`); any other value is returned unchanged;
    an absent value throws `NullPointerException` at `path.startsWith`.
   */
  function GetIOSAppPath(p: Properties, home: string): (r: Result<string>)
    ensures IOSAppKey !in p ==> r == Throw(NullPointer)
    ensures IOSAppKey in p && !StartsWith(p[IOSAppKey], "~/") ==> r == Ok(p[IOSAppKey])
    ensures IOSAppKey in p && StartsWith(p[IOSAppKey], "~/") ==> r == JoinPath(home, p[IOSAppKey][2..])
  {
    match GetProperty(p, IOSAppKey)
    case None => Throw(NullPointer)
    case Some(path) =>
      if StartsWith(path, "~/") then JoinPath(home, path[2..]) else Ok(path)
  }

  /** With a clean absolute home directory, "~/rest" becomes "home/rest" and the tilde is gone. */
  lemma IOSAppPathExpandsTilde(p: Properties, home: string, rest: string)
    requires IOSAppKey in p && p[IOSAppKey] == "~/" + rest
    requires home != [] && home[0] == '/' && home[|home| - 1] != '/'
    requires rest != [] && rest[0] != '/' && rest[|rest| - 1] != '/'
    requires '\0' !in home && '\0' !in rest
    requires forall i :: 0 <= i < |home| - 1 ==> !(home[i] == '/' && home[i + 1] == '/')
    requires forall i :: 0 <= i < |rest| - 1 ==> !(rest[i] == '/' && rest[i + 1] == '/')
    ensures GetIOSAppPath(p, home) == Ok(home + "/" + rest)
    ensures !StartsWith(GetIOSAppPath(p, home).value, "~/")
  {
    var path := home + "/" + rest;
    var r := GetIOSAppPath(p, home);
    assert r == JoinPath(home, rest) by {
      assert StartsWith(p[IOSAppKey], "~/");
      assert p[IOSAppKey][2..] == rest;
    }
    JoinCleanPaths(home, rest);
    assert r == Ok(path);
    assert path[..2] != "~/" by {
      assert path[..2][0] == path[0] == '/';
    }
  }

  /**
    The boolean getters (`getEmulatorEnabled`, `isHeadless`, `getForceAppLaunch`,
    `getClearAppData`, `getIOSAutoAcceptAlerts`, `getShowIOSLog`):
    `Boolean.parseBoolean(getProperty(key))`.
   */
  function GetBoolean(p: Properties, key: string): (r: bool)
    ensures key !in p ==> !r
  {
    ParseBoolean(GetProperty(p, key))
  }

  /** A boolean getter is true exactly when the stored value is "true" in some mix of cases. */
  lemma GetBooleanTrueIff(p: Properties, key: string)
    ensures GetBoolean(p, key) <==>
      key in p && |p[key]| == 4
      && (p[key][0] == 't' || p[key][0] == 'T') && (p[key][1] == 'r' || p[key][1] == 'R')
      && (p[key][2] == 'u' || p[key][2] == 'U') && (p[key][3] == 'e' || p[key][3] == 'E')
  {
    if key in p {
      ParseBooleanTrueIff(p[key]);
    }
  }

  /**
    `getImplicitWait()` / `getCommandTimeout()`: `Long.parseLong(getProperty(key))`
    with no default; an absent or malformed value throws `NumberFormatException`.
   */
  function GetLongRequired(p: Properties, key: string): (r: Result<Int64>)
    ensures r.Ok? <==> key in p && ParseLong(p[key]).Some?
    ensures r.Ok? ==> DecimalValue(p[key]) == Some(r.value as int)
    ensures r.Throw? ==> r.exc.kind == NumberFormatException && r.exc.cause.None?
  {
    match GetProperty(p, key)
    case None => Throw(NumberFormatNull)
    case Some(value) =>
      match ParseLong(value)
      case Some(n) => Ok(n)
      case None => Throw(NumberFormat(value))
  }

  /** `getImplicitWait()`: the "implicit.wait" value as a `long`, or `NumberFormatException`. */
  function GetImplicitWait(p: Properties): (r: Result<Int64>)
    ensures r.Ok? <==> "implicit.wait" in p && ParseLong(p["implicit.wait"]).Some?
    ensures r.Ok? ==> r.value == ParseLong(p["implicit.wait"]).value
    ensures r.Throw? ==> r.exc.kind == NumberFormatException
  {
    GetLongRequired(p, ImplicitWaitKey)
  }

  /** `getCommandTimeout()`: the "command.timeout" value as a `long`, or `NumberFormatException`. */
  function GetCommandTimeout(p: Properties): (r: Result<Int64>)
    ensures r.Ok? <==> "command.timeout" in p && ParseLong(p["command.timeout"]).Some?
    ensures r.Ok? ==> r.value == ParseLong(p["command.timeout"]).value
    ensures r.Throw? ==> r.exc.kind == NumberFormatException
  {
    GetLongRequired(p, CommandTimeoutKey)
  }

  /**
    Where the key is absent or its value is no numeral at all, the lenient
    `int` getter substitutes its default while the `long` getters throw: an
    absent or malformed timeout is an error, not a fallback.
   */
  lemma LongGettersHaveNoDefault(p: Properties, key: string, default: Int32)
    requires key !in p || DecimalValue(p[key]).None?
    ensures GetIntProperty(p, key, default) == default
    ensures GetLongRequired(p, key).Throw?
    ensures key == CommandTimeoutKey ==> GetCommandTimeout(p).Throw?
    ensures key == ImplicitWaitKey ==> GetImplicitWait(p).Throw?
  {
  }

  /**
    A numeral beyond the `int` range but within the `long` range is read by the
    `long` getters, while the lenient `int` getter falls back to its default.
   */
  lemma WideValueOnlyReadAsLong(p: Properties, key: string, default: Int32)
    requires key in p && DecimalValue(p[key]).Some?
    requires var v := DecimalValue(p[key]).value; (v < MinInt || MaxInt < v) && MinLong <= v <= MaxLong
    ensures GetIntProperty(p, key, default) == default
    ensures GetLongRequired(p, key) == Ok(DecimalValue(p[key]).value as Int64)
  {
  }

  /** Storing `Long.toString(n)` makes the `long` getters return `n`. */
  lemma GetLongRequiredReadsBack(p: Properties, key: string, n: Int64)
    ensures GetLongRequired(p[key := IntToString(n)], key) == Ok(n)
  {
    ParseLongToString(n);
  }
}
