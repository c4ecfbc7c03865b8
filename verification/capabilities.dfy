/**
  The capability records `DriverFactory` builds from the configuration before
  it opens a session: `UiAutomator2Options` for Android (`createAndroidDriver`,
  `setupAndroidEmulator`, `setupRealAndroidDevice`) and `XCUITestOptions` for
  iOS (`createIOSDriver`, `setupIOSSimulator`, `setupRealIOSDevice`).
  A string capability set from an absent key is `None`: the option is not set.
 */
module Capabilities {
  import opened JavaLang
  import opened JavaText
  import opened UtilConfig

  /** `setAvdLaunchTimeout` / `setAvdReadyTimeout`, in seconds. */
  const AvdTimeoutSeconds: int := 180

  /** The device part of the Android options, chosen by `emulator.enabled`. */
  datatype AndroidDevice =
    | AndroidEmulator(deviceName: Option<string>, avd: Option<string>, platformVersion: Option<string>,
                      avdLaunchTimeout: int, avdReadyTimeout: int, headless: bool)
    | AndroidRealDevice(deviceName: Option<string>, udid: Option<string>)

  datatype AndroidOptions = AndroidOptions(
    platformName: string,
    automationName: Option<string>,
    appPackage: Option<string>,
    appActivity: Option<string>,
    noReset: bool,
    fullReset: bool,
    autoGrantPermissions: bool,
    newCommandTimeout: Int64,
    forceAppLaunch: bool,
    device: AndroidDevice)

  /** The device part of the iOS options, chosen by `emulator.enabled`. */
  datatype IOSDevice =
    | IOSSimulator(deviceName: Option<string>, platformVersion: Option<string>, headless: bool)
    | IOSRealDevice(deviceName: Option<string>, udid: Option<string>)

  datatype IOSOptions = IOSOptions(
    platformName: string,
    automationName: string,
    bundleId: Option<string>,
    app: string,
    noReset: bool,
    fullReset: bool,
    autoAcceptAlerts: bool,
    showIosLog: bool,
    newCommandTimeout: Int64,
    device: IOSDevice)

  /** `setupAndroidEmulator` / `setupRealAndroidDevice`. */
  function AndroidDeviceOptions(p: Properties): (r: AndroidDevice)
    ensures r.AndroidEmulator? <==> GetBoolean(p, EmulatorEnabledKey)
  {
    if GetBoolean(p, EmulatorEnabledKey) then
      AndroidEmulator(GetProperty(p, DeviceNameKey), GetProperty(p, AvdKey), GetProperty(p, EmulatorPlatformVersionKey),
                      AvdTimeoutSeconds, AvdTimeoutSeconds, GetBoolean(p, HeadlessKey))
    else
      AndroidRealDevice(GetProperty(p, DeviceNameKey), GetProperty(p, UdidKey))
  }

  /**
    The options `createAndroidDriver` assembles. The only getter on this path
    that can throw is `getCommandTimeout()`; its exception is the builder's.
   */
  function AndroidCapabilities(p: Properties): (r: Result<AndroidOptions>)
    ensures r.Ok? <==> GetCommandTimeout(p).Ok?
    ensures r.Throw? ==> r.exc == GetCommandTimeout(p).exc
    ensures r.Ok? ==> r.value.newCommandTimeout == GetCommandTimeout(p).value
  {
    match GetCommandTimeout(p)
    case Throw(e) => Throw(e)
    case Ok(timeout) =>
      Ok(AndroidOptions(
        "Android",
        GetProperty(p, AutomationNameKey),
        GetProperty(p, AndroidPackageKey),
        GetProperty(p, AndroidActivityKey),
        true,
        false,
        true,
        timeout,
        GetBoolean(p, ForceAppLaunchKey),
        AndroidDeviceOptions(p)))
  }

  /**
    Android options always ask for no reset, no full reset and automatic
    permission grants; with the emulator flag on they carry the AVD name,
    platform version, headless flag and 180-second AVD timeouts, and with it
    off they carry the device's udid instead.
   */
  lemma AndroidCapabilitiesPolicy(p: Properties)
    requires AndroidCapabilities(p).Ok?
    ensures var o := AndroidCapabilities(p).value;
      && o.platformName == "Android"
      && o.noReset && !o.fullReset && o.autoGrantPermissions
      && o.appPackage == GetProperty(p, AndroidPackageKey)
      && o.appActivity == GetProperty(p, AndroidActivityKey)
      && o.device.deviceName == GetProperty(p, DeviceNameKey)
      && (GetBoolean(p, EmulatorEnabledKey) ==>
            && o.device.AndroidEmulator?
            && o.device.avd == GetProperty(p, AvdKey)
            && o.device.platformVersion == GetProperty(p, EmulatorPlatformVersionKey)
            && o.device.headless == GetBoolean(p, HeadlessKey)
            && o.device.avdLaunchTimeout == 180 && o.device.avdReadyTimeout == 180)
      && (!GetBoolean(p, EmulatorEnabledKey) ==>
            o.device.AndroidRealDevice? && o.device.udid == GetProperty(p, UdidKey))
  {
  }

  /** `setupIOSSimulator` / `setupRealIOSDevice`. */
  function IOSDeviceOptions(p: Properties): (r: IOSDevice)
    ensures r.IOSSimulator? <==> GetBoolean(p, EmulatorEnabledKey)
  {
    if GetBoolean(p, EmulatorEnabledKey) then
      IOSSimulator(GetProperty(p, IOSSimulatorDeviceKey), GetProperty(p, IOSPlatformVersionKey), GetBoolean(p, HeadlessKey))
    else
      IOSRealDevice(GetProperty(p, IOSDeviceNameKey), GetProperty(p, IOSUdidKey))
  }

  /**
    The options `createIOSDriver` assembles. `getIOSAppPath()` is evaluated
    before `getCommandTimeout()`, so a missing app path is the error reported
    even when the timeout is malformed too.
   */
  function IOSCapabilities(p: Properties, home: string): (r: Result<IOSOptions>)
    ensures r.Ok? <==> GetIOSAppPath(p, home).Ok? && GetCommandTimeout(p).Ok?
    ensures GetIOSAppPath(p, home).Throw? ==> r == Throw(GetIOSAppPath(p, home).exc)
    ensures GetIOSAppPath(p, home).Ok? && GetCommandTimeout(p).Throw? ==> r == Throw(GetCommandTimeout(p).exc)
    ensures r.Ok? ==> r.value.app == GetIOSAppPath(p, home).value
  {
    match GetIOSAppPath(p, home)
    case Throw(e) => Throw(e)
    case Ok(app) =>
      match GetCommandTimeout(p)
      case Throw(e) => Throw(e)
      case Ok(timeout) =>
        Ok(IOSOptions(
          "iOS",
          "XCUITest",
          GetProperty(p, IOSBundleIdKey),
          app,
          true,
          false,
          GetBoolean(p, IOSAutoAcceptAlertsKey),
          GetBoolean(p, IOSShowLogKey),
          timeout,
          IOSDeviceOptions(p)))
  }

  /**
    iOS options always use XCUITest with no reset and no full reset; the
    emulator flag selects the simulator device name, platform version and
    headless flag, and otherwise the real device's name and udid.
   */
  lemma IOSCapabilitiesPolicy(p: Properties, home: string)
    requires IOSCapabilities(p, home).Ok?
    ensures var o := IOSCapabilities(p, home).value;
      && o.platformName == "iOS" && o.automationName == "XCUITest"
      && o.noReset && !o.fullReset
      && o.bundleId == GetProperty(p, IOSBundleIdKey)
      && (GetBoolean(p, EmulatorEnabledKey) ==>
            && o.device.IOSSimulator?
            && o.device.deviceName == GetProperty(p, IOSSimulatorDeviceKey)
            && o.device.platformVersion == GetProperty(p, IOSPlatformVersionKey)
            && o.device.headless == GetBoolean(p, HeadlessKey))
      && (!GetBoolean(p, EmulatorEnabledKey) ==>
            && o.device.IOSRealDevice?
            && o.device.deviceName == GetProperty(p, IOSDeviceNameKey)
            && o.device.udid == GetProperty(p, IOSUdidKey))
  {
  }
}
