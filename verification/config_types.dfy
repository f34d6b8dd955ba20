/** The parts of an app's exported configuration that the iOS plugins read
    and write. A JavaScript object whose key may be missing becomes an
    `Option`: `None` stands for an absent, `undefined` or `null` key, the
    falsy values these object-typed fields can take, while an empty object
    `{}` is `Some` of an empty map. Keys the plugins never look at are kept,
    untouched, in `fields`. */
module ConfigTypes {
  import opened Wrappers

  /** A JSON value; plist contents are treated as one. */
  datatype Json =
    | JNull
    | JBool(b: bool)
    | JNumber(n: int)
    | JString(s: string)
    | JArray(items: seq<Json>)
    | JObject(members: map<string, Json>)

  /** The keys and values of an `Info.plist`. */
  type InfoPlist = map<string, Json>

  /** `expo.ios`: the Info.plist overrides and every other iOS setting. */
  datatype IosConfig = IosConfig(infoPlist: Option<InfoPlist>, fields: map<string, Json>)

  /** `expo`: the app manifest. */
  datatype ExpoConfig = ExpoConfig(ios: Option<IosConfig>, fields: map<string, Json>)

  /** The parsed Xcode project, kept opaque. */
  datatype XcodeProject = XcodeProject(hash: Json)

  /** The in-memory form of the native file a modifier works on. */
  datatype ModResults =
    | PlistResults(plist: map<string, Json>)
    | XcodeProjectResults(project: XcodeProject)

  /** What a modifier action receives and returns. */
  datatype ModifierProps = ModifierProps(modResults: ModResults)

  type ModifierAction = ModifierProps -> ModifierProps

  /** A deferred action on one native file (`modifier`) of one `platform`. */
  datatype ModifierRegistration = ModifierRegistration(platform: string, modifier: string, action: ModifierAction)

  /** `{ expo, ...config }`: the manifest, the modifiers registered so far,
      and every other top-level key. */
  datatype ExportedConfig = ExportedConfig(expo: ExpoConfig, modifiers: seq<ModifierRegistration>, rest: map<string, Json>)

  type ConfigPlugin = ExportedConfig -> ExportedConfig
}
