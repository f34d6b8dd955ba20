/** The iOS config plugins: `withInfoPlist`, which edits `expo.ios.infoPlist`
    in memory right away, and the three wrappers that register a deferred
    action on a native file instead. The actions are taken to be pure: what
    they return is all they do. */
module IosPlugins {
  import opened Wrappers
  import opened ConfigTypes

  /** `MutateInfoPlistAction`: the manifest and its Info.plist in, the new Info.plist out. */
  type MutateInfoPlistAction = (ExpoConfig, InfoPlist) -> InfoPlist

  const IosPlatform := "ios"
  const EntitlementsModifier := "entitlements"
  const ExpoPlistModifier := "expoPlist"
  const XcodeProjectModifier := "xcodeproj"

  /** The manifest has an `ios` object, and that has an `infoPlist` object. */
  predicate HasInfoPlist(expo: ExpoConfig) {
    expo.ios.Some? && expo.ios.value.infoPlist.Some?
  }

  /** The keys of `expo.ios` other than `infoPlist`; none when `ios` is absent. */
  function IosFields(expo: ExpoConfig): map<string, Json> {
    if expo.ios.Some? then expo.ios.value.fields else map[]
  }

  /** The Info.plist an action is handed: the existing one, or `{}`. */
  function InfoPlistOrEmpty(expo: ExpoConfig): InfoPlist {
    if HasInfoPlist(expo) then expo.ios.value.infoPlist.value else map[]
  }

  /** The two defaulting steps of `withInfoPlist`: `ios` becomes `{}` when
      absent, then `ios.infoPlist` becomes `{}` when absent. */
  function PrepareIos(expo: ExpoConfig): (r: ExpoConfig)
    ensures HasInfoPlist(r)
    ensures r.ios.value.infoPlist.value == InfoPlistOrEmpty(expo)
    ensures r.fields == expo.fields && IosFields(r) == IosFields(expo)
    ensures HasInfoPlist(expo) ==> r == expo
  {
    var ios := if expo.ios.None? then IosConfig(None, map[]) else expo.ios.value;
    var ios' := if ios.infoPlist.None? then ios.(infoPlist := Some(map[])) else ios;
    expo.(ios := Some(ios'))
  }

  /** `expo.ios.infoPlist = plist`, creating `ios` when absent. */
  function SetInfoPlist(expo: ExpoConfig, plist: InfoPlist): (r: ExpoConfig)
    ensures r.ios.Some? && r.ios.value.infoPlist == Some(plist)
    ensures r.fields == expo.fields && IosFields(r) == IosFields(expo)
  {
    expo.(ios := Some(IosConfig(Some(plist), IosFields(expo))))
  }

  /** `withInfoPlist(config, action)`: the action sees the defaulted manifest
      and the existing Info.plist (or `{}`), and its result becomes the
      Info.plist; everything else is passed through. */
  function WithInfoPlist(config: ExportedConfig, action: MutateInfoPlistAction): (r: ExportedConfig)
    ensures r.rest == config.rest && r.modifiers == config.modifiers
    ensures r.expo == SetInfoPlist(config.expo, action(PrepareIos(config.expo), InfoPlistOrEmpty(config.expo)))
  {
    var expo := PrepareIos(config.expo);
    var infoPlist := action(expo, expo.ios.value.infoPlist.value);
    config.(expo := expo.(ios := Some(expo.ios.value.(infoPlist := Some(infoPlist)))))
  }

  /** `createInfoPlistPlugin(action)`: the plugin that applies `withInfoPlist`
      with that action to whatever config it is given. */
  function CreateInfoPlistPlugin(action: MutateInfoPlistAction): (plugin: ConfigPlugin)
    ensures forall config :: plugin(config) == WithInfoPlist(config, action)
  {
    config => WithInfoPlist(config, action)
  }

  /** `withModifier`, which is not part of this model, reduced to what the
      wrappers rely on: the registration is appended and nothing else changes. */
  function WithModifier(config: ExportedConfig, registration: ModifierRegistration): (r: ExportedConfig)
    ensures r.expo == config.expo && r.rest == config.rest
    ensures |r.modifiers| == |config.modifiers| + 1
    ensures r.modifiers[..|config.modifiers|] == config.modifiers
    ensures r.modifiers[|config.modifiers|] == registration
  {
    config.(modifiers := config.modifiers + [registration])
  }

  /** The actions registered for one native file of one platform, in the
      order they were registered. */
  function RegisteredActions(modifiers: seq<ModifierRegistration>, platform: string, modifier: string): (r: seq<ModifierAction>)
    ensures |r| <= |modifiers|
    ensures forall a :: a in r <==> ModifierRegistration(platform, modifier, a) in modifiers
  {
    if |modifiers| == 0 then []
    else
      var rest := RegisteredActions(modifiers[1..], platform, modifier);
      assert forall m :: m in modifiers <==> m == modifiers[0] || m in modifiers[1..];
      var m := modifiers[0];
      if m.platform == platform && m.modifier == modifier then
        assert m == ModifierRegistration(platform, modifier, m.action);
        [m.action] + rest
      else rest
  }

  lemma {:induction false} RegisteredActionsAppend(modifiers: seq<ModifierRegistration>, registration: ModifierRegistration, platform: string, modifier: string)
    ensures RegisteredActions(modifiers + [registration], platform, modifier)
         == RegisteredActions(modifiers, platform, modifier)
            + (if registration.platform == platform && registration.modifier == modifier then [registration.action] else [])
  {
    if |modifiers| > 0 {
      assert (modifiers + [registration])[1..] == modifiers[1..] + [registration];
      RegisteredActionsAppend(modifiers[1..], registration, platform, modifier);
    } else {
      assert modifiers + [registration] == [registration];
    }
  }

  /** Registering `action` for `modifier` on iOS adds it last to that file's
      actions, keeps the earlier ones in order, and leaves every other file's
      actions, the manifest and the other top-level keys alone. */
  ghost predicate RegistersLast(config: ExportedConfig, r: ExportedConfig, modifier: string, action: ModifierAction) {
    && r.expo == config.expo
    && r.rest == config.rest
    && RegisteredActions(r.modifiers, IosPlatform, modifier) == RegisteredActions(config.modifiers, IosPlatform, modifier) + [action]
    && (forall p, m :: (p, m) != (IosPlatform, modifier) ==>
          RegisteredActions(r.modifiers, p, m) == RegisteredActions(config.modifiers, p, m))
  }

  lemma WithModifierRegistersLast(config: ExportedConfig, modifier: string, action: ModifierAction)
    ensures RegistersLast(config, WithModifier(config, ModifierRegistration(IosPlatform, modifier, action)), modifier, action)
  {
    var registration := ModifierRegistration(IosPlatform, modifier, action);
    var r := WithModifier(config, registration);
    assert r.modifiers == config.modifiers + [registration];
    RegisteredActionsAppend(config.modifiers, registration, IosPlatform, modifier);
    forall p, m | (p, m) != (IosPlatform, modifier)
      ensures RegisteredActions(r.modifiers, p, m) == RegisteredActions(config.modifiers, p, m)
    {
      RegisteredActionsAppend(config.modifiers, registration, p, m);
    }
  }

  /** `withEntitlementsPlist(config, action)`. */
  function WithEntitlementsPlist(config: ExportedConfig, action: ModifierAction): (r: ExportedConfig)
    ensures |r.modifiers| == |config.modifiers| + 1
    ensures r.modifiers[|config.modifiers|] == ModifierRegistration("ios", "entitlements", action)
    ensures RegistersLast(config, r, EntitlementsModifier, action)
  {
    WithModifierRegistersLast(config, EntitlementsModifier, action);
    WithModifier(config, ModifierRegistration(IosPlatform, EntitlementsModifier, action))
  }

  /** `withExpoPlist(config, action)`. */
  function WithExpoPlist(config: ExportedConfig, action: ModifierAction): (r: ExportedConfig)
    ensures |r.modifiers| == |config.modifiers| + 1
    ensures r.modifiers[|config.modifiers|] == ModifierRegistration("ios", "expoPlist", action)
    ensures RegistersLast(config, r, ExpoPlistModifier, action)
  {
    WithModifierRegistersLast(config, ExpoPlistModifier, action);
    WithModifier(config, ModifierRegistration(IosPlatform, ExpoPlistModifier, action))
  }

  /** `withXcodeProject(config, action)`. */
  function WithXcodeProject(config: ExportedConfig, action: ModifierAction): (r: ExportedConfig)
    ensures |r.modifiers| == |config.modifiers| + 1
    ensures r.modifiers[|config.modifiers|] == ModifierRegistration("ios", "xcodeproj", action)
    ensures RegistersLast(config, r, XcodeProjectModifier, action)
  {
    WithModifierRegistersLast(config, XcodeProjectModifier, action);
    WithModifier(config, ModifierRegistration(IosPlatform, XcodeProjectModifier, action))
  }
}
