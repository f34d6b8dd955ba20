/** Laws of the Info.plist plugin and the modifier wrappers that relate
    several calls, or a call to a particular kind of config. */
module IosPluginLaws {
  import opened Wrappers
  import opened ConfigTypes
  import opened IosPlugins

  /** What `withInfoPlist` stores is what the action returns for `{}` and
      the defaulted manifest when the manifest has no `ios` key or `ios` has
      no `infoPlist`, and for the existing Info.plist and the unchanged
      manifest otherwise. */
  lemma ActionSeesDefaultedManifest(config: ExportedConfig, action: MutateInfoPlistAction)
    ensures config.expo.ios.None? ==> InfoPlistOrEmpty(config.expo) == map[]
    ensures config.expo.ios.Some? && config.expo.ios.value.infoPlist.None? ==> InfoPlistOrEmpty(config.expo) == map[]
    ensures !HasInfoPlist(config.expo) ==>
      WithInfoPlist(config, action).expo.ios.value.infoPlist == Some(action(PrepareIos(config.expo), map[]))
    ensures HasInfoPlist(config.expo) ==>
      WithInfoPlist(config, action).expo.ios.value.infoPlist
        == Some(action(config.expo, config.expo.ios.value.infoPlist.value))
  {
  }

  /** A manifest without an `ios` key: afterwards `ios` holds just the
      Info.plist the action returned for `{}`, and nothing else differs. */
  lemma NoIosKey(config: ExportedConfig, action: MutateInfoPlistAction)
    requires config.expo.ios.None?
    ensures var defaulted := config.expo.(ios := Some(IosConfig(Some(map[]), map[])));
      WithInfoPlist(config, action)
        == config.(expo := config.expo.(ios := Some(IosConfig(Some(action(defaulted, map[])), map[]))))
  {
  }

  /** The last Info.plist written wins. */
  lemma SetInfoPlistTwice(expo: ExpoConfig, first: InfoPlist, second: InfoPlist)
    ensures SetInfoPlist(SetInfoPlist(expo, first), second) == SetInfoPlist(expo, second)
  {
  }

  /** What a manifest looks like to the second of two Info.plist actions
      does not depend on whether the defaulting ran before the first. */
  lemma SetInfoPlistAfterDefaulting(expo: ExpoConfig, plist: InfoPlist)
    ensures SetInfoPlist(PrepareIos(expo), plist) == SetInfoPlist(expo, plist)
    ensures PrepareIos(SetInfoPlist(expo, plist)) == SetInfoPlist(expo, plist)
  {
  }

  /** The one action that does the work of `first` followed by `second`:
      `second` sees the manifest with `first`'s Info.plist in place. */
  function Then(first: MutateInfoPlistAction, second: MutateInfoPlistAction): MutateInfoPlistAction {
    (expo, plist) => var next := first(expo, plist); second(SetInfoPlist(expo, next), next)
  }

  /** Two Info.plist plugins in a row are one plugin with the combined action. */
  lemma InfoPlistPluginsCompose(config: ExportedConfig, first: MutateInfoPlistAction, second: MutateInfoPlistAction)
    ensures WithInfoPlist(WithInfoPlist(config, first), second) == WithInfoPlist(config, Then(first, second))
  {
  }

  /** The same law for plugins made by `createInfoPlistPlugin`. */
  lemma CreatedPluginsCompose(config: ExportedConfig, first: MutateInfoPlistAction, second: MutateInfoPlistAction)
    ensures CreateInfoPlistPlugin(second)(CreateInfoPlistPlugin(first)(config))
         == CreateInfoPlistPlugin(Then(first, second))(config)
  {
  }

  /** An action that returns the Info.plist it is given changes nothing but
      the defaulting, and nothing at all once the defaults are in place. */
  lemma KeepingActionOnlyDefaults(config: ExportedConfig)
    ensures WithInfoPlist(config, (expo, plist) => plist) == config.(expo := PrepareIos(config.expo))
    ensures HasInfoPlist(config.expo) ==> WithInfoPlist(config, (expo, plist) => plist) == config
  {
  }

  /** The action that replaces the Info.plist with `plist`. */
  function Overwrite(plist: InfoPlist): MutateInfoPlistAction {
    (expo, current) => plist
  }

  /** Applying an overwriting plugin twice is the same as applying it once. */
  lemma OverwriteIdempotent(config: ExportedConfig, plist: InfoPlist)
    ensures WithInfoPlist(WithInfoPlist(config, Overwrite(plist)), Overwrite(plist)) == WithInfoPlist(config, Overwrite(plist))
  {
  }

  /** The three wrappers target three different native files, so a
      registration through one never shows up among another's actions. */
  lemma WrappersTargetDistinctFiles(config: ExportedConfig, action: ModifierAction)
    ensures RegisteredActions(WithEntitlementsPlist(config, action).modifiers, IosPlatform, ExpoPlistModifier)
         == RegisteredActions(config.modifiers, IosPlatform, ExpoPlistModifier)
    ensures RegisteredActions(WithExpoPlist(config, action).modifiers, IosPlatform, XcodeProjectModifier)
         == RegisteredActions(config.modifiers, IosPlatform, XcodeProjectModifier)
    ensures RegisteredActions(WithXcodeProject(config, action).modifiers, IosPlatform, EntitlementsModifier)
         == RegisteredActions(config.modifiers, IosPlatform, EntitlementsModifier)
  {
  }

  /** Two registrations for the same file are listed in the order they
      were made, after the earlier ones. */
  lemma RegistrationOrderKept(config: ExportedConfig, first: ModifierAction, second: ModifierAction)
    ensures RegisteredActions(WithEntitlementsPlist(WithEntitlementsPlist(config, first), second).modifiers, IosPlatform, EntitlementsModifier)
         == RegisteredActions(config.modifiers, IosPlatform, EntitlementsModifier) + [first, second]
  {
  }
}
