# iOS config plugins and native path resolution, in Dafny

This project models two small pieces of the `@expo/config` package.

1. **The iOS config plugins** (`packages/config/src/plugins/ios-plugins.ts`).
   - `withInfoPlist` gives the manifest an `ios` object and an
     `ios.infoPlist` object when they are missing. It then runs a mutation
     action on the manifest and its Info.plist, and stores what the action
     returns as the new Info.plist.
   - `createInfoPlistPlugin` turns such an action into a plugin.
   - `withEntitlementsPlist`, `withExpoPlist` and `withXcodeProject` do not
     act right away. Each registers the caller's action for one native file
     (`entitlements`, `expoPlist`, `xcodeproj`) of the `ios` platform, through
     `withModifier`.
2. **Locating the native project artifacts**: `getXcodeProjectPath` and
   `getAppDelegate`, as their tests (`packages/config/src/ios/__tests__/Paths-test.ts`)
   pin them down.
   - The filesystem is replaced by a sequence of entries: the relative paths
     under the root, in enumeration order.
   - A candidate is the root joined to a matching entry.
   - No candidate gives an `UnexpectedError`.
   - With several candidates, one is chosen and a warning names the chosen
     path and the ignored ones. The warning is returned as part of the
     result instead of being sent to a warning aggregator.

Files:

- `wrappers.dfy`: `Option` and `Result`.
- `strings.dfy`: prefix, suffix and infix predicates, plus lexicographic order by Unicode scalar value (`LexLe`) with its order laws.
- `paths.dfy`: the resolver. Module `Paths`.
- `paths_scenarios.dfy`: each test fixture as a lemma that holds for any root. Module `PathsScenarios`.
- `config_types.dfy`: the config records. Module `ConfigTypes`.
- `ios_plugins.dfy`: the plugins. Module `IosPlugins`.
- `ios_plugin_laws.dfy`: laws relating several plugin calls. Module `IosPluginLaws`.

The resolver's implementation, `packages/config/src/ios/Paths.ts`, is not
part of this model. Its rules are reconstructed from the tests:

- **Xcode project.** A match is an entry `ios/<name>.xcodeproj`, where
  `<name>` is one non-empty path segment not starting with a dot. With
  several, the least path in lexicographic order by Unicode scalar value
  is chosen. The test at `Paths-test.ts:65` expects `otherproject` over
  `testproject`.
- **AppDelegate.** A match is any entry under `ios/` whose file name is
  `AppDelegate.m` (language `objc`) or `AppDelegate.swift` (language `swift`).
  - An Objective-C file is preferred whenever one exists. Within a language,
    the least path is chosen; the tests have no such tie, so this is the
    model's own choice, as is matching at any depth under `ios/`.
  - Header files never match.
- **Warning.** A warning is issued exactly when some other candidate exists.
  - Its ignored list holds every other candidate, in enumeration order.
  - Its message reads `Found multiple <kind> file paths, using "<chosen>". Ignored paths: [<quoted, comma-separated>]`.

## Model

| member | source | states |
|---|---|---|
| Paths.Candidates | packages/config/src/ios/__tests__/Paths-test.ts:56-58 | a path is a candidate exactly when it is the root joined to some entry the matcher accepts |
| Paths.Least | packages/config/src/ios/__tests__/Paths-test.ts:64-65 | the chosen path is one of the candidates and precedes or equals every candidate in scalar-value order |
| Paths.Without | packages/config/src/ios/__tests__/Paths-test.ts:66-69 | the ignored paths are exactly the candidates other than the chosen one, never more than there were candidates |
| Paths.WithoutAppend | packages/config/src/ios/__tests__/Paths-test.ts:66-69 | removing the chosen path from a list built in two parts removes it from each part and keeps the parts in their order |
| Paths.WithoutSingle | packages/config/src/ios/__tests__/Paths-test.ts:66-69 | a single candidate is kept exactly when it is not the chosen path; with `WithoutAppend` this fixes the ignored list element by element, in enumeration order |
| Paths.Choose | packages/config/src/ios/__tests__/Paths-test.ts:64-69 | the chosen path is returned; a warning exists exactly when some other candidate exists, and then it carries the category, the kind, the chosen path and the ignored candidates |
| Paths.XcodeProjectNotFound | packages/config/src/ios/__tests__/Paths-test.ts:60-62 | the error raised when no Xcode project exists names the root that was searched |
| Paths.GetXcodeProjectPath | packages/config/src/ios/__tests__/Paths-test.ts:56-69 | fails exactly when no entry is an Xcode project, naming the root; otherwise returns the root-joined path of an Xcode project that precedes all others, warns exactly when another exists, under `paths-xcodeproj` for the kind `*.xcodeproj`, and the ignored list is the candidates in enumeration order with the chosen path removed |
| Paths.ObjcEntryLanguage | packages/config/src/ios/__tests__/Paths-test.ts:134-139 | the language derived from the extension of an `AppDelegate.m` path is `objc` |
| Paths.SwiftEntryLanguage | packages/config/src/ios/__tests__/Paths-test.ts:140-145 | the language derived from the extension of an `AppDelegate.swift` path is `swift` |
| Paths.PreferredAppDelegate | packages/config/src/ios/__tests__/Paths-test.ts:152-156 | the chosen AppDelegate is a matching entry whose extension gives its language; it is Objective-C exactly when an Objective-C file exists, and it precedes every file of its own language |
| Paths.AppDelegateNotFound | packages/config/src/ios/__tests__/Paths-test.ts:147-150 | the error raised when no AppDelegate exists mentions `AppDelegate` |
| Paths.GetAppDelegate | packages/config/src/ios/__tests__/Paths-test.ts:134-161 | fails exactly when no entry is an AppDelegate source, mentioning `AppDelegate`; otherwise returns the preferred AppDelegate, warns exactly when another source exists, under `paths-app-delegate` for the kind `AppDelegate`, and the ignored list is the candidates in enumeration order with the chosen path removed |
| Paths.LeastIgnoresOrder | packages/config/src/ios/__tests__/Paths-test.ts:64-65 | two lists holding the same paths yield the same least path |
| Paths.XcodeProjectIgnoresEnumerationOrder | packages/config/src/ios/__tests__/Paths-test.ts:36-49 | the Xcode project found, and whether one is found, do not depend on the order the filesystem lists the entries in |
| Paths.AppDelegateIsNeverHeader | packages/config/src/ios/__tests__/Paths-test.ts:83-84 | a resolved AppDelegate never ends in `.h` |
| Paths.QuotedListNamesEach | packages/config/src/ios/__tests__/Paths-test.ts:68 | the bracketed list of a warning contains every ignored path, quoted |
| Paths.WarningMessageNamesPaths | packages/config/src/ios/__tests__/Paths-test.ts:157-160 | a warning's message quotes the chosen path and every ignored path |
| PathsScenarios.AppCandidates | packages/config/src/ios/__tests__/Paths-test.ts:22-33 | in `/app` the only candidate is `ios/testproject.xcodeproj`; the Podfile, the podspec, the pbxproj and the sources are not candidates |
| PathsScenarios.XcodeProjectSingle | packages/config/src/ios/__tests__/Paths-test.ts:56-58 | `/app` resolves to `<root>/ios/testproject.xcodeproj` with no warning |
| PathsScenarios.XcodeProjectNone | packages/config/src/ios/__tests__/Paths-test.ts:60-62 | an empty root fails with an error |
| PathsScenarios.MultipleCandidates | packages/config/src/ios/__tests__/Paths-test.ts:36-49 | in `/multiple` the candidates are `otherproject` then `testproject` |
| PathsScenarios.OtherProjectFirst | packages/config/src/ios/__tests__/Paths-test.ts:65 | under any root, the `otherproject` path precedes, and differs from, the `testproject` path |
| PathsScenarios.XcodeProjectMultiple | packages/config/src/ios/__tests__/Paths-test.ts:64-69 | `/multiple` resolves to `otherproject`, warning under `paths-xcodeproj` with `testproject` as the only ignored path |
| PathsScenarios.XcodeProjectMultipleMessage | packages/config/src/ios/__tests__/Paths-test.ts:66-69 | the `/multiple` warning reads `Found multiple *.xcodeproj file paths, using "<root>/ios/otherproject.xcodeproj". Ignored paths: ["<root>/ios/testproject.xcodeproj"]` |
| PathsScenarios.BaseHasNoAppDelegate | packages/config/src/ios/__tests__/Paths-test.ts:75-127 | none of the entries `/objc`, `/swift` and `/confusing` share is an AppDelegate source of either language |
| PathsScenarios.ObjcCandidates | packages/config/src/ios/__tests__/Paths-test.ts:75-87 | in `/objc` the only AppDelegate candidate is the `.m` file; the header is not one |
| PathsScenarios.AppDelegateObjc | packages/config/src/ios/__tests__/Paths-test.ts:134-139 | `/objc` resolves to the `.m` path in Objective-C, with no warning |
| PathsScenarios.SwiftCandidates | packages/config/src/ios/__tests__/Paths-test.ts:89-100 | in `/swift` the only candidate is the `.swift` file, and there is no Objective-C file |
| PathsScenarios.AppDelegateSwift | packages/config/src/ios/__tests__/Paths-test.ts:140-145 | `/swift` resolves to the `.swift` path in Swift, with no warning |
| PathsScenarios.AppDelegateInvalid | packages/config/src/ios/__tests__/Paths-test.ts:147-150 | `/invalid`, which holds the Xcode project, the Podfile and the podspec and no sources, fails with an error whose message contains `AppDelegate` |
| PathsScenarios.ConfusingCandidates | packages/config/src/ios/__tests__/Paths-test.ts:114-127 | in `/confusing` the candidates are the `.swift` file then the `.m` file |
| PathsScenarios.ConfusingObjcCandidates | packages/config/src/ios/__tests__/Paths-test.ts:114-127 | in `/confusing` the only Objective-C candidate is the `.m` file |
| PathsScenarios.AppDelegateConfusing | packages/config/src/ios/__tests__/Paths-test.ts:152-161 | `/confusing` resolves to the `.m` path in Objective-C, warning under `paths-app-delegate` with the `.swift` path as the only ignored path |
| PathsScenarios.AppDelegateConfusingMessage | packages/config/src/ios/__tests__/Paths-test.ts:157-160 | the `/confusing` warning reads `Found multiple AppDelegate file paths, using "<root>/ios/testproject/AppDelegate.m". Ignored paths: ["<root>/ios/testproject/AppDelegate.swift"]` |
| IosPlugins.PrepareIos | packages/config/src/plugins/ios-plugins.ts:26-31 | afterwards `ios` and `ios.infoPlist` exist; an existing Info.plist is kept and a missing one becomes `{}`; every other key of `expo` and `ios` is kept; an already complete manifest is returned unchanged |
| IosPlugins.SetInfoPlist | packages/config/src/plugins/ios-plugins.ts:33 | the Info.plist becomes the given one and every other key of `expo` and `ios` is kept |
| IosPlugins.WithInfoPlist | packages/config/src/plugins/ios-plugins.ts:22-36 | the new Info.plist is what the action returns when handed the defaulted manifest and the existing Info.plist (or `{}`); other manifest keys, other `ios` keys, registered modifiers and other top-level keys are unchanged |
| IosPlugins.CreateInfoPlistPlugin | packages/config/src/plugins/ios-plugins.ts:16-20 | the plugin applied to any config equals `withInfoPlist` of that config with the action |
| IosPlugins.WithModifier | packages/config/src/plugins/ios-plugins.ts:41-45 | the registration is added after all earlier ones, which are kept in order; the manifest and other keys are unchanged |
| IosPlugins.RegisteredActionsAppend | packages/config/src/plugins/ios-plugins.ts:41-45 | a registration appended later adds its action at the end of its own file's actions and leaves every other file's actions unchanged |
| IosPlugins.WithModifierRegistersLast | packages/config/src/plugins/ios-plugins.ts:41-45 | registering for an iOS file puts the action last among that file's actions, keeps the earlier ones, and leaves every other platform's and file's actions unchanged |
| IosPlugins.WithEntitlementsPlist | packages/config/src/plugins/ios-plugins.ts:38-46 | registers `{platform: "ios", modifier: "entitlements", action}` with the caller's action unchanged, last among the entitlements actions, nothing else changed |
| IosPlugins.WithExpoPlist | packages/config/src/plugins/ios-plugins.ts:48-56 | registers `{platform: "ios", modifier: "expoPlist", action}` with the caller's action unchanged, last among the expo plist actions, nothing else changed |
| IosPlugins.WithXcodeProject | packages/config/src/plugins/ios-plugins.ts:58-66 | registers `{platform: "ios", modifier: "xcodeproj", action}` with the caller's action unchanged, last among the Xcode project actions, nothing else changed |
| IosPluginLaws.ActionSeesDefaultedManifest | packages/config/src/plugins/ios-plugins.ts:26-33 | the plugin stores what the action returns for `{}` and the defaulted manifest when the manifest has no `ios` key or `ios` has no `infoPlist`, and what it returns for the existing Info.plist and the unchanged manifest otherwise |
| IosPluginLaws.NoIosKey | packages/config/src/plugins/ios-plugins.ts:26-35 | without an `ios` key, `ios` afterwards holds only the Info.plist the action returned for `{}`, and the rest of the config is unchanged |
| IosPluginLaws.SetInfoPlistTwice | packages/config/src/plugins/ios-plugins.ts:33 | writing the Info.plist twice leaves the second value |
| IosPluginLaws.SetInfoPlistAfterDefaulting | packages/config/src/plugins/ios-plugins.ts:26-33 | writing the Info.plist makes the defaulting a no-op, and defaulting first does not change what the write produces |
| IosPluginLaws.InfoPlistPluginsCompose | packages/config/src/plugins/ios-plugins.ts:22-36 | two Info.plist plugins in a row equal one whose action runs the first and hands its result, already stored in the manifest, to the second |
| IosPluginLaws.CreatedPluginsCompose | packages/config/src/plugins/ios-plugins.ts:16-20 | plugins made by `createInfoPlistPlugin` compose in the same way |
| IosPluginLaws.KeepingActionOnlyDefaults | packages/config/src/plugins/ios-plugins.ts:26-35 | an action returning its Info.plist unchanged only adds the defaults, and changes nothing when they are present |
| IosPluginLaws.OverwriteIdempotent | packages/config/src/plugins/ios-plugins.ts:33-35 | a plugin writing a fixed Info.plist gives the same config whether applied once or twice |
| IosPluginLaws.WrappersTargetDistinctFiles | packages/config/src/plugins/ios-plugins.ts:38-66 | each wrapper leaves the actions registered for the other two files unchanged |
| IosPluginLaws.RegistrationOrderKept | packages/config/src/plugins/ios-plugins.ts:38-46 | two entitlements registrations appear after the earlier ones, in the order they were made |

## Left out

- `packages/config/src/ios/Paths.ts` is not part of this model. The match patterns, the tie-break and the message texts above are reconstructed from the tests.
- Paths.GetXcodeProjectPath: the tests fix the winner only for two candidates. The model extends "least path wins" to any number of candidates, a choice the tests neither confirm nor refute.
- Paths.PreferredAppDelegate: the tests fix neither the tie-break between two sources of one language (no fixture has two) nor how deep under `ios/` a match may sit (every fixture puts its sources in `ios/testproject/`). Taking the least path within a language and matching at any depth are the model's own choices.
- Paths.Choose: whether a single candidate causes a warning is not evidenced. The model issues none.
- Paths.XcodeProjectNotFound: only states that the message names the root; the tests do not fix the wording.
- Paths.AppDelegateNotFound: only states that the message contains `AppDelegate`, which is all the test checks.
- Paths.Warning: the quoting of paths in the message does not model `JSON.stringify` escaping of quotes and backslashes inside a path.
- `.mm` (Objective-C++) AppDelegate files are not matched, because no test shows how they are handled.
- Filesystem enumeration and glob matching are replaced by the `entries` input. Path joining is `root + "/" + rel`, with no normalisation.
- The warning aggregator is a side effect in the source. Here the warning is part of the returned value.
- Paths.Least: compares characters by Unicode scalar value, where JavaScript compares UTF-16 code units. The two orders differ when a character above U+FFFF is compared with one in U+E000 to U+FFFF; the paths the tests use are ASCII.
- IosPlugins.WithModifier: `withModifier` and the executor that later loads, runs and saves modifiers (in `core-plugins`) are outside this model. Registering is modelled as appending to a list of registrations. No claim is made about how the executor composes them.
- IosPlugins.WithInfoPlist: `withInfoPlist` assigns to `expo.ios` on the caller's own `config.expo` object, so the caller's config changes in place. The model returns a new record and leaves its input as it was. The action is also taken to be pure: an action that mutates the manifest object it is handed is not modelled.
- Falsiness: `!expo.ios` and `!expo.ios.infoPlist` are modelled as "key absent". For these object-typed fields the only other falsy value is `null`, which the model treats the same way.
- Modifier props are reduced to `modResults`. Plist, entitlements and pbxproj contents are opaque JSON values.
- `packages/metro-config-expo/src/ExpoMetroConfig.ts` (the Metro bundler defaults) is left out. It only delegates to `metro-config`, `require.resolve` and dynamic loading.
