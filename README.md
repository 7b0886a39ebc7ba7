# kraken-client, modelled in Dafny

kraken-client is a loader for Kraken plugins inside the RuneLite client.
It downloads each purchased plugin as a JAR from a presigned S3 URL and keeps the class files in memory.
A `ByteArrayClassLoader` defines classes from those bytes.
The loader picks out the classes that directly extend RuneLite's `Plugin`.
For every plugin the host instantiates, it asks the Kraken backend whether the plugin's licence key is valid.
Licensed plugins are started.
A side panel lists the plugins sorted by name, each marked pinned or not.
Its switches start and stop plugins.
Its Discord button offers sign-in or disconnect, depending on the stored credentials.

The model has one Dafny module per core Java class:

| module | file | Java class |
|---|---|---|
| `ClassLoading` | `byte_array_class_loader.dfy` | `loader/ByteArrayClassLoader` |
| `JarLoading` | `jar_resource_loader.dfy` | `loader/JarResourceLoader` |
| `KrakenApi` | `kraken_api_client.dfy` | `api/KrakenClient` |
| `PluginManagement` | `kraken_plugin_manager.dfy` | `KrakenPluginManager` |
| `LegacyJarScanning` | `legacy_jar_resource_loader.dfy` | the older on-disk `JarResourceLoader` |
| `UnitFormatting` | `unit_formatter.dfy` | `panel/UnitFormatter`, `UnitFormatterFactory` |
| `ToggleButton` | `plugin_toggle_button.dfy` | `panel/PluginToggleButton` |
| `PluginListItems` | `plugin_list_item.dfy` | `panel/KrakenPluginListItem` |
| `PluginListPanels` | `plugin_list_panel.dfy` | `panel/KrakenPluginListPanel` |
| `JavaVersionCheck` | `java_version.dfy` | the launcher `KrakenClient` |

Shared modules support them:
- `Wrappers` models nullable references as `Option`.
- `JavaStrings` writes out the `String` and `Integer` operations the code relies on over `seq<char>`: `startsWith`, `endsWith`, `replace`, `split(" ")`, `join`, `toLowerCase`, `Integer.toString` and `Integer.parseInt`.
- `Host` holds RuneLite's `Plugin` and the calls made into its plugin manager.

Classes whose fields the Java code updates are Dafny classes, with their methods proved against specification functions.
These are the manager, the panel, the list item, the switch, the formatter factory and the legacy loader.
Loops are `while` loops with invariants.
Anything outside the extension is an input to the model:
- the archive decoder;
- the HTTP transport;
- Jackson;
- RuneLite's plugin and config managers;
- reflection;
- the file system.

These inputs are function-typed parameters or fields.
Calls into RuneLite's plugin manager are recorded in order as a `hostCalls` trace.

The code sometimes does something its own comments and names do not suggest. The model follows the code:
- `startKrakenPlugins` enables every plugin that reaches the licence check, licensed or not. It only *starts* the licensed ones, and records the others as unverified in the map its comment describes as tracking plugins that passed verification (`KrakenPluginManager.java:47`).
- Some exceptions are not caught by the handlers around them, and the model lets them escape:
  - A JAR that cannot be opened gives a null loader, which `loadPlugin` dereferences.
  - In `validateLicense`, a null response, a null credentials object or a JSON `null` body throws `NullPointerException`.
  - An `int` overflow throws `NumberFormatException` in `checkJavaVersion`, which ends `main` before the client launches.
- `loadPluginClasses` abandons the rest of a JAR at the first class it cannot load, because the handler sits outside the entry loop.
- `loadPluginClasses` keeps a class when `isAssignableFrom(Plugin.class)` holds, that is when the class is `Plugin` or a supertype of it. A plugin entry point, a proper subclass of `Plugin`, is therefore never kept.
- After a successful authentication the panel shows "Disconnect Discord" even when the returned user lacks fields. The credential manager then refuses to store that user, and the old one stays on disk.
- The list panel builds its rows with a three-argument item constructor that the item class does not have.

## Model

Some specification functions have no row of their own. Their behaviour is stated by the lemmas about them: `JavaVersionCheck.CheckJavaVersion` by `Verdict`, `KrakenApi.LicenseVerdict` by `LicenseValidIff`, `PluginListPanels.AuthFlow` by `DisconnectIffAuthenticated`, and `JavaStrings.ParseInt` by `IntToStringParses`.

| member | source | states |
|---|---|---|
| `ClassLoading.ByteArrayClassLoader.constructor` | src/main/java/com/kraken/loader/ByteArrayClassLoader.java:16-19 | keeps the given map as the class data, with an empty URL list; the parent is always the class's own defining loader |
| `ClassLoading.ByteArrayClassLoader.FindClass` | src/main/java/com/kraken/loader/ByteArrayClassLoader.java:21-28 | a name is defined exactly when the map holds it, from exactly its bytes at offset 0 over their full length; any other name is not found |
| `JarLoading.ReadEntryBytes` | src/main/java/com/kraken/loader/JarResourceLoader.java:26-36 | the bytes returned are every chunk read before end of stream, in order |
| `JarLoading.ConcatAppend` | src/main/java/com/kraken/loader/JarResourceLoader.java:31-33 | appending chunks to the buffer in two runs gives the two payloads concatenated |
| `JarLoading.ConcatLength` | src/main/java/com/kraken/loader/JarResourceLoader.java:26-36 | the entry payload is as long as the sum of the chunk lengths |
| `JarLoading.ClassName` | src/main/java/com/kraken/loader/JarResourceLoader.java:65-66 | the binary name is the path without its last six characters, with every '/' turned into '.' and every other character kept |
| `JarLoading.LoadJarFromSignedUrl` | src/main/java/com/kraken/loader/JarResourceLoader.java:45-76 | there is no loader exactly when the URL or the connection object cannot be made; otherwise a new loader holds the class map of the entries read, including when an `IOException` stopped reading early. A failed download is such an `IOException` before the first entry (`openConnection` does not contact the server), so it gives an empty loader, not none |
| `JarLoading.ClassMapKeys` | src/main/java/com/kraken/loader/JarResourceLoader.java:59-70 | a name is a key exactly when some `.class` entry under the package path converts to it |
| `JarLoading.ClassMapLastWins` | src/main/java/com/kraken/loader/JarResourceLoader.java:69 | the bytes under a name are those of the last class entry converting to that name |
| `JarLoading.LaterEntryOverwrites` | src/main/java/com/kraken/loader/JarResourceLoader.java:69 | of two class entries with the same binary name, only the later one's bytes are kept |
| `JarLoading.KeysCarryPackage` | src/main/java/com/kraken/loader/JarResourceLoader.java:63-66 | for a package path without '.', every stored name starts with the package in dotted form |
| `JarLoading.PrefixIsPlainText` | src/main/java/com/kraken/loader/JarResourceLoader.java:62-63 | the package test is a plain text prefix: `com/krakenpluginsX/...` passes, and anonymous inner classes (`$1`) are loaded too |
| `JarLoading.FindClassAfterLoad` | src/main/java/com/kraken/loader/JarResourceLoader.java:69-75 | the loader built from a JAR defines each loaded class from the payload of its last entry |
| `KrakenApi.RequestFor` | src/main/java/com/kraken/api/KrakenClient.java:158-167 | the request goes to the base URL plus the path with the given method and body, a JSON content type, and a bearer header exactly when a token is given |
| `KrakenApi.SendJson` | src/main/java/com/kraken/api/KrakenClient.java:156-176 | the outcome is what the transport returns for that request; an unexpected status (outside 200-399) is only logged, and the response is still returned |
| `KrakenApi.ObjectRequest` | src/main/java/com/kraken/api/KrakenClient.java:180-183 | a null body sends no body; otherwise the body is the object's JSON form, and there is no request when serialisation fails |
| `KrakenApi.SendObject` | src/main/java/com/kraken/api/KrakenClient.java:178-195 | a response is returned exactly when serialisation succeeded and the transport delivered one; every failure becomes `null` |
| `KrakenApi.SendTyped` | src/main/java/com/kraken/api/KrakenClient.java:197-213 | `null` exactly when the untyped call gave `null` or the body decodes to JSON `null`; the decoded value exactly when decoding yields one; a `RuntimeException` carrying the status code exactly when decoding fails |
| `KrakenApi.ValidateLicense` | src/main/java/com/kraken/api/KrakenClient.java:62-74 | the verdict is the step-by-step licence decision, including the `NullPointerException`s that escape the `IOException` handler |
| `KrakenApi.LicenseValidIff` | src/main/java/com/kraken/api/KrakenClient.java:64-69 | `true` exactly when credentials exist, the request serialises, a response arrives, and it decodes to a map without a non-null "error" value; the status code alone never decides |
| `KrakenApi.TransportFailureEscapes` | src/main/java/com/kraken/api/KrakenClient.java:64-65 | a send that fails ends in an escaping exception, never in `false` |
| `KrakenApi.ErrorFieldRejects` | src/main/java/com/kraken/api/KrakenClient.java:65-73 | an explicit error value, or a body that cannot be decoded, gives `false` |
| `KrakenApi.RouteOf` | src/main/java/com/kraken/api/KrakenClient.java:45-145 | every endpoint lives under `/api/v1/`; only the presigned-URL and licence calls send the id token as bearer; only `getUser` is a GET |
| `KrakenApi.UserStatusBody` | src/main/java/com/kraken/api/KrakenClient.java:125 | the hand-built body starts with the Discord id inserted verbatim and ends with the flag as `true}` or `false}` |
| `PluginManagement.EnumerateKeys` | src/main/java/com/kraken/KrakenPluginManager.java:71 | the key set is visited in some order, each key exactly once |
| `PluginManagement.AbortIsFinal` | src/main/java/com/kraken/KrakenPluginManager.java:105-136 | once an exception has ended the pass, the plugins after it change nothing |
| `PluginManagement.KrakenPluginManager.constructor` | src/main/java/com/kraken/KrakenPluginManager.java:43-56 | the plugin map, class list and verified map start empty, with no user and no host calls |
| `PluginManagement.KrakenPluginManager.LoadPlugin` | src/main/java/com/kraken/KrakenPluginManager.java:65-89 | an unopenable JAR lets a `NullPointerException` escape and adds nothing; otherwise every key of the loader is visited once and the direct `Plugin` subclasses are appended to `pluginClasses` |
| `PluginManagement.KrakenPluginManager.StartKrakenPlugins` | src/main/java/com/kraken/KrakenPluginManager.java:99-137 | without a user, or when the host cannot instantiate the classes, nothing changes; otherwise the new plugin map, verified map and host trace are those of the pass over the instantiated plugins, which stops at the first exception |
| `PluginManagement.ClassifyMembers` | src/main/java/com/kraken/KrakenPluginManager.java:71-79 | a class is kept exactly when its name was visited, the loader holds it, and its direct superclass is named `net.runelite.client.plugins.Plugin` |
| `PluginManagement.GrandchildExcluded` | src/main/java/com/kraken/KrakenPluginManager.java:74-75 | a class whose direct superclass is another class is never kept, even if that class is itself a plugin |
| `PluginManagement.ClassifyDistinct` | src/main/java/com/kraken/KrakenPluginManager.java:71-77 | visiting each key once adds each class at most once |
| `PluginManagement.PassExtendsTrace` | src/main/java/com/kraken/KrakenPluginManager.java:109-131 | the pass only appends calls to the host trace |
| `PluginManagement.PassStartsOnlyLicensed` | src/main/java/com/kraken/KrakenPluginManager.java:121-124 | every plugin the pass starts got a licence verdict of `true` |
| `PluginManagement.PassKeepsStartedVerified` | src/main/java/com/kraken/KrakenPluginManager.java:122-124 | with distinct plugin names, every started plugin is recorded as verified `true` when the pass ends |
| `PluginManagement.StartedVerifiedUpTo` | src/main/java/com/kraken/KrakenPluginManager.java:122-129 | after any prefix of the plugins, started plugins are verified and the remaining names have not been started |
| `PluginManagement.SharedNameOverwritesVerdict` | src/main/java/com/kraken/KrakenPluginManager.java:123-129 | of two plugins sharing a name, the second's `false` overwrites the first's `true` after the first was started |
| `PluginManagement.UnlicensedStillEnabled` | src/main/java/com/kraken/KrakenPluginManager.java:125-130 | a plugin whose licence check returns `false` is recorded as unverified, put in the map and enabled, but not started |
| `PluginManagement.StartFailureEndsPass` | src/main/java/com/kraken/KrakenPluginManager.java:122-136 | a licensed plugin whose start throws ends the pass: verified and started, but neither mapped nor enabled |
| `PluginManagement.StepAppendsOwnCalls` | src/main/java/com/kraken/KrakenPluginManager.java:122-130 | one iteration only appends calls about its own plugin |
| `PluginManagement.UnconfiguredPluginUntouched` | src/main/java/com/kraken/KrakenPluginManager.java:111-119 | a plugin without a config descriptor is skipped: no call about it is ever made |
| `LegacyJarScanning.SelectJarsMembers` | src/main/java/com/kraken/JarResourceLoader.java:37-39 | a path is selected exactly when the walk met it as a regular file ending in `.jar` |
| `LegacyJarScanning.JarResourceLoader.constructor` | src/main/java/com/kraken/JarResourceLoader.java:34-43 | the JAR list is the selected paths in walk order, or empty when the walk fails |
| `LegacyJarScanning.JarResourceLoader.ListClasses` | src/main/java/com/kraken/JarResourceLoader.java:45-64 | the filter sees exactly the class files without '$', and those it accepts are logged; an unreadable JAR offers nothing to the filter |
| `LegacyJarScanning.JarResourceLoader.LoadPluginClasses` | src/main/java/com/kraken/JarResourceLoader.java:71-110 | the result is the kept classes of every JAR in path order, each JAR scanned on its own |
| `LegacyJarScanning.ScanOpenedJar` | src/main/java/com/kraken/JarResourceLoader.java:81-97 | the entry loop keeps the candidates that pass the subtype test, up to the first candidate that cannot be loaded |
| `LegacyJarScanning.ScanEntriesSound` | src/main/java/com/kraken/JarResourceLoader.java:86-95 | a kept class comes from a candidate entry of its own JAR, was loadable and passed the test |
| `LegacyJarScanning.NoInnerClassKept` | src/main/java/com/kraken/JarResourceLoader.java:86 | no kept class name contains '$' |
| `LegacyJarScanning.FailureAbandonsRest` | src/main/java/com/kraken/JarResourceLoader.java:90-104 | a class that cannot be loaded ends the scan of its JAR: later entries do not matter |
| `LegacyJarScanning.ScanJarsAppend` | src/main/java/com/kraken/JarResourceLoader.java:74-108 | scanning JARs in two runs gives the two results concatenated, so one JAR's failure leaves the others' results alone |
| `LegacyJarScanning.ScanEntriesComplete` | src/main/java/com/kraken/JarResourceLoader.java:81-95 | a loadable candidate that passes the keep test is kept when no earlier candidate of its JAR failed to load |
| `LegacyJarScanning.ScanJarsSound` | src/main/java/com/kraken/JarResourceLoader.java:74-95 | every class kept from a list of JARs comes from one of them, loaded there and passed the keep test there |
| `LegacyJarScanning.SubclassOfPluginDropped` | src/main/java/com/kraken/JarResourceLoader.java:92-95 | the keep test is reversed (`isAssignableFrom(Plugin.class)`): with subtyping antisymmetric, a proper subclass of `Plugin` is never kept from any JAR |
| `LegacyJarScanning.ListedAreClassFiles` | src/main/java/com/kraken/JarResourceLoader.java:54 | every name the filter sees is a class file without '$' |
| `JavaStrings.ReplaceChar` | src/main/java/com/kraken/loader/JarResourceLoader.java:66 | the recursive replacement has the same length, replaces each occurrence and keeps every other character, and leaves no occurrence of the replaced character |
| `JavaStrings.ToLower` | src/main/java/com/kraken/panel/KrakenPluginListItem.java:58-59 | the recursive lower-casing has the same length, lower-cases each character on its own, and leaves no upper-case ASCII letter |
| `JavaStrings.ToLowerIdempotent` | src/main/java/com/kraken/panel/KrakenPluginListItem.java:58-59 | lower-casing twice is lower-casing once |
| `JavaStrings.JavaSplitReassembles` | src/main/java/com/kraken/panel/KrakenPluginListItem.java:58-59 | `split` pieces never contain the separator, and joining them back gives the text up to trailing separators |
| `JavaStrings.IntToStringParses` | src/main/java/com/kraken/panel/UnitFormatter.java:29-38 | printing any 32-bit value and parsing it back gives the value |
| `UnitFormatting.TrimUnits` | src/main/java/com/kraken/panel/UnitFormatter.java:22-26 | text ending with the units loses exactly one trailing copy; other text is kept as is |
| `UnitFormatting.UnitFormatter.constructor` | src/main/java/com/kraken/panel/UnitFormatter.java:13-15 | keeps the given units |
| `UnitFormatting.UnitFormatter.StringToValue` | src/main/java/com/kraken/panel/UnitFormatter.java:17-34 | parses exactly when the trimmed text is a decimal `int`, with that value; otherwise a `ParseException` at offset 0 names the trimmed text |
| `UnitFormatting.UnitFormatter.ValueToString` | src/main/java/com/kraken/panel/UnitFormatter.java:36-39 | the text ends with the units, and trimming them leaves the decimal form of the value |
| `UnitFormatting.UnitFormatter.RoundTrip` | src/main/java/com/kraken/panel/UnitFormatter.java:17-39 | reading back a formatted value gives the value |
| `UnitFormatting.OneSuffixRemoved` | src/main/java/com/kraken/panel/UnitFormatter.java:22-23 | only one copy of the units is removed: "5msms" is rejected |
| `UnitFormatting.NumberKeepsItsText` | src/main/java/com/kraken/panel/UnitFormatter.java:22-26 | for units not ending in a digit, trimming leaves a number's text whole |
| `UnitFormatting.UnitFormatter.UnitIsOptional` | src/main/java/com/kraken/panel/UnitFormatter.java:22-32 | any value typed without its unit, sign included, is read as itself, for units that do not end in a digit |
| `UnitFormatting.UnitFormatterFactory.constructor` | src/main/java/com/kraken/panel/UnitFormatter.java:42-45 | a factory starts with no cached formatter |
| `UnitFormatting.UnitFormatterFactory.GetFormatter` | src/main/java/com/kraken/panel/UnitFormatter.java:47-50 | a field's cached formatter is returned unchanged; otherwise a new formatter with the factory's units is cached for it; every cached formatter uses those units |
| `ToggleButton.BuilderIsEnglishList` | src/main/java/com/kraken/panel/PluginToggleButton.java:63-73 | the builder's output (commas, then " and " before the last name) is the English list of the names |
| `ToggleButton.CommaRunPrepend` | src/main/java/com/kraken/panel/PluginToggleButton.java:64-67 | the comma run over a list is its first name, a comma, then the run over the rest |
| `ToggleButton.PluginToggleButton.constructor` | src/main/java/com/kraken/panel/PluginToggleButton.java:39-47 | unselected, with the off icon, a selected icon that shows whether the licence is valid, no conflicts and the "Enable plugin" tooltip |
| `ToggleButton.PluginToggleButton.SetValid` | src/main/java/com/kraken/panel/PluginToggleButton.java:49-55 | only the selected icon follows the new state |
| `ToggleButton.PluginToggleButton.SetSelected` | src/main/java/com/kraken/panel/PluginToggleButton.java:45 | selecting refreshes the tooltip through the item listener |
| `ToggleButton.PluginToggleButton.UpdateTooltip` | src/main/java/com/kraken/panel/PluginToggleButton.java:57-59 | "Disable plugin" when selected, otherwise "Enable plugin" followed by the conflict phrase |
| `ToggleButton.PluginToggleButton.SetConflicts` | src/main/java/com/kraken/panel/PluginToggleButton.java:61-80 | the conflict phrase is empty for a null or empty list, otherwise the prefix and the names as an English list; the tooltip follows |
| `ToggleButton.ConflictPhraseExamples` | src/main/java/com/kraken/panel/PluginToggleButton.java:61-77 | one, two and three conflicts read "A", "A and B", "A, B and C" |
| `PluginListItems.KrakenPluginListItem.constructor` | src/main/java/com/kraken/panel/KrakenPluginListItem.java:53-134 | the keywords, the name tooltip (only for a non-empty description), an unpinned star, and the switch: without `enableToggle` the field's initial valid switch, never added; with it a new switch showing the licence state and the conflicts, hidden and inert for a missing plugin |
| `PluginListItems.KrakenPluginListItem.ToggleAction` | src/main/java/com/kraken/panel/KrakenPluginListItem.java:119-128 | a click acts exactly for a listening switch of a verified plugin: start when switched on, stop when switched off |
| `PluginListItems.KrakenPluginListItem.SetPinned` | src/main/java/com/kraken/panel/KrakenPluginListItem.java:142-148 | `isPinned` then answers what was set |
| `PluginListItems.KrakenPluginListItem.SetPluginEnabled` | src/main/java/com/kraken/panel/KrakenPluginListItem.java:150-152 | the switch takes the state and its tooltip follows; its conflicts, licence flag and icons are kept |
| `PluginListItems.KeywordsAreWords` | src/main/java/com/kraken/panel/KrakenPluginListItem.java:58-60 | no name or description keyword contains a space, and the tags come last, unchanged |
| `PluginListItems.NameKeywordsRejoin` | src/main/java/com/kraken/panel/KrakenPluginListItem.java:58 | the name keywords rejoined with spaces give the lower-cased name, up to trailing spaces |
| `PluginListPanels.NameLeTotal` | src/main/java/com/kraken/panel/KrakenPluginListPanel.java:302 | any two names are ordered one way or the other |
| `PluginListPanels.NameLeTransitive` | src/main/java/com/kraken/panel/KrakenPluginListPanel.java:302 | the name order is transitive |
| `PluginListPanels.InsertByNamePermutes` | src/main/java/com/kraken/panel/KrakenPluginListPanel.java:302 | inserting a row adds exactly that row |
| `PluginListPanels.InsertByNameSorted` | src/main/java/com/kraken/panel/KrakenPluginListPanel.java:302 | inserting into a list sorted by name keeps it sorted |
| `PluginListPanels.SortByNameSorted` | src/main/java/com/kraken/panel/KrakenPluginListPanel.java:302 | the sorted list is ordered by name |
| `PluginListPanels.SortByNamePermutes` | src/main/java/com/kraken/panel/KrakenPluginListPanel.java:302 | sorting keeps exactly the same rows |
| `PluginListPanels.PinAll` | src/main/java/com/kraken/panel/KrakenPluginListPanel.java:288-301 | each row gets its own pin state by the pin rule, and the rows keep their order |
| `PluginListPanels.KrakenPluginListPanel.constructor` | src/main/java/com/kraken/panel/KrakenPluginListPanel.java:148 | an empty list, the sign-in text on the Discord button, no listeners and no host calls |
| `PluginListPanels.KrakenPluginListPanel.StartAuthFlow` | src/main/java/com/kraken/panel/KrakenPluginListPanel.java:183-216 | stored user, button text and listeners become those of the auth decision table, where a returned user is stored only when complete; an authenticate exception escapes |
| `PluginListPanels.Persist` | src/main/java/com/kraken/api/KrakenCredentialManager.java:58-64 | the stored user becomes the given one exactly when it is complete (or already stored); otherwise the old one stays |
| `PluginListPanels.KrakenPluginListPanel.GetPinnedPluginNames` | src/main/java/com/kraken/panel/KrakenPluginListPanel.java:335-342 | no stored setting reads as no names; otherwise the CSV reading of the setting |
| `PluginListPanels.KrakenPluginListPanel.RebuildPluginList` | src/main/java/com/kraken/panel/KrakenPluginListPanel.java:261-307 | the list becomes the fake plugins and the registered host plugins, pinned by the saved names and sorted by name |
| `PluginListPanels.KrakenPluginListPanel.SavePinnedPlugins` | src/main/java/com/kraken/panel/KrakenPluginListPanel.java:356-363 | the setting becomes the pinned rows' names joined with commas, in list order |
| `PluginListPanels.KrakenPluginListPanel.StartPlugin` | src/main/java/com/kraken/panel/KrakenPluginListPanel.java:369-377 | the plugin is enabled, then started |
| `PluginListPanels.KrakenPluginListPanel.StopPlugin` | src/main/java/com/kraken/panel/KrakenPluginListPanel.java:383-391 | the plugin is disabled, then stopped |
| `PluginListPanels.KrakenPluginListPanel.ToggleClicked` | src/main/java/com/kraken/panel/KrakenPluginListItem.java:119-128 | a switch click starts or stops the item's plugin through the panel, or does nothing, as the item's action says |
| `PluginListPanels.AuthenticateOnlyForCompleteUser` | src/main/java/com/kraken/panel/KrakenPluginListPanel.java:185-195 | without a complete stored user the backend is not asked: the credentials are cleared and sign-in is offered |
| `PluginListPanels.DisconnectIffAuthenticated` | src/main/java/com/kraken/panel/KrakenPluginListPanel.java:189-215 | the button offers disconnect exactly when a complete stored user authenticated; the returned user replaces the stored one only when complete, otherwise the old one stays; in every other completed case the credentials are cleared and sign-in is offered |
| `PluginListPanels.RebuiltListContents` | src/main/java/com/kraken/panel/KrakenPluginListPanel.java:261-303 | the rebuilt list is sorted by name, has one row per listed plugin, and a row is in it exactly when it comes from a listed plugin with the pin the rule gives |
| `PluginListPanels.RegisteredMetadataMembers` | src/main/java/com/kraken/panel/KrakenPluginListPanel.java:267-268 | a host plugin is listed exactly when the Kraken plugin manager registered its name |
| `PluginListPanels.PinnedNamesMembers` | src/main/java/com/kraken/panel/KrakenPluginListPanel.java:357-360 | a name is saved exactly when some pinned row has it |
| `PluginListPanels.PinsSurviveSaveAndRebuild` | src/main/java/com/kraken/panel/KrakenPluginListPanel.java:292-299 | when the CSV reading gives back the saved names, a row that was pinned is pinned again after a rebuild |
| `PluginListPanels.KrakenPluginsAlwaysPinned` | src/main/java/com/kraken/panel/KrakenPluginListPanel.java:292-295 | the "Kraken Plugins" row is pinned whatever was saved |
| `JavaVersionCheck.LeadingDigits` | src/main/java/com/kraken/KrakenClient.java:20-23 | the longest all-digit prefix of the text |
| `JavaVersionCheck.FirstDigitRun` | src/main/java/com/kraken/KrakenClient.java:20-22 | what `(\d+)` finds is a non-empty run of digits |
| `JavaVersionCheck.FirstDigitRunIsFirst` | src/main/java/com/kraken/KrakenClient.java:20-23 | no run is found exactly when the text has no digit; otherwise the run is the maximal one at the first digit |
| `JavaVersionCheck.Verdict` | src/main/java/com/kraken/KrakenClient.java:15-36 | supported exactly for a found major version of at most 11; the dialog exactly for one above 11 that fits an `int`; an exception exactly when the digits overflow `int`; `false` when no digit is found |
| `JavaVersionCheck.VersionExamples` | src/main/java/com/kraken/KrakenClient.java:20-31 | "1.8.0_292" and "11.0.19" pass, "17.0.2" shows the dialog, and "ea" fails without it |
| `JavaVersionCheck.LaunchesClient` | src/main/java/com/kraken/KrakenClient.java:48-54 | the client launches exactly when the version check does not throw; its verdict is ignored |
| `JavaVersionCheck.UnsupportedStillLaunches` | src/main/java/com/kraken/KrakenClient.java:20-53 | every unsupported Java version that fits an `int`, and a version text without digits, still launches the client; the dialog is shown exactly in the first case |

## Left out

- Archive decoding (`JarInputStream`, `JarFile`), HTTP transport, Jackson JSON mapping, RuneLite's plugin and config managers, reflection and the file system are inputs to the model, not modelled code.
- ClassLoading.ByteArrayClassLoader.FindClass: parent-first delegation in `loadClass` and the bytecode verification of `defineClass` are outside the model. A class is defined whenever its name is in the map.
- JarLoading.LoadJarFromSignedUrl: a `MalformedURLException` from building the URL is treated like a failed open. An `IOException` while reading an entry is treated like the stream ending before that entry.
- The map built by `loadJarFromSignedUrl` is shared by reference with the loader (`getClassData`). The model stores a value, so aliasing is not captured.
- Logging (`log.*`, `printStackTrace`) and the unsupported-Java dialog's content are left out. Only whether the dialog is shown is kept.
- JavaStrings.ToLower: lower-cases ASCII letters only. Java's locale- and Unicode-aware `toLowerCase` is not modelled.
- PluginListPanels.NameLe: compares characters as Dafny `char` values. Java's `compareTo` compares UTF-16 code units, which differ only outside the Basic Multilingual Plane.
- PluginListPanels.SortByNameSorted: proves the result sorted and a permutation. The stability of Java's `sorted` is built into `InsertByName` but not stated as a lemma.
- UnitFormatting.UnitFormatter.StringToValue: parses ASCII digits only. `Integer.valueOf` also accepts other Unicode decimal digits.
- UnitFormatting.UnitFormatter.ValueToString: takes an `int`. `valueToString` on another object or on `null` (giving "null" plus the units) is not modelled.
- UnitFormatting.UnitFormatterFactory.GetFormatter: text fields are compared by identity through the type parameter. Swing's fields are not modelled.
- The pin button's action listener (save and refresh) and the configuration button are left out: they are Swing wiring only.
- The list panel is not built from `KrakenPluginListItem` objects. Its rows are values holding the metadata and the pin state, because the panel calls an item constructor the item class does not declare.
- PluginListPanels.KrakenPluginListPanel.constructor: the Swing layout is not modelled, nor the event-bus and tab wiring. The constructor's call to `startAuthFlow` is the separate method `StartAuthFlow`.
- PluginListPanels.KrakenPluginListPanel.constructor: Java leaves `pluginList` null until the first `rebuildPluginList`. The model starts it empty.
- PluginListPanels.KrakenPluginListPanel.constructor: the fake plugins are a constructor parameter. In the Java panel that list is created empty and nothing adds to it, so it is always empty.
- PluginListPanels.KrakenPluginListPanel.StartAuthFlow: the panel calls `credentialManager.removeUserCredentials()`, which `KrakenCredentialManager` does not declare. The model treats it as clearing the stored user.
- `refresh`, `onSearchBarChanged`, `openConfigurationPanel`, `getPreferredSize` and `onActivate` are display code. They are not modelled.
- The Discord OAuth flow (`discordOAuthFlow`, `DiscordAuth`) and `disconnectDiscord` are modelled only as the listener added to the button. Their bodies depend on a browser callback and file I/O.
- The credential manager's file I/O is modelled as the panel's `storedUser` field.
- `Text.fromCSV` is an input. The pin round trip is proved under the assumption that it reads the saved text back as the saved names.
- `HardwareUtils.getHardwareId` is an input (`Environment.hardwareId`).
- KrakenApi.RouteOf: `createPresignedUrl`, `createUser`, `authenticate`, `refreshSession`, `getUser`, `updateUserStatus` and `postDiscordOAuthCode` are modelled only by their routes and, for `updateUserStatus`, its body. Their results are not modelled per endpoint.
- `createUser`, `authenticate`, `refreshSession`, `getUser` and `postDiscordOAuthCode` go through the typed overload (`SendTyped`).
- `createPresignedUrl` uses the untyped `Object` overload. A failed send gives `null`, and `res.body()` then throws a `NullPointerException` that its `IOException` handler does not catch. A decode failure gives `null`.
- `updateUserStatus` uses the `String` overload. Transport failures and decode failures both give `null`.
- KrakenApi.SendTyped: the transport's string body handler never yields a null body, so the "null response body" branch is not modelled.
- KrakenApi.SendJson: `URI.create` rejecting a malformed path is not modelled.
- The HTTP client's ten-second connect timeout is a transport setting. It is not modelled.
- LegacyJarScanning.JarResourceLoader.constructor: an `UncheckedIOException` raised mid-walk is not modelled. Only a walk that fails at once is (`None`).
- The legacy loader's `URLClassLoader` creation and close failures are not modelled, nor the `MalformedURLException` of `loadPluginClasses`. Creation and close failures only log. The `MalformedURLException` propagates out of the call, discarding the classes kept from earlier JARs.
- The host's `loadPlugins` either returns the instantiated plugins or throws. The instances it returns, and their names, are inputs.
- The launcher's `main` calls into RuneLite after the version check. That is modelled only as "the client launches".
- The showing of the unsupported-version dialog is not modelled. In particular, the `HeadlessException` it throws without a display, which would escape `checkJavaVersion`, is not modelled.
- In `startKrakenPlugins`, a config descriptor whose group is null throws a `NullPointerException` at `KrakenPluginManager.java:115`. The model's `configGroup` input has no such case. The outer handler would end the pass, as for any other exception.
- In `loadPlugin` and `loadPluginClasses`, `loadClass` can raise `LinkageError`s such as `NoClassDefFoundError`, which escape every handler. The model's class loading only succeeds or raises `ClassNotFoundException`.
- LegacyJarScanning.SubclassOfPluginDropped: subtyping is a relation on class names per JAR loader, assumed antisymmetric. Class identity across loaders is not modelled beyond that.
