/**
 * `com.kraken.panel.KrakenPluginListPanel`: the side panel listing the Kraken
 * plugins. It decides, from the stored credentials, whether the Discord
 * button offers sign-in or disconnect; rebuilds the list from the plugins
 * the Kraken plugin manager registered, pinning and sorting them by name;
 * stores the pinned names; and enables and starts or stops a plugin for the
 * host.
 *
 * The list rows are values (`ListEntry`): the panel keeps of each row only
 * its metadata and pin state. Calls made into the host's plugin manager are
 * recorded in `hostCalls`.
 */
module PluginListPanels {
  import opened Wrappers
  import opened JavaStrings
  import opened Host
  import opened KrakenApi
  import opened PluginListItems
  import PluginManagement

  const KRAKEN_PLUGINS_NAME: string := "Kraken Plugins"
  const PINNED_PLUGINS_CONFIG_KEY: string := "krakenPinnedPlugins"
  const DISCONNECT_DISCORD_BUTTON_TEXT: string := "Disconnect Discord"
  const SIGN_IN_DISCORD_BUTTON_TEXT: string := "Sign-in with Discord"

  /** The listeners the Discord button can be given; added ones are never removed. */
  datatype ButtonListener = DiscordOAuthFlow | DisconnectDiscord

  /** One row of the rebuilt list. */
  datatype ListEntry = ListEntry(meta: PluginMetadata, pinned: bool)

  // ---------------------------------------------------------------- auth flow

  /** The state `startAuthFlow` acts on: stored credentials and the Discord button. */
  datatype AuthState = AuthState(storedUser: Option<CognitoUser>, buttonText: string, listeners: seq<ButtonListener>)

  /** `startAuthFlow` ends normally, or the authenticate call raises and the exception escapes. */
  datatype AuthOutcome = AuthCompleted(state: AuthState) | AuthEscaped(state: AuthState)

  /** A stored user can be authenticated only with a Discord id, credentials and a Discord username. */
  predicate IsComplete(user: CognitoUser) {
    user.discordId.Some? && user.credentials.Some? && user.discordUsername.Some?
  }

  /** Offer the Discord OAuth flow on the button. */
  function OfferSignIn(s: AuthState): AuthState {
    s.(buttonText := SIGN_IN_DISCORD_BUTTON_TEXT, listeners := s.listeners + [DiscordOAuthFlow])
  }

  /**
   * What the credential manager holds after `persistUserCredentials(user)`:
   * the user, unless it lacks a Discord username, a Discord id or
   * credentials, in which case nothing is written and the old user stays.
   */
  function Persist(stored: Option<CognitoUser>, user: CognitoUser): (r: Option<CognitoUser>)
    ensures r == Some(user) <==> IsComplete(user) || stored == Some(user)
    ensures r != Some(user) ==> r == stored
  {
    if IsComplete(user) then Some(user) else stored
  }

  /** The decision table of `startAuthFlow`. */
  function AuthFlow(s: AuthState, authenticate: CognitoUser -> Typed<CognitoUser>): AuthOutcome {
    match s.storedUser
    case None => AuthCompleted(OfferSignIn(s))
    case Some(user) =>
      if !IsComplete(user) then AuthCompleted(OfferSignIn(s.(storedUser := None)))
      else match authenticate(user)
        case Value(newCreds) =>
          AuthCompleted(s.(storedUser := Persist(s.storedUser, newCreds), buttonText := DISCONNECT_DISCORD_BUTTON_TEXT,
                           listeners := s.listeners + [DisconnectDiscord]))
        case Null => AuthCompleted(OfferSignIn(s).(storedUser := None))
        case Raised(_) => AuthEscaped(s)
  }

  // ---------------------------------------------------------------- ordering by name

  /** `a.compareTo(b) <= 0`: lexicographic, a proper prefix first. */
  predicate NameLe(a: string, b: string) {
    if a == [] then true
    else if b == [] then false
    else if a[0] != b[0] then a[0] < b[0]
    else NameLe(a[1..], b[1..])
  }

  lemma {:induction false} NameLeTotal(a: string, b: string)
    ensures NameLe(a, b) || NameLe(b, a)
  {
    if a != [] && b != [] && a[0] == b[0] {
      NameLeTotal(a[1..], b[1..]);
    }
  }

  lemma {:induction false} NameLeTransitive(a: string, b: string, c: string)
    requires NameLe(a, b) && NameLe(b, c)
    ensures NameLe(a, c)
  {
    if a != [] && b != [] && c != [] && a[0] == b[0] && b[0] == c[0] {
      NameLeTransitive(a[1..], b[1..], c[1..]);
    }
  }

  predicate SortedByName(s: seq<ListEntry>) {
    forall i, j :: 0 <= i < j < |s| ==> NameLe(s[i].meta.name, s[j].meta.name)
  }

  /** Place `e` after every entry whose name is not greater than its own. */
  function InsertByName(s: seq<ListEntry>, e: ListEntry): seq<ListEntry> {
    if s == [] then [e]
    else if NameLe(s[|s| - 1].meta.name, e.meta.name) then s + [e]
    else InsertByName(s[..|s| - 1], e) + [s[|s| - 1]]
  }

  /** `sorted(Comparator.comparing(name))`, by insertion in list order. */
  function SortByName(s: seq<ListEntry>): seq<ListEntry> {
    if s == [] then [] else InsertByName(SortByName(s[..|s| - 1]), s[|s| - 1])
  }

  lemma {:induction false} InsertByNamePermutes(s: seq<ListEntry>, e: ListEntry)
    ensures multiset(InsertByName(s, e)) == multiset(s) + multiset{e}
  {
    if s != [] && !NameLe(s[|s| - 1].meta.name, e.meta.name) {
      InsertByNamePermutes(s[..|s| - 1], e);
      assert s == s[..|s| - 1] + [s[|s| - 1]];
    }
  }

  lemma {:induction false} InsertByNameSorted(s: seq<ListEntry>, e: ListEntry)
    requires SortedByName(s)
    ensures SortedByName(InsertByName(s, e))
  {
    if s != [] {
      var last := s[|s| - 1];
      if NameLe(last.meta.name, e.meta.name) {
        var r := s + [e];
        forall i, j | 0 <= i < j < |r| ensures NameLe(r[i].meta.name, r[j].meta.name) {
          if j == |s| && i < |s| - 1 {
            NameLeTransitive(s[i].meta.name, last.meta.name, e.meta.name);
          }
        }
      } else {
        var init := s[..|s| - 1];
        InsertByNameSorted(init, e);
        InsertByNamePermutes(init, e);
        NameLeTotal(last.meta.name, e.meta.name);
        var front := InsertByName(init, e);
        var r := front + [last];
        forall i | 0 <= i < |front| ensures NameLe(front[i].meta.name, last.meta.name) {
          assert front[i] in multiset(front);
          if front[i] != e {
            assert front[i] in multiset(init);
            var k :| 0 <= k < |init| && init[k] == front[i];
            assert s[k] == init[k];
          }
        }
        forall i, j | 0 <= i < j < |r| ensures NameLe(r[i].meta.name, r[j].meta.name) {
          if j == |front| {
            assert r[i] == front[i];
          } else {
            assert r[i] == front[i] && r[j] == front[j];
          }
        }
      }
    }
  }

  /** The sort orders by name. */
  lemma {:induction false} SortByNameSorted(s: seq<ListEntry>)
    ensures SortedByName(SortByName(s))
  {
    if s != [] {
      SortByNameSorted(s[..|s| - 1]);
      InsertByNameSorted(SortByName(s[..|s| - 1]), s[|s| - 1]);
    }
  }

  /** The sort keeps every entry as often as it was given. */
  lemma {:induction false} SortByNamePermutes(s: seq<ListEntry>)
    ensures multiset(SortByName(s)) == multiset(s)
  {
    if s != [] {
      var init := s[..|s| - 1];
      var last := s[|s| - 1];
      var sortedInit := SortByName(init);
      assert SortByName(s) == InsertByName(sortedInit, last);
      SortByNamePermutes(init);
      InsertByNamePermutes(sortedInit, last);
      calc {
        multiset(s);
        { assert s == init + [last]; }
        multiset(init + [last]);
        multiset(init) + multiset{last};
      }
    }
  }

  // ---------------------------------------------------------------- rebuilding the list

  /** The host plugins the Kraken plugin manager registered, as metadata, in host order. */
  function RegisteredMetadata(hostPlugins: seq<Plugin>, metadataOf: Plugin -> PluginMetadata,
                              pluginMap: map<string, Plugin>): seq<PluginMetadata> {
    if hostPlugins == [] then []
    else
      var p := hostPlugins[|hostPlugins| - 1];
      RegisteredMetadata(hostPlugins[..|hostPlugins| - 1], metadataOf, pluginMap)
        + (if p.name in pluginMap then [metadataOf(p)] else [])
  }

  /** "Kraken Plugins" is always pinned; any other row is pinned when its name was saved as pinned. */
  function PinEntry(meta: PluginMetadata, pinnedNames: seq<string>): ListEntry {
    ListEntry(meta, meta.name == KRAKEN_PLUGINS_NAME || meta.name in pinnedNames)
  }

  function PinAll(metas: seq<PluginMetadata>, pinnedNames: seq<string>): (r: seq<ListEntry>)
    ensures |r| == |metas| && forall i :: 0 <= i < |metas| ==> r[i] == PinEntry(metas[i], pinnedNames)
  {
    seq(|metas|, i requires 0 <= i < |metas| => PinEntry(metas[i], pinnedNames))
  }

  /** The list `rebuildPluginList` builds: fake plugins, then registered host plugins, pinned, then sorted. */
  function RebuiltList(fakePlugins: seq<PluginMetadata>, hostPlugins: seq<Plugin>, metadataOf: Plugin -> PluginMetadata,
                       pluginMap: map<string, Plugin>, pinnedNames: seq<string>): seq<ListEntry> {
    SortByName(PinAll(fakePlugins + RegisteredMetadata(hostPlugins, metadataOf, pluginMap), pinnedNames))
  }

  /** The names of the pinned rows, in list order. */
  function PinnedNames(list: seq<ListEntry>): seq<string> {
    if list == [] then []
    else PinnedNames(list[..|list| - 1]) + (if list[|list| - 1].pinned then [list[|list| - 1].meta.name] else [])
  }

  // ---------------------------------------------------------------- the panel

  class KrakenPluginListPanel {
    const fakePlugins: seq<PluginMetadata>
    var pluginList: seq<ListEntry>
    /** The value stored under `krakenPinnedPlugins` in the RuneLite config group. */
    var pinnedSetting: Option<string>
    /** What the credential manager holds on disk. */
    var storedUser: Option<CognitoUser>
    var buttonText: string
    var buttonListeners: seq<ButtonListener>
    var hostCalls: seq<HostCall>

    constructor (fakePlugins: seq<PluginMetadata>, storedUser: Option<CognitoUser>, pinnedSetting: Option<string>)
      ensures this.fakePlugins == fakePlugins && this.storedUser == storedUser && this.pinnedSetting == pinnedSetting
      ensures pluginList == [] && buttonText == SIGN_IN_DISCORD_BUTTON_TEXT && buttonListeners == [] && hostCalls == []
    {
      this.fakePlugins := fakePlugins;
      this.storedUser := storedUser;
      this.pinnedSetting := pinnedSetting;
      pluginList := [];
      buttonText := SIGN_IN_DISCORD_BUTTON_TEXT;
      buttonListeners := [];
      hostCalls := [];
    }

    /** `startAuthFlow`, with `krakenClient.authenticate` as an input. */
    method StartAuthFlow(authenticate: CognitoUser -> Typed<CognitoUser>) returns (escaped: bool)
      modifies this`storedUser, this`buttonText, this`buttonListeners
      ensures var r := AuthFlow(AuthState(old(storedUser), old(buttonText), old(buttonListeners)), authenticate);
        && escaped == r.AuthEscaped?
        && AuthState(storedUser, buttonText, buttonListeners) == r.state
    {
      escaped := false;
      if storedUser.None? {
        buttonText := SIGN_IN_DISCORD_BUTTON_TEXT;
        buttonListeners := buttonListeners + [DiscordOAuthFlow];
      } else if storedUser.value.discordId.None? || storedUser.value.credentials.None? || storedUser.value.discordUsername.None? {
        // "User data is corrupted re-auth with discord required."
        storedUser := None;
        buttonText := SIGN_IN_DISCORD_BUTTON_TEXT;
        buttonListeners := buttonListeners + [DiscordOAuthFlow];
      } else {
        var newCreds := authenticate(storedUser.value);
        match newCreds {
          case Raised(_) =>
            escaped := true;
          case Value(creds) =>
            // persistUserCredentials skips a user with missing fields
            if creds.discordUsername.Some? && creds.discordId.Some? && creds.credentials.Some? {
              storedUser := Some(creds);
            }
            buttonListeners := buttonListeners + [DisconnectDiscord];
            buttonText := DISCONNECT_DISCORD_BUTTON_TEXT;
          case Null =>
            buttonText := SIGN_IN_DISCORD_BUTTON_TEXT;
            buttonListeners := buttonListeners + [DiscordOAuthFlow];
            storedUser := None;
        }
      }
    }

    /** `getPinnedPluginNames`: nothing stored reads as no names; `fromCSV` is RuneLite's `Text.fromCSV`. */
    function GetPinnedPluginNames(fromCSV: string -> seq<string>): (names: seq<string>)
      reads this
      ensures pinnedSetting.None? ==> names == []
      ensures pinnedSetting.Some? ==> names == fromCSV(pinnedSetting.value)
    {
      match pinnedSetting
      case None => []
      case Some(config) => fromCSV(config)
    }

    /** `rebuildPluginList`, over the host's plugins and the Kraken plugin manager's `pluginMap`. */
    method RebuildPluginList(hostPlugins: seq<Plugin>, metadataOf: Plugin -> PluginMetadata,
                             manager: PluginManagement.KrakenPluginManager, fromCSV: string -> seq<string>)
      modifies this`pluginList
      ensures pluginList == RebuiltList(fakePlugins, hostPlugins, metadataOf, manager.pluginMap, GetPinnedPluginNames(fromCSV))
    {
      var pinnedPlugins := GetPinnedPluginNames(fromCSV);
      var metas := fakePlugins + RegisteredMetadata(hostPlugins, metadataOf, manager.pluginMap);
      pluginList := SortByName(PinAll(metas, pinnedPlugins));
    }

    /** `savePinnedPlugins`: the pinned rows' names, comma-joined. */
    method SavePinnedPlugins()
      modifies this`pinnedSetting
      ensures pinnedSetting == Some(Join(PinnedNames(pluginList), ","))
    {
      pinnedSetting := Some(Join(PinnedNames(pluginList), ","));
    }

    /** Enable, then start; a start failure is only logged. */
    method StartPlugin(plugin: Plugin)
      modifies this`hostCalls
      ensures hostCalls == old(hostCalls) + [SetPluginEnabled(plugin, true), HostCall.StartPlugin(plugin)]
    {
      hostCalls := hostCalls + [SetPluginEnabled(plugin, true)];
      hostCalls := hostCalls + [HostCall.StartPlugin(plugin)];
    }

    /** Disable, then stop; a stop failure is only logged. */
    method StopPlugin(plugin: Plugin)
      modifies this`hostCalls
      ensures hostCalls == old(hostCalls) + [SetPluginEnabled(plugin, false), HostCall.StopPlugin(plugin)]
    {
      hostCalls := hostCalls + [SetPluginEnabled(plugin, false)];
      hostCalls := hostCalls + [HostCall.StopPlugin(plugin)];
    }

    /** A click on an item's switch: the item's request, carried out by the panel. */
    method ToggleClicked(item: KrakenPluginListItem)
      modifies this`hostCalls
      ensures item.ToggleAction().NoRequest? ==> hostCalls == old(hostCalls)
      ensures item.ToggleAction().StartRequested? ==>
        hostCalls == old(hostCalls) + [SetPluginEnabled(item.ToggleAction().plugin, true), HostCall.StartPlugin(item.ToggleAction().plugin)]
      ensures item.ToggleAction().StopRequested? ==>
        hostCalls == old(hostCalls) + [SetPluginEnabled(item.ToggleAction().plugin, false), HostCall.StopPlugin(item.ToggleAction().plugin)]
    {
      match item.ToggleAction() {
        case StartRequested(p) => StartPlugin(p);
        case StopRequested(p) => StopPlugin(p);
        case NoRequest =>
      }
    }
  }

  // ---------------------------------------------------------------- properties

  /** The authenticate call is made only for a complete stored user: otherwise the outcome does not depend on it. */
  lemma AuthenticateOnlyForCompleteUser(s: AuthState, auth1: CognitoUser -> Typed<CognitoUser>, auth2: CognitoUser -> Typed<CognitoUser>)
    requires s.storedUser.None? || !IsComplete(s.storedUser.value)
    ensures AuthFlow(s, auth1) == AuthFlow(s, auth2)
    ensures AuthFlow(s, auth1).AuthCompleted?
    ensures AuthFlow(s, auth1).state.buttonText == SIGN_IN_DISCORD_BUTTON_TEXT
    ensures AuthFlow(s, auth1).state.storedUser == None
  {
  }

  /**
   * The button offers disconnect exactly when a complete stored user
   * authenticated; the returned user then replaces it on disk only when the
   * returned user is itself complete, and otherwise the old user stays.
   */
  lemma DisconnectIffAuthenticated(s: AuthState, authenticate: CognitoUser -> Typed<CognitoUser>)
    requires AuthFlow(s, authenticate).AuthCompleted?
    ensures var r := AuthFlow(s, authenticate).state;
      && (r.buttonText == DISCONNECT_DISCORD_BUTTON_TEXT <==>
           s.storedUser.Some? && IsComplete(s.storedUser.value) && authenticate(s.storedUser.value).Value?)
      && (r.buttonText == DISCONNECT_DISCORD_BUTTON_TEXT ==>
           var returned := authenticate(s.storedUser.value).value;
           && r.listeners == s.listeners + [DisconnectDiscord]
           && (IsComplete(returned) ==> r.storedUser == Some(returned))
           && (!IsComplete(returned) ==> r.storedUser == s.storedUser))
      && (r.buttonText != DISCONNECT_DISCORD_BUTTON_TEXT ==> r.storedUser == None && r.listeners == s.listeners + [DiscordOAuthFlow])
  {
  }

  /** A rebuilt row comes from exactly one listed plugin, pinned by the rule; and every listed plugin has its row. */
  lemma {:induction false} RebuiltListContents(fakePlugins: seq<PluginMetadata>, hostPlugins: seq<Plugin>,
                                               metadataOf: Plugin -> PluginMetadata, pluginMap: map<string, Plugin>,
                                               pinnedNames: seq<string>, e: ListEntry)
    ensures var list := RebuiltList(fakePlugins, hostPlugins, metadataOf, pluginMap, pinnedNames);
      && SortedByName(list)
      && |list| == |fakePlugins| + |RegisteredMetadata(hostPlugins, metadataOf, pluginMap)|
      && (e in list <==>
           (e.meta in fakePlugins || e.meta in RegisteredMetadata(hostPlugins, metadataOf, pluginMap))
           && e == PinEntry(e.meta, pinnedNames))
  {
    var metas := fakePlugins + RegisteredMetadata(hostPlugins, metadataOf, pluginMap);
    var pinned := PinAll(metas, pinnedNames);
    SortByNameSorted(pinned);
    SortByNamePermutes(pinned);
    var list := SortByName(pinned);
    assert |list| == |multiset(list)| == |multiset(pinned)| == |pinned|;
    assert e in list <==> e in multiset(pinned);
    if e in pinned {
      var i :| 0 <= i < |pinned| && pinned[i] == e;
      assert metas[i] in metas;
    }
    if e.meta in metas && e == PinEntry(e.meta, pinnedNames) {
      var i :| 0 <= i < |metas| && metas[i] == e.meta;
      assert pinned[i] == e;
    }
  }

  /** A host plugin is listed exactly when the Kraken plugin manager registered its name. */
  lemma {:induction false} RegisteredMetadataMembers(hostPlugins: seq<Plugin>, metadataOf: Plugin -> PluginMetadata,
                                                     pluginMap: map<string, Plugin>, meta: PluginMetadata)
    ensures meta in RegisteredMetadata(hostPlugins, metadataOf, pluginMap) <==>
      exists i :: 0 <= i < |hostPlugins| && hostPlugins[i].name in pluginMap && metadataOf(hostPlugins[i]) == meta
  {
    if hostPlugins != [] {
      var init := hostPlugins[..|hostPlugins| - 1];
      RegisteredMetadataMembers(init, metadataOf, pluginMap, meta);
      forall i | 0 <= i < |init| ensures init[i] == hostPlugins[i] { }
    }
  }

  /**
   * Saving and rebuilding keeps pins: when `fromCSV` reads the saved text back
   * as the saved names, a row whose name was pinned is pinned again.
   */
  lemma PinsSurviveSaveAndRebuild(list: seq<ListEntry>, fromCSV: string -> seq<string>, meta: PluginMetadata)
    requires fromCSV(Join(PinnedNames(list), ",")) == PinnedNames(list)
    requires ListEntry(meta, true) in list
    ensures PinEntry(meta, fromCSV(Join(PinnedNames(list), ","))).pinned
  {
    PinnedNamesMembers(list, meta.name);
  }

  lemma {:induction false} PinnedNamesMembers(list: seq<ListEntry>, name: string)
    ensures name in PinnedNames(list) <==> exists i :: 0 <= i < |list| && list[i].pinned && list[i].meta.name == name
  {
    if list != [] {
      var init := list[..|list| - 1];
      PinnedNamesMembers(init, name);
      forall i | 0 <= i < |init| ensures init[i] == list[i] { }
    }
  }

  /** "Kraken Plugins" is pinned whatever was saved. */
  lemma KrakenPluginsAlwaysPinned(meta: PluginMetadata, pinnedNames: seq<string>)
    requires meta.name == KRAKEN_PLUGINS_NAME
    ensures PinEntry(meta, pinnedNames).pinned
  {
  }
}
