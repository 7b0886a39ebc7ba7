/**
 * `com.kraken.panel.KrakenPluginListItem`: one row of the Kraken plugin list:
 * the plugin's name, a pin star, and an on/off switch that starts or stops
 * the plugin, but only when its licence was verified.
 */
module PluginListItems {
  import opened Wrappers
  import opened JavaStrings
  import opened Host
  import opened ToggleButton

  /** `PluginMetadata`: what the list shows about a plugin. */
  datatype PluginMetadata = PluginMetadata(
    name: string,
    description: string,
    tags: seq<string>,
    plugin: Option<Plugin>,
    hasConfigDescriptor: bool,
    conflicts: Option<seq<string>>)

  /** What a click on the switch asks the list panel to do. */
  datatype ToggleRequest = StartRequested(plugin: Plugin) | StopRequested(plugin: Plugin) | NoRequest

  /** The search keywords: name words, then description words (both lower-cased, split on ' '), then the tags. */
  function Keywords(meta: PluginMetadata): seq<string> {
    JavaSplit(ToLower(meta.name), ' ') + JavaSplit(ToLower(meta.description), ' ') + meta.tags
  }

  /** The name label's tooltip: only for a non-empty description. */
  function NameTooltip(meta: PluginMetadata): Option<string> {
    if meta.description == [] then None
    else Some("<html>" + meta.name + ":<br>" + meta.description + "</html>")
  }

  class KrakenPluginListItem {
    const pluginConfig: PluginMetadata
    const verifiedPlugin: bool
    const pinnable: bool
    var keywords: seq<string>
    const nameTooltip: Option<string>
    /** The pin star's selected state. */
    var pinned: bool
    var onOffToggle: PluginToggleButton
    /** Whether the switch was added to the button panel, is visible, and has the start/stop listener. */
    var toggleAdded: bool
    var toggleVisible: bool
    var toggleListening: bool

    constructor (pluginConfig: PluginMetadata, pinnable: bool, enableToggle: bool, verified: bool)
      ensures this.pluginConfig == pluginConfig && verifiedPlugin == verified && this.pinnable == pinnable
      ensures keywords == Keywords(pluginConfig)
      ensures nameTooltip == NameTooltip(pluginConfig)
      ensures !pinned && fresh(onOffToggle)
      ensures !enableToggle ==> onOffToggle.valid && !toggleAdded && toggleVisible && !toggleListening
      ensures enableToggle ==>
        && onOffToggle.valid == verified
        && onOffToggle.conflictString == ConflictPhrase(pluginConfig.conflicts)
        && toggleAdded
        && toggleVisible == pluginConfig.plugin.Some?
        && toggleListening == pluginConfig.plugin.Some?
    {
      this.pluginConfig := pluginConfig;
      this.verifiedPlugin := verified;
      this.pinnable := pinnable;
      var words: seq<string> := [];
      words := words + JavaSplit(ToLower(pluginConfig.name), ' ');
      words := words + JavaSplit(ToLower(pluginConfig.description), ' ');
      words := words + pluginConfig.tags;
      keywords := words;
      if pluginConfig.description != [] {
        nameTooltip := Some("<html>" + pluginConfig.name + ":<br>" + pluginConfig.description + "</html>");
      } else {
        nameTooltip := None;
      }
      pinned := false;
      var toggle := new PluginToggleButton(true);
      var added, visible, listening := false, true, false;
      if enableToggle {
        toggle := new PluginToggleButton(verified);
        toggle.SetConflicts(pluginConfig.conflicts);
        added := true;
        if pluginConfig.plugin.Some? {
          listening := true;
        } else {
          visible := false;
        }
      }
      onOffToggle := toggle;
      toggleAdded, toggleVisible, toggleListening := added, visible, listening;
    }

    /**
     * The switch's action listener after a click has set `onOffToggle.selected`:
     * start when switched on, stop when switched off, and nothing at all for
     * an unverified plugin or a switch without listener.
     */
    function ToggleAction(): (r: ToggleRequest)
      reads this, onOffToggle
      ensures r != NoRequest <==> toggleListening && verifiedPlugin && pluginConfig.plugin.Some?
      ensures r.StartRequested? <==> r != NoRequest && onOffToggle.selected
      ensures r != NoRequest ==> r.plugin == pluginConfig.plugin.value
    {
      if !toggleListening || pluginConfig.plugin.None? then NoRequest
      else if onOffToggle.selected then
        if verifiedPlugin then StartRequested(pluginConfig.plugin.value) else NoRequest
      else
        if verifiedPlugin then StopRequested(pluginConfig.plugin.value) else NoRequest
    }

    function SearchableName(): (name: string)
      ensures name == pluginConfig.name
    {
      pluginConfig.name
    }

    function IsPinned(): bool
      reads this
    {
      pinned
    }

    method SetPinned(pinned: bool)
      modifies this`pinned
      ensures IsPinned() == pinned
    {
      this.pinned := pinned;
    }

    method SetPluginEnabled(enabled: bool)
      modifies onOffToggle
      ensures onOffToggle.selected == enabled
      ensures onOffToggle.tooltip == TooltipText(enabled, onOffToggle.conflictString)
      ensures onOffToggle.conflictString == old(onOffToggle.conflictString)
      ensures onOffToggle.valid == old(onOffToggle.valid)
      ensures onOffToggle.icon == old(onOffToggle.icon) && onOffToggle.selectedIcon == old(onOffToggle.selectedIcon)
    {
      onOffToggle.SetSelected(enabled);
    }
  }

  /** No name or description keyword contains a space, and the tags come last, unchanged. */
  lemma KeywordsAreWords(meta: PluginMetadata)
    ensures var k := Keywords(meta); var t := |k| - |meta.tags|;
      && t >= 0
      && k[t..] == meta.tags
      && forall i :: 0 <= i < t ==> ' ' !in k[i]
  {
    var nameWords := JavaSplit(ToLower(meta.name), ' ');
    var descWords := JavaSplit(ToLower(meta.description), ' ');
    JavaSplitReassembles(ToLower(meta.name), ' ');
    JavaSplitReassembles(ToLower(meta.description), ' ');
    var k := Keywords(meta);
    forall i | 0 <= i < |nameWords| + |descWords| ensures ' ' !in k[i] {
      if i < |nameWords| {
        assert k[i] == nameWords[i];
      } else {
        assert k[i] == descWords[i - |nameWords|];
      }
    }
  }

  /** The name keywords rejoined with single spaces give the lower-cased name, up to trailing spaces. */
  lemma NameKeywordsRejoin(meta: PluginMetadata)
    ensures var n := |JavaSplit(ToLower(meta.name), ' ')|;
      n <= |Keywords(meta)| &&
      exists k: nat :: ToLower(meta.name) == Join(Keywords(meta)[..n], " ") + Repeat(' ', k)
  {
    var nameWords := JavaSplit(ToLower(meta.name), ' ');
    JavaSplitReassembles(ToLower(meta.name), ' ');
    assert Keywords(meta)[..|nameWords|] == nameWords;
  }
}
