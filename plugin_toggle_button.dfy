/**
 * `com.kraken.panel.PluginToggleButton`: the on/off switch of a plugin list
 * item. Its selected icon says whether the plugin's licence is valid, and its
 * tooltip names the plugins it conflicts with.
 */
module ToggleButton {
  import opened Wrappers

  /** The three switch images. */
  datatype SwitcherIcon = OnSwitcher | OffSwitcher | InvalidSwitcher

  const CONFLICTS_PREFIX: string := "<br>Plugin conflicts: "
  const DISABLE_TEXT: string := "Disable plugin"
  const ENABLE_TEXT: string := "<html>Enable plugin"

  /** Names in English list form: "a", "a and b", "a, b and c". */
  function EnglishList(names: seq<string>): string
    requires names != []
  {
    if |names| == 1 then names[0]
    else if |names| == 2 then names[0] + " and " + names[1]
    else names[0] + ", " + EnglishList(names[1..])
  }

  /** The conflict suffix of the tooltip: empty without conflicts. */
  function ConflictPhrase(conflicts: Option<seq<string>>): string {
    if conflicts.None? || conflicts.value == [] then "" else CONFLICTS_PREFIX + EnglishList(conflicts.value)
  }

  /** `updateTooltip`'s text. */
  function TooltipText(selected: bool, conflictString: string): string {
    if selected then DISABLE_TEXT else ENABLE_TEXT + conflictString
  }

  /** The selected icon for a licence state. */
  function SelectedIconFor(valid: bool): SwitcherIcon {
    if valid then OnSwitcher else InvalidSwitcher
  }

  /** What the builder loop has appended after `i` names: each name followed by ", ". */
  function CommaRun(names: seq<string>): string {
    if names == [] then "" else CommaRun(names[..|names| - 1]) + names[|names| - 1] + ", "
  }

  lemma {:induction false} CommaRunPrepend(first: string, rest: seq<string>)
    ensures CommaRun([first] + rest) == first + ", " + CommaRun(rest)
  {
    if rest != [] {
      assert ([first] + rest)[..|rest|] == [first] + rest[..|rest| - 1];
      CommaRunPrepend(first, rest[..|rest| - 1]);
    } else {
      assert [first] + rest == [first];
      assert [first][..0] == [];
    }
  }

  /** The builder's output (commas, then " and " before the last name) is the English list. */
  lemma {:induction false} BuilderIsEnglishList(names: seq<string>)
    requires |names| >= 2
    ensures CommaRun(names[..|names| - 2]) + names[|names| - 2] + " and " + names[|names| - 1] == EnglishList(names)
  {
    if |names| > 2 {
      var rest := names[1..];
      BuilderIsEnglishList(rest);
      assert names[..|names| - 2] == [names[0]] + rest[..|rest| - 2];
      CommaRunPrepend(names[0], rest[..|rest| - 2]);
    } else {
      assert names[..0] == [];
    }
  }

  class PluginToggleButton {
    /** Set by the constructor only. */
    var valid: bool
    var icon: SwitcherIcon
    var selectedIcon: SwitcherIcon
    var selected: bool
    var conflictString: string
    var tooltip: string

    constructor (valid: bool)
      ensures this.valid == valid
      ensures icon == OffSwitcher && selectedIcon == SelectedIconFor(valid)
      ensures !selected && conflictString == "" && tooltip == TooltipText(false, "")
    {
      this.valid := valid;
      icon := OffSwitcher;
      selectedIcon := if valid then OnSwitcher else InvalidSwitcher;
      selected := false;
      conflictString := "";
      tooltip := "";
      new;
      UpdateTooltip();
    }

    /** Only the selected icon follows the new state; `valid` keeps its constructor value. */
    method SetValid(valid: bool)
      modifies this`selectedIcon
      ensures selectedIcon == SelectedIconFor(valid)
    {
      if !valid {
        selectedIcon := InvalidSwitcher;
        return;
      }
      selectedIcon := OnSwitcher;
    }

    /** `setSelected`, with the item listener that refreshes the tooltip. */
    method SetSelected(selected: bool)
      modifies this`selected, this`tooltip
      ensures this.selected == selected && tooltip == TooltipText(selected, conflictString)
    {
      this.selected := selected;
      UpdateTooltip();
    }

    method UpdateTooltip()
      modifies this`tooltip
      ensures tooltip == TooltipText(selected, conflictString)
    {
      tooltip := if selected then DISABLE_TEXT else ENABLE_TEXT + conflictString;
    }

    /** `setConflicts`: builds the conflict phrase (`None` for a null list) and refreshes the tooltip. */
    method SetConflicts(conflicts: Option<seq<string>>)
      modifies this`conflictString, this`tooltip
      ensures conflictString == ConflictPhrase(conflicts)
      ensures tooltip == TooltipText(selected, conflictString)
    {
      if conflicts.Some? && conflicts.value != [] {
        var names := conflicts.value;
        var sb := CONFLICTS_PREFIX;
        var i := 0;
        while i < |names| - 2
          invariant 0 <= i <= if |names| >= 2 then |names| - 2 else 0
          invariant sb == CONFLICTS_PREFIX + CommaRun(names[..i])
        {
          assert names[..i + 1][..i] == names[..i];
          sb := sb + names[i];
          sb := sb + ", ";
          i := i + 1;
        }
        if |names| >= 2 {
          sb := sb + names[|names| - 2];
          sb := sb + " and ";
        }
        sb := sb + names[|names| - 1];
        if |names| >= 2 {
          BuilderIsEnglishList(names);
        } else {
          assert names[..0] == [];
        }
        conflictString := sb;
      } else {
        conflictString := "";
      }
      UpdateTooltip();
    }
  }

  /** The phrase for one, two and three conflicts. */
  lemma ConflictPhraseExamples()
    ensures ConflictPhrase(Some(["A"])) == "<br>Plugin conflicts: A"
    ensures ConflictPhrase(Some(["A", "B"])) == "<br>Plugin conflicts: A and B"
    ensures ConflictPhrase(Some(["A", "B", "C"])) == "<br>Plugin conflicts: A, B and C"
    ensures ConflictPhrase(None) == "" && ConflictPhrase(Some([])) == ""
  {
    assert ["A", "B", "C"][1..] == ["B", "C"];
  }
}
