/**
 * The configuration file has two readers: the menu-bar application's
 * `load_hotkey_config()` and the settings window's `load_current_settings()`.
 * They agree on every file the setup flows write, and differ on hand-edited
 * files: the first takes the FIRST `HOTKEY=` line and only lines that start
 * with the key, the second takes the LAST one and strips each line first.
 */
module Readers {
  import opened Strings
  import opened EnvFile
  import ClipApp
  import SetupGui

  /** On a written file both readers show the hotkey that was written. */
  lemma WrittenFileAgrees(apiKey: string, databaseId: string, hotkey: string)
    requires NoLineBreak(apiKey) && NoLineBreak(databaseId) && NoLineBreak(hotkey)
    requires Bare(apiKey, WhitespaceOrQuotes) && Bare(databaseId, WhitespaceOrQuotes)
    requires Bare(hotkey, WhitespaceOrQuotes)
    ensures ClipApp.HotkeyConfig(Present(EnvContent(apiKey, databaseId, hotkey))).0
         == SetupGui.LoadedSettings(Present(EnvContent(apiKey, databaseId, hotkey))).hotkey
         == hotkey
  {
    ClipApp.HotkeyRoundTrip(apiKey, databaseId, hotkey);
    SetupGui.SettingsRoundTrip(apiKey, databaseId, hotkey);
  }

  /** A file holding two `HOTKEY=` lines. */
  function TwoHotkeys(first: string, second: string): string {
    HotkeyKey + (first + ("\n" + (HotkeyKey + (second + "\n"))))
  }

  lemma TwoHotkeysLines(first: string, second: string)
    requires NoLineBreak(first) && NoLineBreak(second)
    ensures FileLines(TwoHotkeys(first, second)) == [HotkeyKey + first + "\n", HotkeyKey + second + "\n"]
  {
    ReadNewlinesNoCr(TwoHotkeys(first, second));
    assert "\n" + "" == "\n";
    LinesCons(HotkeyKey, second, "");
    LinesCons(HotkeyKey, first, HotkeyKey + (second + "\n"));
  }

  /** With a repeated `HOTKEY=` line the application uses the first and the settings window shows the last. */
  lemma RepeatedHotkey(first: string, second: string)
    requires NoLineBreak(first) && NoLineBreak(second)
    requires Bare(first, WhitespaceOrQuotes) && Bare(second, WhitespaceOrQuotes)
    ensures ClipApp.HotkeyConfig(Present(TwoHotkeys(first, second))) == (first, ClipApp.PynputFor(first))
    ensures SetupGui.LoadedSettings(Present(TwoHotkeys(first, second))).hotkey == second
  {
    var l0 := HotkeyKey + first + "\n";
    var l1 := HotkeyKey + second + "\n";
    TwoHotkeysLines(first, second);
    assert ClipApp.FirstMatch([l0, l1], HotkeyKey) == 0 by {
      assert l0[..|HotkeyKey|] == HotkeyKey;
    }
    ClipApp.HotkeyLineValue(first);
    WindowTakesLast(first, second);
  }

  /** The settings window reads two hotkey lines as the second one. */
  lemma WindowTakesLast(first: string, second: string)
    requires Bare(first, WhitespaceOrQuotes) && Bare(second, WhitespaceOrQuotes)
    ensures SetupGui.ParseSettings(SetupGui.StripLines([HotkeyKey + first + "\n", HotkeyKey + second + "\n"])).hotkey
         == second
  {
    TwoHotkeysStripped(first, second);
    TwoHotkeysParse(first, second);
  }

  lemma TwoHotkeysStripped(first: string, second: string)
    requires Bare(first, Whitespace) && Bare(second, Whitespace)
    ensures SetupGui.StripLines([HotkeyKey + first + "\n", HotkeyKey + second + "\n"])
         == [HotkeyKey + first, HotkeyKey + second]
  {
    var l0 := HotkeyKey + first + "\n";
    var l1 := HotkeyKey + second + "\n";
    assert SetupGui.StripLines([l0]) == [HotkeyKey + first] by {
      SetupGui.StrippedLine(HotkeyKey, first);
      SetupGui.StripLinesSnoc([], l0);
      assert [] + [l0] == [l0];
    }
    SetupGui.StrippedLine(HotkeyKey, second);
    SetupGui.StripLinesSnoc([l0], l1);
    assert [l0] + [l1] == [l0, l1];
  }

  lemma TwoHotkeysParse(first: string, second: string)
    requires Bare(first, Quotes) && Bare(second, Quotes)
    ensures SetupGui.ParseSettings([HotkeyKey + first, HotkeyKey + second]).hotkey == second
  {
    var s0 := HotkeyKey + first;
    var s1 := HotkeyKey + second;
    var p0 := SetupGui.DefaultSettings.(hotkey := first);
    assert SetupGui.ParseSettings([s0]) == p0 by {
      SetupGui.ApplyHotkeyLine(SetupGui.DefaultSettings, first);
      SetupGui.ParseSnoc([], s0);
      assert [] + [s0] == [s0];
    }
    SetupGui.ApplyHotkeyLine(p0, second);
    SetupGui.ParseSnoc([s0], s1);
    assert [s0] + [s1] == [s0, s1];
  }

  /** A file holding one `HOTKEY=` line indented by a space. */
  function IndentedHotkey(hotkey: string): string {
    " " + (HotkeyKey + (hotkey + "\n"))
  }

  /** The application ignores an indented `HOTKEY=` line; the settings window strips it and reads it. */
  lemma IndentedHotkeyRead(hotkey: string)
    requires NoLineBreak(hotkey) && Bare(hotkey, WhitespaceOrQuotes)
    ensures ClipApp.HotkeyConfig(Present(IndentedHotkey(hotkey))) == (ClipApp.DefaultDisplay, ClipApp.DefaultPynput)
    ensures SetupGui.LoadedSettings(Present(IndentedHotkey(hotkey))).hotkey == hotkey
  {
    var line := " " + HotkeyKey + hotkey + "\n";
    IndentedHotkeyLines(hotkey);
    assert ClipApp.FirstMatch([line], HotkeyKey) == 1 by {
      assert line[0] == ' ';
      assert HotkeyKey[0] == 'H';
    }
    IndentedLineParse(hotkey);
  }

  lemma IndentedHotkeyLines(hotkey: string)
    requires NoLineBreak(hotkey)
    ensures FileLines(IndentedHotkey(hotkey)) == [" " + HotkeyKey + hotkey + "\n"]
  {
    var text := IndentedHotkey(hotkey);
    ReadNewlinesNoCr(text);
    assert "\n" + "" == "\n";
    assert text == (" " + HotkeyKey) + (hotkey + ("\n" + ""));
    LinesCons(" " + HotkeyKey, hotkey, "");
  }

  /** The settings window reads the indented line as its hotkey. */
  lemma IndentedLineParse(hotkey: string)
    requires Bare(hotkey, WhitespaceOrQuotes)
    ensures SetupGui.ParseSettings(SetupGui.StripLines([" " + HotkeyKey + hotkey + "\n"])).hotkey == hotkey
  {
    var line := " " + HotkeyKey + hotkey + "\n";
    var stripped := HotkeyKey + hotkey;
    assert SetupGui.StripLines([line]) == [stripped] by {
      IndentedLineStripped(hotkey);
      SetupGui.StripLinesSnoc([], line);
      assert [] + [line] == [line];
    }
    SetupGui.ApplyHotkeyLine(SetupGui.DefaultSettings, hotkey);
    SetupGui.ParseSnoc([], stripped);
    assert [] + [stripped] == [stripped];
  }

  /** Stripping the indented line removes the space in front and the line feed. */
  lemma IndentedLineStripped(hotkey: string)
    requires Bare(hotkey, Whitespace)
    ensures Strip(" " + HotkeyKey + hotkey + "\n", Whitespace) == HotkeyKey + hotkey
  {
    var line := " " + HotkeyKey + hotkey + "\n";
    var rest := HotkeyKey + hotkey + "\n";
    assert line[1..] == rest;
    assert TrimLeft(line, Whitespace) == TrimLeft(rest, Whitespace);
    SetupGui.StrippedLine(HotkeyKey, hotkey);
  }
}
