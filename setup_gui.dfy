/**
 * The settings window (`SetupGUI`): it loads the current settings from the
 * configuration file, tests a connection with the entered key and database
 * id, and writes the three settings back. The save button starts disabled and
 * only a successful connection test enables it.
 */
module SetupGui {
  import opened Wrappers
  import opened Strings
  import opened EnvFile
  import Notion

  /** The three values the window edits. */
  datatype Settings = Settings(apiKey: string, databaseId: string, hotkey: string)

  /** What the window shows when the file does not set a value. */
  const DefaultSettings := Settings("", "", "⌘⇧V")

  // ---------------------------------------------------------------- load_current_settings

  /** A line that starts with a key ending in `=` has an `=` in it. */
  lemma KeyedLineHasEquals(line: string, key: string)
    requires key != [] && key[|key| - 1] == '=' && StartsWith(line, key)
    ensures '=' in line
  {
    assert line[|key| - 1] == line[..|key|][|key| - 1] == '=';
  }

  /** The value of a setting line: everything after the first `=`, quotes stripped from both ends. */
  function SettingValue(line: string): (value: string)
    requires '=' in line
    ensures Bare(value, Quotes) && |value| < |line|
  {
    StripBare(AfterFirst(line, '='), Quotes);
    Strip(AfterFirst(line, '='), Quotes)
  }

  /** Each line the file yields, with surrounding whitespace (the line feed included) stripped. */
  function StripLines(lines: seq<string>): (r: seq<string>)
    ensures |r| == |lines|
    decreases |lines|
  {
    if lines == [] then []
    else StripLines(lines[..|lines| - 1]) + [Strip(lines[|lines| - 1], Whitespace)]
  }

  /**
   * One stripped line of the file, matched against the three keys in turn:
   * the first key that matches sets its value.
   */
  function ApplyLine(s: Settings, line: string): (r: Settings)
    ensures !StartsWith(line, ApiKeyKey) ==> r.apiKey == s.apiKey
    ensures !StartsWith(line, DatabaseIdKey) ==> r.databaseId == s.databaseId
    ensures !StartsWith(line, HotkeyKey) ==> r.hotkey == s.hotkey
    ensures Quoteless(s) ==> Quoteless(r)
  {
    KeysExclusive(line);
    if StartsWith(line, ApiKeyKey) then
      KeyedLineHasEquals(line, ApiKeyKey);
      s.(apiKey := SettingValue(line))
    else if StartsWith(line, DatabaseIdKey) then
      KeyedLineHasEquals(line, DatabaseIdKey);
      s.(databaseId := SettingValue(line))
    else if StartsWith(line, HotkeyKey) then
      KeyedLineHasEquals(line, HotkeyKey);
      s.(hotkey := SettingValue(line))
    else s
  }

  /** None of the three values begins or ends with a quote character. */
  predicate Quoteless(s: Settings) {
    Bare(s.apiKey, Quotes) && Bare(s.databaseId, Quotes) && Bare(s.hotkey, Quotes)
  }

  /** No line of `lines` starts with `key`. */
  predicate NoLineFor(lines: seq<string>, key: string) {
    forall k :: 0 <= k < |lines| ==> !StartsWith(lines[k], key)
  }

  /**
   * The settings after reading the stripped `lines` in order, starting from
   * the defaults: a setting no line is for keeps its default, and no value
   * read begins or ends with a quote.
   */
  function ParseSettings(lines: seq<string>): (r: Settings)
    decreases |lines|
    ensures NoLineFor(lines, ApiKeyKey) ==> r.apiKey == DefaultSettings.apiKey
    ensures NoLineFor(lines, DatabaseIdKey) ==> r.databaseId == DefaultSettings.databaseId
    ensures NoLineFor(lines, HotkeyKey) ==> r.hotkey == DefaultSettings.hotkey
    ensures Quoteless(r)
  {
    if lines == [] then DefaultSettings
    else ApplyLine(ParseSettings(lines[..|lines| - 1]), lines[|lines| - 1])
  }

  /** The settings `load_current_settings()` ends with; when the open fails, the defaults it assigned first. */
  function LoadedSettings(file: FileState): (r: Settings)
    ensures !file.Present? ==> r == DefaultSettings
    ensures Quoteless(r)
  {
    match file
    case Present(text) => ParseSettings(StripLines(FileLines(text)))
    case _ => DefaultSettings
  }

  /** The position of the last line that starts with `key`, or -1 when none does. */
  function LastMatch(lines: seq<string>, key: string): (i: int)
    ensures -1 <= i < |lines|
    ensures i >= 0 ==> StartsWith(lines[i], key)
    ensures forall j :: i < j < |lines| ==> !StartsWith(lines[j], key)
    decreases |lines|
  {
    if lines == [] then -1
    else if StartsWith(lines[|lines| - 1], key) then |lines| - 1
    else LastMatch(lines[..|lines| - 1], key)
  }

  /** The value the last line for `key` gives, or `default` when no line is for `key`. */
  function LastValue(lines: seq<string>, key: string, default: string): string
    requires key != [] && key[|key| - 1] == '='
  {
    var i := LastMatch(lines, key);
    if i < 0 then default
    else
      KeyedLineHasEquals(lines[i], key);
      SettingValue(lines[i])
  }

  /**
   * Every setting is taken from the LAST stripped line for its key, whatever
   * other lines come between, and keeps its default when no line is for it.
   */
  lemma {:induction false} LastOccurrenceWins(lines: seq<string>)
    ensures ParseSettings(lines).apiKey == LastValue(lines, ApiKeyKey, DefaultSettings.apiKey)
    ensures ParseSettings(lines).databaseId == LastValue(lines, DatabaseIdKey, DefaultSettings.databaseId)
    ensures ParseSettings(lines).hotkey == LastValue(lines, HotkeyKey, DefaultSettings.hotkey)
    decreases |lines|
  {
    if lines != [] {
      var init := lines[..|lines| - 1];
      var line := lines[|lines| - 1];
      assert lines == init + [line];
      LastOccurrenceWins(init);
      KeysExclusive(line);
      LastValueStep(init, line, ApiKeyKey, DefaultSettings.apiKey);
      LastValueStep(init, line, DatabaseIdKey, DefaultSettings.databaseId);
      LastValueStep(init, line, HotkeyKey, DefaultSettings.hotkey);
    }
  }

  /** One more line changes the value for `key` only when it is for `key`. */
  lemma LastValueStep(init: seq<string>, line: string, key: string, default: string)
    requires key != [] && key[|key| - 1] == '='
    ensures StartsWith(line, key) ==> '=' in line
    ensures LastValue(init + [line], key, default)
         == if StartsWith(line, key) then SettingValue(line) else LastValue(init, key, default)
  {
    var lines := init + [line];
    assert lines[..|init|] == init;
    if StartsWith(line, key) {
      KeyedLineHasEquals(line, key);
    } else {
      var i := LastMatch(init, key);
      assert LastMatch(lines, key) == i;
      if i >= 0 {
        assert lines[i] == init[i];
      }
    }
  }

  /** Reading one more line is one more step. */
  lemma ParseSnoc(lines: seq<string>, line: string)
    ensures ParseSettings(lines + [line]) == ApplyLine(ParseSettings(lines), line)
  {
    assert (lines + [line])[..|lines|] == lines;
  }

  /** Stripping a written line `key` + `value` + line feed leaves `key` + `value`. */
  lemma StrippedLine(key: string, value: string)
    requires key == ApiKeyKey || key == DatabaseIdKey || key == HotkeyKey
    requires Bare(value, Whitespace)
    ensures Strip(key + value + "\n", Whitespace) == key + value
  {
    var written := key + value;
    assert Bare(written, Whitespace) by {
      assert written[0] == key[0];
      if value == [] {
        assert written[|written| - 1] == '=';
      } else {
        assert written[|written| - 1] == value[|value| - 1];
      }
    }
    StripLineEnd(written, '\n', Whitespace);
    assert written + ['\n'] == key + value + "\n";
  }

  /** The stripped line `key` + `value` is for `key`, and its value is `value`. */
  lemma KeyedValue(key: string, value: string)
    requires key == ApiKeyKey || key == DatabaseIdKey || key == HotkeyKey
    requires Bare(value, Quotes)
    ensures StartsWith(key + value, key) && '=' in key + value && SettingValue(key + value) == value
  {
    var line := key + value;
    assert line[..|key|] == key;
    AfterKey(line, key, '=');
    assert line[|key|..] == value;
    StripUnchanged(value, Quotes);
  }

  lemma ApplyApiKeyLine(s: Settings, value: string)
    requires Bare(value, Quotes)
    ensures ApplyLine(s, ApiKeyKey + value) == s.(apiKey := value)
  {
    KeyedValue(ApiKeyKey, value);
  }

  lemma ApplyDatabaseIdLine(s: Settings, value: string)
    requires Bare(value, Quotes)
    ensures ApplyLine(s, DatabaseIdKey + value) == s.(databaseId := value)
  {
    KeyedValue(DatabaseIdKey, value);
    KeysExclusive(DatabaseIdKey + value);
  }

  lemma ApplyHotkeyLine(s: Settings, value: string)
    requires Bare(value, Quotes)
    ensures ApplyLine(s, HotkeyKey + value) == s.(hotkey := value)
  {
    KeyedValue(HotkeyKey, value);
    KeysExclusive(HotkeyKey + value);
  }

  /** The written text's lines, stripped, are the three `key` + `value` lines. */
  lemma StrippedEnvLines(apiKey: string, databaseId: string, hotkey: string)
    requires Bare(apiKey, Whitespace) && Bare(databaseId, Whitespace) && Bare(hotkey, Whitespace)
    ensures StripLines([ApiKeyKey + apiKey + "\n", DatabaseIdKey + databaseId + "\n", HotkeyKey + hotkey + "\n"])
         == [ApiKeyKey + apiKey, DatabaseIdKey + databaseId, HotkeyKey + hotkey]
  {
    var l0 := ApiKeyKey + apiKey + "\n";
    var l1 := DatabaseIdKey + databaseId + "\n";
    var l2 := HotkeyKey + hotkey + "\n";
    assert StripLines([l0]) == [ApiKeyKey + apiKey] by {
      StrippedLine(ApiKeyKey, apiKey);
      StripLinesSnoc([], l0);
      assert [] + [l0] == [l0];
    }
    assert StripLines([l0, l1]) == [ApiKeyKey + apiKey, DatabaseIdKey + databaseId] by {
      StrippedLine(DatabaseIdKey, databaseId);
      StripLinesSnoc([l0], l1);
      assert [l0] + [l1] == [l0, l1];
    }
    StrippedLine(HotkeyKey, hotkey);
    StripLinesSnoc([l0, l1], l2);
    assert [l0, l1] + [l2] == [l0, l1, l2];
  }

  /** Stripping one more line appends its strip. */
  lemma StripLinesSnoc(lines: seq<string>, line: string)
    ensures StripLines(lines + [line]) == StripLines(lines) + [Strip(line, Whitespace)]
  {
    assert (lines + [line])[..|lines|] == lines;
  }

  /**
   * A file holding the written text is loaded back as the three values
   * written, provided none holds a line break or begins or ends with
   * whitespace or a quote.
   */
  lemma SettingsRoundTrip(apiKey: string, databaseId: string, hotkey: string)
    requires NoLineBreak(apiKey) && NoLineBreak(databaseId) && NoLineBreak(hotkey)
    requires Bare(apiKey, WhitespaceOrQuotes) && Bare(databaseId, WhitespaceOrQuotes)
    requires Bare(hotkey, WhitespaceOrQuotes)
    ensures LoadedSettings(Present(EnvContent(apiKey, databaseId, hotkey))) == Settings(apiKey, databaseId, hotkey)
  {
    var lines := [ApiKeyKey + apiKey, DatabaseIdKey + databaseId, HotkeyKey + hotkey];
    assert StripLines(FileLines(EnvContent(apiKey, databaseId, hotkey))) == lines by {
      EnvContentLines(apiKey, databaseId, hotkey);
      StrippedEnvLines(apiKey, databaseId, hotkey);
    }
    WrittenLinesParse(apiKey, databaseId, hotkey);
  }

  /** The three stripped lines of the written text set the three values. */
  lemma WrittenLinesParse(apiKey: string, databaseId: string, hotkey: string)
    requires Bare(apiKey, Quotes) && Bare(databaseId, Quotes) && Bare(hotkey, Quotes)
    ensures ParseSettings([ApiKeyKey + apiKey, DatabaseIdKey + databaseId, HotkeyKey + hotkey])
         == Settings(apiKey, databaseId, hotkey)
  {
    var s0 := ApiKeyKey + apiKey;
    var s1 := DatabaseIdKey + databaseId;
    var s2 := HotkeyKey + hotkey;
    var p0 := DefaultSettings.(apiKey := apiKey);
    var p1 := p0.(databaseId := databaseId);
    assert ParseSettings([s0]) == p0 by {
      ApplyApiKeyLine(DefaultSettings, apiKey);
      ParseSnoc([], s0);
      assert [] + [s0] == [s0];
    }
    assert ParseSettings([s0, s1]) == p1 by {
      ApplyDatabaseIdLine(p0, databaseId);
      ParseSnoc([s0], s1);
      assert [s0] + [s1] == [s0, s1];
    }
    ApplyHotkeyLine(p1, hotkey);
    ParseSnoc([s0, s1], s2);
    assert [s0, s1] + [s2] == [s0, s1, s2];
  }

  // ---------------------------------------------------------------- test_connection

  /** How a press of the connection-test button ends. */
  datatype TestOutcome =
    | ApiKeyRequired
    | DatabaseIdRequired
    | Connected(databaseName: string)
    | TestFailed(error: string)

  /**
   * `test_connection()`: the two entries are stripped; an empty key, then an
   * empty id, is refused before any request; otherwise the database is
   * retrieved with the stripped id, and `fetched` is what came back. The name
   * extraction is inside the same `try`, so an untitled database fails the
   * test with the caught `IndexError`, as a failed retrieve does.
   */
  function ConnectionTest(apiKeyEntry: string, databaseIdEntry: string, fetched: Result<Notion.Database, string>)
    : (r: (TestOutcome, seq<Notion.Request>))
    ensures r.0 == ApiKeyRequired <==> Strip(apiKeyEntry, Whitespace) == []
    ensures r.0 == DatabaseIdRequired
        <==> Strip(apiKeyEntry, Whitespace) != [] && Strip(databaseIdEntry, Whitespace) == []
    ensures r.1 == [] <==> r.0 == ApiKeyRequired || r.0 == DatabaseIdRequired
    ensures r.1 != [] ==> r.1 == [Notion.RetrieveDatabase(Strip(databaseIdEntry, Whitespace))]
    ensures r.0.Connected? <==> r.1 != [] && fetched.Ok? && fetched.value.title != Some([])
    ensures r.0.Connected? ==> r.0.databaseName == Notion.DatabaseName(fetched.value)
    ensures r.0.TestFailed? ==> r.1 != [] && r.0.error == Notion.RetrievedName(fetched).error
    ensures r.0.TestFailed? && fetched.Err? ==> r.0.error == fetched.error
  {
    var apiKey := Strip(apiKeyEntry, Whitespace);
    var databaseId := Strip(databaseIdEntry, Whitespace);
    if apiKey == [] then (ApiKeyRequired, [])
    else if databaseId == [] then (DatabaseIdRequired, [])
    else
      var calls := [Notion.RetrieveDatabase(databaseId)];
      match Notion.RetrievedName(fetched)
      case Ok(name) => (Connected(name), calls)
      case Err(e) => (TestFailed(e), calls)
  }

  /** The save button's state after a series of tests: a connection enables it, nothing disables it. */
  function EnabledAfter(enabled: bool, outcomes: seq<TestOutcome>): (r: bool)
    decreases |outcomes|
    ensures enabled ==> r
    ensures (forall i :: 0 <= i < |outcomes| ==> !outcomes[i].Connected?) ==> r == enabled
  {
    if outcomes == [] then enabled
    else EnabledAfter(enabled || outcomes[0].Connected?, outcomes[1..])
  }

  /** After a series of tests the save button is enabled exactly when it was before or some test connected. */
  lemma {:induction false} SaveEnabledIffConnected(enabled: bool, outcomes: seq<TestOutcome>)
    ensures EnabledAfter(enabled, outcomes) <==> enabled || exists i :: 0 <= i < |outcomes| && outcomes[i].Connected?
    decreases |outcomes|
  {
    if outcomes != [] {
      SaveEnabledIffConnected(enabled || outcomes[0].Connected?, outcomes[1..]);
      if exists i :: 0 <= i < |outcomes[1..]| && outcomes[1..][i].Connected? {
        var i :| 0 <= i < |outcomes[1..]| && outcomes[1..][i].Connected?;
        assert outcomes[i + 1].Connected?;
      }
      if exists i :: 0 <= i < |outcomes| && outcomes[i].Connected? {
        var i :| 0 <= i < |outcomes| && outcomes[i].Connected?;
        if i > 0 {
          assert outcomes[1..][i - 1].Connected?;
        }
      }
    }
  }

  // ---------------------------------------------------------------- save_and_exit

  /** The text `save_and_exit()` writes: the stripped entries and the selected hotkey as it is. */
  function SaveContent(apiKeyEntry: string, databaseIdEntry: string, hotkey: string): (text: string)
    ensures NoLineBreak(apiKeyEntry) && NoLineBreak(databaseIdEntry) && NoLineBreak(hotkey)
            ==> FileLines(text) == [ApiKeyKey + Strip(apiKeyEntry, Whitespace) + "\n",
                                    DatabaseIdKey + Strip(databaseIdEntry, Whitespace) + "\n",
                                    HotkeyKey + hotkey + "\n"]
  {
    var text := EnvContent(Strip(apiKeyEntry, Whitespace), Strip(databaseIdEntry, Whitespace), hotkey);
    if NoLineBreak(apiKeyEntry) && NoLineBreak(databaseIdEntry) && NoLineBreak(hotkey) then
      StripNoLineBreak(apiKeyEntry, Whitespace);
      StripNoLineBreak(databaseIdEntry, Whitespace);
      EnvContentLines(Strip(apiKeyEntry, Whitespace), Strip(databaseIdEntry, Whitespace), hotkey);
      text
    else text
  }

  /**
   * Reopening the window after a save shows the stripped entries and the
   * hotkey, for single-line entries whose stripped text does not begin or end
   * with a quote and a hotkey with no surrounding whitespace or quote.
   */
  lemma SavedSettingsReload(apiKeyEntry: string, databaseIdEntry: string, hotkey: string)
    requires NoLineBreak(apiKeyEntry) && NoLineBreak(databaseIdEntry) && NoLineBreak(hotkey)
    requires Bare(Strip(apiKeyEntry, Whitespace), Quotes) && Bare(Strip(databaseIdEntry, Whitespace), Quotes)
    requires Bare(hotkey, WhitespaceOrQuotes)
    ensures LoadedSettings(Present(SaveContent(apiKeyEntry, databaseIdEntry, hotkey)))
         == Settings(Strip(apiKeyEntry, Whitespace), Strip(databaseIdEntry, Whitespace), hotkey)
  {
    var apiKey := Strip(apiKeyEntry, Whitespace);
    var databaseId := Strip(databaseIdEntry, Whitespace);
    StripNoLineBreak(apiKeyEntry, Whitespace);
    StripNoLineBreak(databaseIdEntry, Whitespace);
    StripBare(apiKeyEntry, Whitespace);
    StripBare(databaseIdEntry, Whitespace);
    SettingsRoundTrip(apiKey, databaseId, hotkey);
  }

  // ---------------------------------------------------------------- the window

  class SetupWindow {
    var currentApiKey: string
    var currentDatabaseId: string
    var currentHotkey: string
    /** Whether the save button is enabled. */
    var saveEnabled: bool

    function Current(): Settings
      reads this
    {
      Settings(currentApiKey, currentDatabaseId, currentHotkey)
    }

    /** The window before any settings are loaded: the defaults, and the save button disabled. */
    constructor ()
      ensures Current() == DefaultSettings && !saveEnabled
    {
      currentApiKey, currentDatabaseId, currentHotkey := "", "", "⌘⇧V";
      saveEnabled := false;
    }

    /**
     * `load_current_settings()`: resets the three values to their defaults
     * and, when the file exists, reads it line by line; `ok` is false when
     * opening it fails, where the source raises.
     */
    method LoadCurrentSettings(file: FileState) returns (ok: bool)
      modifies this
      ensures ok <==> !file.Unreadable?
      ensures Current() == LoadedSettings(file)
      ensures saveEnabled == old(saveEnabled)
    {
      currentApiKey, currentDatabaseId, currentHotkey := "", "", "⌘⇧V";
      match file
      case Missing => return true;
      case Unreadable => return false;
      case Present(text) =>
        var lines := FileLines(text);
        for i := 0 to |lines|
          invariant Current() == ParseSettings(StripLines(lines[..i]))
          invariant saveEnabled == old(saveEnabled)
        {
          assert lines[..i + 1][..i] == lines[..i];
          var line := Strip(lines[i], Whitespace);
          ParseSnoc(StripLines(lines[..i]), line);
          if StartsWith(line, ApiKeyKey) {
            KeyedLineHasEquals(line, ApiKeyKey);
            currentApiKey := SettingValue(line);
          } else if StartsWith(line, DatabaseIdKey) {
            KeyedLineHasEquals(line, DatabaseIdKey);
            currentDatabaseId := SettingValue(line);
          } else if StartsWith(line, HotkeyKey) {
            KeyedLineHasEquals(line, HotkeyKey);
            currentHotkey := SettingValue(line);
          }
        }
        assert lines[..|lines|] == lines;
        return true;
    }

    /** `test_connection()`: a connection enables the save button; a refusal or a failure leaves it as it was. */
    method TestConnection(apiKeyEntry: string, databaseIdEntry: string, fetched: Result<Notion.Database, string>)
      returns (outcome: TestOutcome, calls: seq<Notion.Request>)
      modifies this
      ensures (outcome, calls) == ConnectionTest(apiKeyEntry, databaseIdEntry, fetched)
      ensures saveEnabled == (old(saveEnabled) || outcome.Connected?)
      ensures Current() == old(Current())
    {
      var apiKey := Strip(apiKeyEntry, Whitespace);
      var databaseId := Strip(databaseIdEntry, Whitespace);
      if apiKey == [] {
        return ApiKeyRequired, [];
      }
      if databaseId == [] {
        return DatabaseIdRequired, [];
      }
      calls := [Notion.RetrieveDatabase(databaseId)];
      var name := Notion.RetrievedName(fetched);
      match name
      case Ok(n) =>
        outcome := Connected(n);
        saveEnabled := true;
      case Err(e) =>
        outcome := TestFailed(e);
    }

    /** `save_and_exit()`: the text written, or nothing while the save button is disabled. */
    method SaveAndExit(apiKeyEntry: string, databaseIdEntry: string, hotkey: string) returns (written: Option<string>)
      ensures written.Some? <==> saveEnabled
      ensures written.Some? ==> written.value == SaveContent(apiKeyEntry, databaseIdEntry, hotkey)
    {
      if !saveEnabled {
        return None;
      }
      return Some(SaveContent(apiKeyEntry, databaseIdEntry, hotkey));
    }
  }
}
