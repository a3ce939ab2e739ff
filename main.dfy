/**
 * The menu-bar application: the check that a usable configuration file
 * exists, the hotkey reader, the hotkey chosen from the setup alert, the
 * setup dialogs' input guards and the clipboard guard of a save.
 */
module ClipApp {
  import opened Wrappers
  import opened Strings
  import opened EnvFile
  import Notion

  const DefaultDisplay := "⌘⇧V"
  const DefaultPynput := "<cmd>+<shift>+v"

  /** The known hotkey displays and the pynput hotkey strings they register. */
  const PynputKeys: map<string, string> := map[
    "⌘⇧V" := "<cmd>+<shift>+v",
    "⌘⌃⇧V" := "<cmd>+<ctrl>+<shift>+v",
    "⌘⌥V" := "<cmd>+<alt>+v",
    "⌘⇧N" := "<cmd>+<shift>+n"
  ]

  /** The pynput string registered for a hotkey display; the default one for an unknown display. */
  function PynputFor(display: string): (pynput: string)
    ensures pynput in PynputKeys.Values
    ensures display in PynputKeys ==> pynput == PynputKeys[display]
    ensures display !in PynputKeys ==> pynput == DefaultPynput
  {
    assert PynputKeys[DefaultDisplay] == DefaultPynput;
    if display in PynputKeys then PynputKeys[display] else DefaultPynput
  }

  // ---------------------------------------------------------------- check_env_file

  /**
   * `check_env_file()`: false for a missing or unreadable file and for one
   * holding only whitespace; otherwise whether both keys occur somewhere in it.
   */
  predicate CheckEnvFile(file: FileState): (ok: bool)
    ensures ok ==> file.Present? && Contains(ReadNewlines(file.text), ApiKeyKey)
                   && Contains(ReadNewlines(file.text), DatabaseIdKey)
  {
    match file
    case Present(text) =>
      var content := Strip(ReadNewlines(text), Whitespace);
      ContainsStrip(ReadNewlines(text), ApiKeyKey, Whitespace);
      ContainsStrip(ReadNewlines(text), DatabaseIdKey, Whitespace);
      content != [] && Contains(content, ApiKeyKey) && Contains(content, DatabaseIdKey)
    case _ => false
  }

  /**
   * The strip and the emptiness test are redundant: a present file passes
   * exactly when both keys occur in its text, anywhere and in either order.
   */
  lemma CheckEnvFileIsContainment(text: string)
    ensures CheckEnvFile(Present(text))
        <==> Contains(ReadNewlines(text), ApiKeyKey) && Contains(ReadNewlines(text), DatabaseIdKey)
  {
    var s := ReadNewlines(text);
    ContainsStrip(s, ApiKeyKey, Whitespace);
    ContainsStrip(s, DatabaseIdKey, Whitespace);
    if Contains(Strip(s, Whitespace), ApiKeyKey) {
      var i: nat :| i <= |Strip(s, Whitespace)| && OccursAt(Strip(s, Whitespace), ApiKeyKey, i);
      assert Strip(s, Whitespace) != [];
    }
  }

  /**
   * A file written by setup passes the check, whatever the key, the id and
   * the hotkey: empty values, carriage returns and line breaks inside them
   * do not hide either key from the containment test.
   */
  lemma WrittenFilePassesCheck(apiKey: string, databaseId: string, hotkey: string)
    ensures CheckEnvFile(Present(EnvContent(apiKey, databaseId, hotkey)))
  {
    var text := EnvContent(apiKey, databaseId, hotkey);
    var rest := databaseId + ("\n" + (HotkeyKey + (hotkey + "\n")));
    assert text == ApiKeyKey + (apiKey + ("\n" + (DatabaseIdKey + rest)));
    KeysSurviveRead(ApiKeyKey, apiKey, DatabaseIdKey, rest);
    CheckEnvFileIsContainment(text);
  }

  /** Two keys without carriage returns, the second at the start of a line, are both found in the read text. */
  lemma KeysSurviveRead(first: string, value: string, second: string, rest: string)
    requires '\r' !in first && '\r' !in second
    ensures var r := ReadNewlines(first + (value + ("\n" + (second + rest))));
      Contains(r, first) && Contains(r, second)
  {
    var afterKey := value + ("\n" + (second + rest));
    ReadNewlinesPrefix(first, afterKey);
    ContainsStart(first, ReadNewlines(afterKey));
    // the second key's line is read on its own, whatever `value` holds
    ReadNewlinesAfterLineFeed(value, second + rest);
    ReadNewlinesPrefix(second, rest);
    var r := ReadNewlines(afterKey);
    var tail := ReadNewlines(second + rest);
    assert r == r[..|r| - |tail|] + tail;
    ContainsStart(second, ReadNewlines(rest));
    ContainsExtend(r[..|r| - |tail|], tail, second);
    ContainsExtend(first, r, second);
  }

  // ---------------------------------------------------------------- load_hotkey_config

  /** The hotkey of a raw line that starts with `HOTKEY=`: after the first `=`, whitespace stripped, then quotes. */
  function HotkeyValue(line: string): (hotkey: string)
    requires StartsWith(line, HotkeyKey)
    ensures Bare(hotkey, Quotes) && |hotkey| <= |line| - |HotkeyKey|
  {
    AfterKey(line, HotkeyKey, '=');
    StripBare(Strip(AfterFirst(line, '='), Whitespace), Quotes);
    Strip(Strip(AfterFirst(line, '='), Whitespace), Quotes)
  }

  /** No line starts with `HOTKEY=`. */
  predicate NoHotkeyLine(lines: seq<string>) {
    forall j :: 0 <= j < |lines| ==> !StartsWith(lines[j], HotkeyKey)
  }

  /** Line `i` starts with `HOTKEY=` and no line before it does. */
  predicate FirstHotkeyLine(lines: seq<string>, i: int) {
    0 <= i < |lines| && StartsWith(lines[i], HotkeyKey)
    && forall j :: 0 <= j < i ==> !StartsWith(lines[j], HotkeyKey)
  }

  /** The position of the first line that starts with `key`, or `|lines|` when none does. */
  function FirstMatch(lines: seq<string>, key: string): (i: nat)
    ensures i <= |lines|
    ensures i < |lines| ==> StartsWith(lines[i], key)
    ensures forall j :: 0 <= j < i ==> !StartsWith(lines[j], key)
  {
    if lines == [] || StartsWith(lines[0], key) then 0 else 1 + FirstMatch(lines[1..], key)
  }

  /**
   * What `load_hotkey_config()` returns for the file: the defaults when it is
   * missing, unreadable or has no line starting with `HOTKEY=`; otherwise the
   * FIRST such line's hotkey, with its pynput string, or the default pynput
   * string when the hotkey is not a known one.
   */
  function HotkeyConfig(file: FileState): (r: (string, string))
    ensures r.1 == PynputFor(r.0) && r.1 in PynputKeys.Values
    ensures !file.Present? ==> r == (DefaultDisplay, DefaultPynput)
  {
    if !file.Present? then (DefaultDisplay, DefaultPynput)
    else
      var lines := FileLines(file.text);
      var i := FirstMatch(lines, HotkeyKey);
      if i == |lines| then (DefaultDisplay, DefaultPynput)
      else (HotkeyValue(lines[i]), PynputFor(HotkeyValue(lines[i])))
  }

  /**
   * For a present file: with no line starting with `HOTKEY=` the result is
   * the defaults; otherwise the hotkey is the value of the FIRST such line,
   * whatever later lines say.
   */
  lemma HotkeyConfigFirstWins(text: string)
    ensures NoHotkeyLine(FileLines(text)) ==> HotkeyConfig(Present(text)) == (DefaultDisplay, DefaultPynput)
    ensures forall i :: FirstHotkeyLine(FileLines(text), i)
                        ==> HotkeyConfig(Present(text)).0 == HotkeyValue(FileLines(text)[i])
  {
    var lines := FileLines(text);
    var m := FirstMatch(lines, HotkeyKey);
    forall i | FirstHotkeyLine(lines, i)
      ensures HotkeyConfig(Present(text)).0 == HotkeyValue(lines[i])
    {
      assert m == i;
    }
  }

  /** `load_hotkey_config()`: scans the lines in order and returns at the first `HOTKEY=` line. */
  method LoadHotkeyConfig(file: FileState) returns (display: string, pynput: string)
    ensures (display, pynput) == HotkeyConfig(file)
  {
    if !file.Present? {
      return DefaultDisplay, DefaultPynput;
    }
    var lines := FileLines(file.text);
    for i := 0 to |lines|
      invariant forall j :: 0 <= j < i ==> !StartsWith(lines[j], HotkeyKey)
    {
      if StartsWith(lines[i], HotkeyKey) {
        assert FirstMatch(lines, HotkeyKey) == i;
        var hotkey := HotkeyValue(lines[i]);
        return hotkey, PynputFor(hotkey);
      }
    }
    assert FirstMatch(lines, HotkeyKey) == |lines|;
    return DefaultDisplay, DefaultPynput;
  }

  /**
   * Reading back a written file recovers the hotkey and its pynput string,
   * provided no setting holds a line break and the hotkey has no surrounding
   * whitespace or quote.
   */
  lemma {:induction false} HotkeyRoundTrip(apiKey: string, databaseId: string, hotkey: string)
    requires NoLineBreak(apiKey) && NoLineBreak(databaseId) && NoLineBreak(hotkey)
    requires Bare(hotkey, WhitespaceOrQuotes)
    ensures HotkeyConfig(Present(EnvContent(apiKey, databaseId, hotkey))) == (hotkey, PynputFor(hotkey))
  {
    var lines := [ApiKeyKey + apiKey + "\n", DatabaseIdKey + databaseId + "\n", HotkeyKey + hotkey + "\n"];
    var text := EnvContent(apiKey, databaseId, hotkey);
    assert FileLines(text) == lines by {
      EnvContentLines(apiKey, databaseId, hotkey);
    }
    WrittenHotkeyLineFirst(apiKey, databaseId, hotkey);
    HotkeyLineValue(hotkey);
    assert HotkeyConfig(Present(text)) == (HotkeyValue(lines[2]), PynputFor(HotkeyValue(lines[2])));
  }

  /** In the written lines the first one that starts with `HOTKEY=` is the third. */
  lemma WrittenHotkeyLineFirst(apiKey: string, databaseId: string, hotkey: string)
    ensures FirstMatch([ApiKeyKey + apiKey + "\n", DatabaseIdKey + databaseId + "\n", HotkeyKey + hotkey + "\n"],
                       HotkeyKey) == 2
  {
    var lines := [ApiKeyKey + apiKey + "\n", DatabaseIdKey + databaseId + "\n", HotkeyKey + hotkey + "\n"];
    KeysExclusive(lines[0]);
    KeysExclusive(lines[1]);
    assert lines[0][..|ApiKeyKey|] == ApiKeyKey && lines[1][..|DatabaseIdKey|] == DatabaseIdKey;
    assert lines[2][..|HotkeyKey|] == HotkeyKey;
  }

  /** The written hotkey line is read as the hotkey written, when it has no surrounding whitespace or quote. */
  lemma HotkeyLineValue(hotkey: string)
    requires Bare(hotkey, WhitespaceOrQuotes)
    ensures StartsWith(HotkeyKey + hotkey + "\n", HotkeyKey) && HotkeyValue(HotkeyKey + hotkey + "\n") == hotkey
  {
    var line := HotkeyKey + hotkey + "\n";
    assert line[..|HotkeyKey|] == HotkeyKey;
    AfterKey(line, HotkeyKey, '=');
    assert line[|HotkeyKey|..] == hotkey + ['\n'];
    StripLineEnd(hotkey, '\n', Whitespace);
    StripUnchanged(hotkey, Quotes);
  }

  // ---------------------------------------------------------------- setup (run_setup, open_settings)

  /** The hotkey picked in the setup alert: OK (1), Cancel (0), or the third button (anything else). */
  function AlertHotkey(response: int): (hotkey: string)
    ensures hotkey in PynputKeys
    ensures hotkey == "⌘⇧V" <==> response == 1
    ensures hotkey == "⌘⇧N" <==> response == 0
    ensures hotkey == "⌘⌃⇧V" <==> response != 0 && response != 1
  {
    if response == 1 then "⌘⇧V"
    else if response == 0 then "⌘⇧N"
    else "⌘⌃⇧V"
  }

  /** A file written after the setup alert is read back as the hotkey chosen there. */
  lemma SavedChoiceRestored(apiKey: string, databaseId: string, response: int)
    requires NoLineBreak(apiKey) && NoLineBreak(databaseId)
    ensures var hotkey := AlertHotkey(response);
      HotkeyConfig(Present(EnvContent(apiKey, databaseId, hotkey))) == (hotkey, PynputKeys[hotkey])
  {
    var hotkey := AlertHotkey(response);
    assert Bare(hotkey, WhitespaceOrQuotes);
    HotkeyRoundTrip(apiKey, databaseId, hotkey);
  }

  /** How the setup dialogs end. */
  datatype SetupOutcome =
    | Cancelled
    | ApiKeyMissing
    | DatabaseIdMissing
    | ConnectionFailed(error: string)
    | Configured(databaseName: string, hotkey: string, content: string)

  /**
   * `run_setup()` and `open_settings()`: the API key dialog (`None` when
   * cancelled), then, only if its stripped text is non-empty, the database id
   * dialog; then the connection test with the two stripped values, whose
   * retrieve outcome is `fetched`; then the hotkey alert's `response`. The
   * name extraction sits inside the test's `try`, so an untitled database
   * fails the test as a failed retrieve does. On success the outcome carries
   * the text to write to the file, and `calls` is the one retrieve made.
   */
  function RunSetup(apiKeyAnswer: Option<string>, databaseIdAnswer: Option<string>,
                    fetched: Result<Notion.Database, string>, response: int)
    : (r: (SetupOutcome, seq<Notion.Request>))
    ensures r.0 == Cancelled
        <==> apiKeyAnswer.None? || (Strip(apiKeyAnswer.value, Whitespace) != [] && databaseIdAnswer.None?)
    ensures r.0 == ApiKeyMissing <==> apiKeyAnswer.Some? && Strip(apiKeyAnswer.value, Whitespace) == []
    ensures r.0 == DatabaseIdMissing
        <==> apiKeyAnswer.Some? && Strip(apiKeyAnswer.value, Whitespace) != []
             && databaseIdAnswer.Some? && Strip(databaseIdAnswer.value, Whitespace) == []
    ensures r.1 != [] <==> r.0.ConnectionFailed? || r.0.Configured?
    ensures r.1 != [] ==>
              apiKeyAnswer.Some? && databaseIdAnswer.Some?
              && Strip(apiKeyAnswer.value, Whitespace) != [] && Strip(databaseIdAnswer.value, Whitespace) != []
              && r.1 == [Notion.RetrieveDatabase(Strip(databaseIdAnswer.value, Whitespace))]
    ensures r.0.Configured? <==> r.1 != [] && Notion.RetrievedName(fetched).Ok?
    ensures r.0.ConnectionFailed? ==> r.0.error == Notion.RetrievedName(fetched).error
    ensures r.0.ConnectionFailed? && fetched.Err? ==> r.0.error == fetched.error
    ensures r.0.Configured? ==>
              (r.0.hotkey == AlertHotkey(response)
               && r.0.databaseName == Notion.DatabaseName(fetched.value)
               && r.0.content == EnvContent(Strip(apiKeyAnswer.value, Whitespace),
                                            Strip(databaseIdAnswer.value, Whitespace), r.0.hotkey))
  {
    match apiKeyAnswer
    case None => (Cancelled, [])
    case Some(apiKeyText) =>
      var apiKey := Strip(apiKeyText, Whitespace);
      if apiKey == [] then (ApiKeyMissing, [])
      else match databaseIdAnswer
        case None => (Cancelled, [])
        case Some(databaseIdText) =>
          var databaseId := Strip(databaseIdText, Whitespace);
          if databaseId == [] then (DatabaseIdMissing, [])
          else
            var calls := [Notion.RetrieveDatabase(databaseId)];
            match Notion.RetrievedName(fetched)
            case Err(e) => (ConnectionFailed(e), calls)
            case Ok(name) =>
              var hotkey := AlertHotkey(response);
              (Configured(name, hotkey, EnvContent(apiKey, databaseId, hotkey)), calls)
  }

  /**
   * What setup writes passes `check_env_file` and is read back by
   * `load_hotkey_config` as the chosen hotkey, for any single-line answers.
   */
  lemma SetupFileReadsBack(apiKeyAnswer: Option<string>, databaseIdAnswer: Option<string>,
                           fetched: Result<Notion.Database, string>, response: int)
    requires apiKeyAnswer.Some? ==> NoLineBreak(apiKeyAnswer.value)
    requires databaseIdAnswer.Some? ==> NoLineBreak(databaseIdAnswer.value)
    ensures var o := RunSetup(apiKeyAnswer, databaseIdAnswer, fetched, response).0;
      o.Configured? ==>
        (CheckEnvFile(Present(o.content))
         && HotkeyConfig(Present(o.content)) == (o.hotkey, PynputKeys[o.hotkey]))
  {
    var o := RunSetup(apiKeyAnswer, databaseIdAnswer, fetched, response).0;
    if o.Configured? {
      var apiKey := Strip(apiKeyAnswer.value, Whitespace);
      var databaseId := Strip(databaseIdAnswer.value, Whitespace);
      StripNoLineBreak(apiKeyAnswer.value, Whitespace);
      StripNoLineBreak(databaseIdAnswer.value, Whitespace);
      WrittenFilePassesCheck(apiKey, databaseId, o.hotkey);
      SavedChoiceRestored(apiKey, databaseId, response);
    }
  }

  // ---------------------------------------------------------------- save_selection

  /**
   * The text a save sends to Notion: the clipboard (`None` when reading it
   * failed) unless it is empty or whitespace only; the text itself is passed
   * on verbatim, unstripped.
   */
  function TextToSave(clipboard: Option<string>): (r: Option<string>)
    ensures r.Some? <==> clipboard.Some? && exists i :: 0 <= i < |clipboard.value| && !IsSpace(clipboard.value[i])
    ensures r.Some? ==> r == clipboard
  {
    var selected := if clipboard.Some? && clipboard.value != [] then clipboard else None;
    if selected.None? then None
    else
      StripEmpty(selected.value, Whitespace);
      if Strip(selected.value, Whitespace) == [] then None else selected
  }

  /**
   * `save_selection()`: calls `create_page` on the client (with `now` as the
   * title, which it ignores) only when there is text to save and the client
   * was constructed; otherwise makes no remote call and leaves the client alone.
   */
  method SaveSelection(api: Notion.NotionClient?, clipboard: Option<string>, now: Notion.DateTime,
                       fetched: Result<Notion.Database, string>, pageNow: Notion.DateTime,
                       created: Result<Notion.PageRef, string>)
    returns (reply: Option<Notion.Reply<Notion.PageRef>>, calls: seq<Notion.Request>)
    requires now.Valid() && pageNow.Valid()
    modifies api
    ensures (api == null || TextToSave(clipboard).None?) ==> reply == None && calls == []
    ensures api != null && TextToSave(clipboard).None? ==> api.titleProperty == old(api.titleProperty)
    ensures api != null && TextToSave(clipboard).Some? ==>
      var step := Notion.CreatePageStep(old(api.titleProperty), api.databaseId, api.memoPropertyName,
                                        fetched, pageNow, clipboard.value, created);
      reply == Some(step.reply) && calls == step.calls && api.titleProperty == step.titleProperty
  {
    var text := TextToSave(clipboard);
    if text.None? || api == null {
      return None, [];
    }
    var timestamp := Notion.Timestamp(now);
    var r;
    r, calls := api.CreatePage(timestamp, text.value, fetched, pageNow, created);
    reply := Some(r);
  }
}
