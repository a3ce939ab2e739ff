/**
 * The key=value configuration file `~/.clip_to_notion/.env`: what opening it
 * can find, how it splits into lines, and the three-line text every setup
 * flow writes to it.
 */
module EnvFile {
  import opened Strings

  const ApiKeyKey := "NOTION_API_KEY="
  const DatabaseIdKey := "NOTION_DATABASE_ID="
  const HotkeyKey := "HOTKEY="

  /** What opening the file finds; a read error is taken to happen before any line is produced. */
  datatype FileState = Missing | Unreadable | Present(text: string)

  /** The text the setup flows write: the three settings, one per line, each line ending in a line feed. */
  function EnvContent(apiKey: string, databaseId: string, hotkey: string): (text: string)
    ensures StartsWith(text, ApiKeyKey) && text[|text| - 1] == '\n'
  {
    var text := ApiKeyKey + (apiKey + ("\n" + (DatabaseIdKey + (databaseId + ("\n" + (HotkeyKey + (hotkey + "\n")))))));
    assert text[..|ApiKeyKey|] == ApiKeyKey;
    text
  }

  /** The lines iterating over the file yields when it holds `text` and is opened in text mode, each with its line feed. */
  function FileLines(text: string): (lines: seq<string>)
    ensures Concat(lines) == ReadNewlines(text) && LinesShaped(lines)
  {
    Lines(ReadNewlines(text))
  }

  /** Read back, the written text is exactly its three lines, in the order written. */
  lemma EnvContentLines(apiKey: string, databaseId: string, hotkey: string)
    requires NoLineBreak(apiKey) && NoLineBreak(databaseId) && NoLineBreak(hotkey)
    ensures FileLines(EnvContent(apiKey, databaseId, hotkey))
         == [ApiKeyKey + apiKey + "\n", DatabaseIdKey + databaseId + "\n", HotkeyKey + hotkey + "\n"]
  {
    EnvContentReadsUnchanged(apiKey, databaseId, hotkey);
    EnvContentSplits(apiKey, databaseId, hotkey);
  }

  /** The written text splits into its three lines. */
  lemma EnvContentSplits(apiKey: string, databaseId: string, hotkey: string)
    requires '\n' !in apiKey && '\n' !in databaseId && '\n' !in hotkey
    ensures Lines(EnvContent(apiKey, databaseId, hotkey))
         == [ApiKeyKey + apiKey + "\n", DatabaseIdKey + databaseId + "\n", HotkeyKey + hotkey + "\n"]
  {
    var l0, l1, l2 := ApiKeyKey + apiKey + "\n", DatabaseIdKey + databaseId + "\n", HotkeyKey + hotkey + "\n";
    assert EnvContent(apiKey, databaseId, hotkey) == l0 + (l1 + l2);
    WrittenLine(ApiKeyKey, apiKey);
    WrittenLine(DatabaseIdKey, databaseId);
    WrittenLine(HotkeyKey, hotkey);
    ThreeLines(l0, l1, l2);
  }

  /** Three complete lines put together split back into the three. */
  lemma ThreeLines(l0: string, l1: string, l2: string)
    requires l0 != [] && l0[|l0| - 1] == '\n' && '\n' !in l0[..|l0| - 1]
    requires l1 != [] && l1[|l1| - 1] == '\n' && '\n' !in l1[..|l1| - 1]
    requires l2 != [] && l2[|l2| - 1] == '\n' && '\n' !in l2[..|l2| - 1]
    ensures Lines(l0 + (l1 + l2)) == [l0, l1, l2]
  {
    LinesAppend(l2, []);
    assert l2 + [] == l2;
    LinesAppend(l1, l2);
    LinesAppend(l0, l1 + l2);
  }

  /** A written line is complete: its only line feed is its last character. */
  lemma WrittenLine(key: string, value: string)
    requires '\n' !in key && '\n' !in value
    ensures var line := key + value + "\n";
      line[|line| - 1] == '\n' && '\n' !in line[..|line| - 1]
  {
    var line := key + value + "\n";
    assert line[..|line| - 1] == key + value;
  }

  /** The written text has no carriage return, so reading it in text mode changes nothing. */
  lemma EnvContentReadsUnchanged(apiKey: string, databaseId: string, hotkey: string)
    requires '\r' !in apiKey && '\r' !in databaseId && '\r' !in hotkey
    ensures ReadNewlines(EnvContent(apiKey, databaseId, hotkey)) == EnvContent(apiKey, databaseId, hotkey)
  {
    ReadNewlinesNoCr(EnvContent(apiKey, databaseId, hotkey));
  }

  /** No line starts with two of the three keys, so the order in which a reader tests them does not matter. */
  lemma KeysExclusive(line: string)
    ensures !(StartsWith(line, ApiKeyKey) && StartsWith(line, DatabaseIdKey))
    ensures !(StartsWith(line, ApiKeyKey) && StartsWith(line, HotkeyKey))
    ensures !(StartsWith(line, DatabaseIdKey) && StartsWith(line, HotkeyKey))
  {
    if StartsWith(line, ApiKeyKey) {
      assert line[0] == line[..|ApiKeyKey|][0] == 'N';
      assert line[7] == line[..|ApiKeyKey|][7] == 'A';
    }
    if StartsWith(line, DatabaseIdKey) {
      assert line[0] == line[..|DatabaseIdKey|][0] == 'N';
      assert line[7] == line[..|DatabaseIdKey|][7] == 'D';
    }
    if StartsWith(line, HotkeyKey) {
      assert line[0] == line[..|HotkeyKey|][0] == 'H';
    }
  }
}
