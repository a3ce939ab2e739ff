# NotionClipSync in Dafny

NotionClipSync ("Clip to Notion") is a macOS menu-bar tool. A global hotkey
sends the clipboard text to a Notion database as a new page. The page's title
column gets the current timestamp and its `メモ` column gets the text. Settings
(API key, database id, hotkey) live in `~/.clip_to_notion/.env`. They are
written by a first-run dialog sequence, by the menu's settings dialogs, or by a
Tk settings window.

This project models the logic of that tool and proves properties of the model:

- `Wrappers` (`wrappers.dfy`): `Option` and `Result`.
- `Strings` (`strings.dfy`): the Python string operations the tool relies on.
  These are `str.strip()` with Python's whitespace set, `strip('"\'')`,
  `startswith`, substring `in` and `split('=', 1)[1]`. It also covers
  text-mode reading: universal newlines turn `\r\n` and a lone `\r` into `\n`,
  and iterating a file yields lines that keep their `\n`.
- `EnvFile` (`env_file.dfy`): the three-line text every setup flow writes, what
  opening the file can find, and how its text splits into lines.
- `Notion` (`notion_api.dfy`): the `NotionAPI` client. This covers the
  environment checks at construction and the lazily cached title property of
  `create_page`. It also covers the page payload, the timestamp, and the
  success and failure records of `create_page` and `test_connection`.
- `ClipApp` (`main.dfy`): the main application.
  - `check_env_file`;
  - `load_hotkey_config`;
  - the hotkey chosen at the setup alert;
  - the input guards and outcome of `run_setup` / `open_settings`;
  - the clipboard guard of `save_selection`.
- `SetupGui` (`setup_gui.dfy`): the `SetupGUI` window as a class. It covers
  `load_current_settings`, `test_connection` and `save_and_exit`, plus the save
  button, which starts disabled, only a successful test enables, and nothing
  disables again.
- `Readers` (`readers.dfy`): how the two readers of the file, the application's
  and the window's, agree and where they differ.

The model makes no remote call. What the Notion service returns for a
database retrieve, or the text of the exception it raises, is an input
(`fetched`). So are the outcome of the page creation (`created`), the clock
reading (`now`), the clipboard and the dialog answers. Every remote call the
model makes comes back as a list of `Request` values. This holds for
`create_page`, both connection tests, setup and a save, so a contract can say
which calls happen and in what order. The file is a `FileState`: missing,
unreadable, or present with its text.

## Model

| member | source | states |
|---|---|---|
| Notion.ConfigError.Message | notion_api.py:12-15 | The text of the error starts with the name of the missing environment variable: the key's when the key is missing, the id's otherwise. |
| Notion.ReadCredentials | notion_api.py:7-15 | The API key is checked first, then the database id. Construction succeeds exactly when both variables are present and non-empty. A missing or empty key is always the key error, whatever the id. |
| Notion.NewClient | notion_api.py:7-19 | A failed check produces no client and returns the first failing check's error. Otherwise the result is a fresh client holding the two variables, no cached title property, and the memo property `メモ`. |
| Notion.NotionClient.constructor | notion_api.py:17-19 | A new client stores the credentials, has no title property cached, and uses the memo property `メモ`. |
| Notion.TitleIndex | notion_api.py:30-34 | The index of the first schema entry whose type is `title`: every earlier entry is not one, and the entry at the index is one. |
| Notion.FirstTitle | notion_api.py:29-34 | The discovered name is absent exactly when no entry has type `title`. Otherwise it is the name of the first such entry in schema order. |
| Notion.Schema | notion_api.py:27 | The schema entries are the database's `properties` in the order returned, or none when it has no `properties`. |
| Notion.DatabaseNameAsWritten | notion_api.py:95 | The source's name extraction fails exactly when the title list is present and empty. |
| Notion.DatabaseName | notion_api.py:95 | The database name is the first title fragment's `plain_text`, and otherwise "Unknown". It agrees with the source wherever the source succeeds. |
| Notion.UntitledDatabaseName | notion_api.py:95 | For an untitled database (title `[]`) the source fails with "list index out of range", while the intended name is "Unknown". |
| Notion.RetrievedName | notion_api.py:90-101 | What the `try` of a connection test ends with. It succeeds exactly when the retrieve succeeded and the title list is not present-and-empty, and the name is then `DatabaseName`'s. A failed retrieve gives its own error. An untitled database gives "list index out of range". |
| Notion.TwoDigits | notion_api.py:40 | Two zero-padded digits that read back as the number. |
| Notion.FourDigits | notion_api.py:40 | Four zero-padded digits that read back as the number. |
| Notion.Timestamp | notion_api.py:40 | The `%Y-%m-%d %H:%M:%S` text is 19 characters long, with its separators at positions 4, 7, 10, 13 and 16. |
| Notion.TimestampRoundTrip | notion_api.py:40 | The timestamp determines the clock reading: parsing it gives back all six fields, so different readings give different page titles. |
| Notion.PagePayload | notion_api.py:43-74 | The payload's parent is the configured database and its body is empty. Its properties are exactly the title and memo columns, and the memo holds the text verbatim. When the names differ, the title holds the timestamp and there are exactly two properties. |
| Notion.ToReply | notion_api.py:76-86 | The record is a success exactly when the call returned a value, and then it carries that value. Otherwise it is a failure carrying the exception's text. |
| Notion.CreatePageStep | notion_api.py:21-86 | 1. With a cached title property nothing is retrieved and the cache is unchanged. 2. Without one the database is retrieved exactly once, first, and the cache becomes the first title entry, or none after a failed retrieve. 3. A page is submitted exactly when a name was cached before, or a non-empty one was found now. 4. A submitted page carries the payload, and the reply is the creation's outcome. 5. Otherwise the reply is the retrieve error or "タイトルプロパティが見つかりません". 6. The calls are exactly that retrieve, if any, followed by at most one page creation: there is no retry. |
| Notion.Submit | notion_api.py:39-80 | Submitting appends exactly one page creation with the payload to the earlier calls, adds no retrieve, and turns the creation's outcome into the reply. |
| Notion.RetrievalsAppend | notion_api.py:24-26 | The retrieves of two call lists put together add up. |
| Notion.ResolvedNeverRefetches | notion_api.py:24-26 | Once the title property is cached, no number of later `create_page` calls retrieves the database again or changes the cache. |
| Notion.DiscoveredOnce | notion_api.py:24-37 | On a fresh client whose first `create_page` succeeds, any series of calls retrieves the schema exactly once. |
| Notion.NotionClient.CreatePage | notion_api.py:21-86 | The method, which scans the schema with a loop that breaks at the first title entry, leaves exactly the cache, reply and calls that `CreatePageStep` describes. |
| Notion.NotionClient.TestConnection | notion_api.py:88-101 | Exactly one retrieve of the configured database. It succeeds exactly when the retrieve succeeded and the database is not untitled, and the reply is then the database name. A failed retrieve gives its error text. An untitled database gives the caught "list index out of range", as the source does. |
| EnvFile.EnvContentLines | main.py:138-141 | The written text reads back as exactly its three lines, in order, each ending in a line feed, when no value holds a line break. |
| EnvFile.EnvContent | main.py:138-141 | The written text starts with `NOTION_API_KEY=` and ends with a line feed. `EnvContentLines` gives its three lines. |
| EnvFile.FileLines | main.py:165-166 | The lines the file yields in text mode (also setup_gui.py:35-36) put back together are the text as read. Every line is non-empty and holds a line feed only at its end, and every line but the last ends in one. |
| EnvFile.EnvContentSplits | main.py:138-141 | The written text splits into its three lines, in order, when no value holds a line feed. |
| EnvFile.ThreeLines | main.py:166 | Three complete lines put together split back into exactly those three lines. |
| EnvFile.WrittenLine | main.py:138-141 | When neither the key nor the value holds a line feed, the written line is complete: its only line feed is its last character. |
| EnvFile.EnvContentReadsUnchanged | main.py:138-141 | Text-mode reading leaves the written text unchanged when no value holds a carriage return. |
| EnvFile.KeysExclusive | setup_gui.py:38-43 | No line starts with two of the three keys, so the order of the elif chain does not matter. |
| Strings.TrimLeftSuffix | main.py:28 | Stripping from the left drops only characters of the class and keeps a suffix that starts with a character outside it. |
| Strings.TrimRightPrefix | main.py:28 | Stripping from the right drops only characters of the class and keeps a prefix that ends with a character outside it. |
| Strings.TrimLeft | main.py:28 | `lstrip` never lengthens the text. `TrimLeftSuffix` states what it keeps and drops. |
| Strings.TrimRight | main.py:28 | `rstrip` never lengthens the text. `TrimRightPrefix` states what it keeps and drops. |
| Strings.Strip | main.py:28 | `strip` never lengthens the text. `StripBare`, `StripEmpty` and `StripUnchanged` state what it keeps. |
| Strings.StripBare | setup_gui.py:37 | A stripped string neither begins nor ends with a character of the class. |
| Strings.StripEmpty | main.py:250 | A string strips to empty exactly when every character is in the class. |
| Strings.StripUnchanged | setup_gui.py:39 | Stripping leaves a string unchanged when it neither begins nor ends with a character of the class. |
| Strings.StripLineEnd | setup_gui.py:37 | Stripping a bare line followed by a stripped character, such as its line feed, gives the bare line. |
| Strings.StripNoLineBreak | main.py:79 | Stripping introduces no line break. |
| Strings.ContainsStrip | main.py:28-34 | A bare needle occurs in the stripped text exactly when it occurs in the text. |
| Strings.ContainsTrimLeft | main.py:28-34 | Stripping on the left neither creates nor destroys an occurrence of a bare needle. |
| Strings.ContainsTrimRight | main.py:28-34 | Stripping on the right neither creates nor destroys an occurrence of a bare needle. |
| Strings.ContainsOfTrimLeft | main.py:28-34 | An occurrence in the left-stripped text is an occurrence in the text. |
| Strings.ContainsInTrimLeft | main.py:28-34 | An occurrence of a bare needle in the text survives stripping on the left. |
| Strings.OccursInSuffix | main.py:33-34 | An occurrence in a suffix is an occurrence in the whole text, shifted by the suffix's start. |
| Strings.ContainsStart | main.py:33-34 | A text contains its own beginning. |
| Strings.ContainsExtend | main.py:33-34 | Prepending to a text keeps its occurrences. |
| Strings.IndexOf | main.py:168 | The position of the first occurrence of the separator, or the length when there is none. |
| Strings.AfterFirst | main.py:168 | The part after the first separator: a suffix, preceded by the separator, with no separator before it. |
| Strings.AfterKey | setup_gui.py:39 | For a line starting with a key whose only `=` is its last character, the value after the first `=` is everything after the key. |
| Strings.ReadNewlinesDropsCr | main.py:165 | Text-mode reading leaves no carriage return. |
| Strings.ReadNewlinesNoCr | main.py:165 | Text-mode reading changes nothing in a text without carriage returns. |
| Strings.ReadNewlines | main.py:165 | A text-mode read never lengthens the text. `ReadNewlinesCr` states what it changes, and `ReadNewlinesDropsCr` and `ReadNewlinesNoCr` state what it leaves. |
| Strings.ReadNewlinesPrefix | main.py:165 | A part without a carriage return reads as it is, followed by the reading of the rest. |
| Strings.ReadNewlinesCr | main.py:165 | The first carriage return reads as a line feed, and a line feed right after it is dropped. So `\r\n` and a lone `\r` both become one `\n`. |
| Strings.ReadNewlinesAfterLineFeed | main.py:28 | Whatever precedes a line feed, the read of the text ends with the read of what follows it, even when a carriage return before the line feed joins it. |
| Strings.Lines | main.py:166 | Iterating a text yields lines that, put back together, are the text. Every line is non-empty and holds a line feed only as its last character. Every line but the last ends in one. |
| Strings.LinesCons | main.py:166 | A leading line that ends in a line feed is yielded first, line feed included. |
| Strings.LinesAppend | main.py:166 | A complete line is yielded first, ahead of the lines of the text that follows it. |
| ClipApp.CheckEnvFileIsContainment | main.py:21-41 | A present file passes the check exactly when both `NOTION_API_KEY=` and `NOTION_DATABASE_ID=` occur in its text, anywhere and in either order. The strip and the emptiness test add nothing. |
| ClipApp.WrittenFilePassesCheck | main.py:21-41 | Every written file passes the check, whatever the key, the id and the hotkey, including empty values and values that hold carriage returns or line breaks. |
| ClipApp.KeysSurviveRead | main.py:28-34 | Two keys without carriage returns, the second at the start of a line, are both found in the read text, whatever value lies between them. |
| ClipApp.CheckEnvFile | main.py:21-41 | A file passes only when it is present and both keys occur in its text. `CheckEnvFileIsContainment` gives the converse. |
| ClipApp.PynputFor | main.py:170-177 | A known display maps to its own pynput string. An unknown display maps to the default `<cmd>+<shift>+v`. The result is always one of the four known strings. |
| ClipApp.HotkeyValue | main.py:168 | The value of a `HOTKEY=` line neither begins nor ends with a quote, and is no longer than what follows the key. |
| ClipApp.HotkeyConfig | main.py:156-181 | A missing or unreadable file gives the defaults. The pynput string returned is always the one registered for the displayed hotkey, and always a known one. `HotkeyConfigFirstWins` covers a present file. |
| ClipApp.HotkeyConfigFirstWins | main.py:164-181 | For a present file with no line starting with `HOTKEY=`, the result is the defaults. Otherwise the hotkey is the value of the FIRST such line, whatever later lines say. |
| ClipApp.FirstMatch | main.py:166-167 | The index of the first line starting with the key, or the number of lines when there is none. |
| ClipApp.LoadHotkeyConfig | main.py:156-181 | The method scans the lines in order and returns at the first `HOTKEY=` line. It returns exactly what `HotkeyConfig` says: the defaults for a missing or unreadable file or one without such a line. Otherwise it returns that line's value and its pynput string, or the default pynput string for an unknown hotkey. |
| ClipApp.HotkeyLineValue | main.py:168 | For a hotkey with no leading or trailing whitespace or quote, its written line reads back as the hotkey: whitespace is stripped, including the line feed, then quotes. |
| ClipApp.HotkeyRoundTrip | main.py:156-181 | A written file loads back as the hotkey written and its pynput string, for single-line values and a hotkey with no surrounding whitespace or quote. |
| ClipApp.WrittenHotkeyLineFirst | main.py:166-167 | In the written lines the first one starting with `HOTKEY=` is the third. |
| ClipApp.AlertHotkey | main.py:130-135 | The picked hotkey is always a known one. It is ⌘⇧V exactly for OK (1), ⌘⇧N exactly for Cancel (0), and ⌘⌃⇧V exactly for any other response. |
| ClipApp.SavedChoiceRestored | main.py:130-141 | When the key and the id hold no line break, the hotkey chosen at the alert and written to the file is the one the application registers on its next start. |
| ClipApp.RunSetup | main.py:75-141 | 1. A cancelled key dialog, or a cancelled id dialog after a usable key, ends the setup. 2. A key or id that strips to empty is refused, the key first. 3. A retrieve with the stripped id is made exactly when both values are non-empty, and it is the only remote call. 4. The connection fails with the retrieve's error, or with "list index out of range" for an untitled database. 5. Otherwise the setup writes the stripped values with the picked hotkey. `open_settings` does the same (main.py:292-357), returning where `run_setup` exits. |
| ClipApp.SetupFileReadsBack | main.py:137-145 | What a successful setup writes passes `check_env_file` and loads back as the hotkey picked, with its pynput string, for any single-line answers. |
| ClipApp.TextToSave | main.py:229-252 | There is text to save exactly when the clipboard was read and holds a character that is not whitespace. The text is then the clipboard verbatim, unstripped. |
| ClipApp.SaveSelection | main.py:238-261 | An empty or whitespace-only clipboard, or a missing client, makes no remote call and leaves the cache alone. Otherwise the call is exactly one `create_page` with the clipboard text. |
| SetupGui.StripLines | setup_gui.py:36-37 | Stripping each line keeps the number of lines. |
| SetupGui.SettingValue | setup_gui.py:39 | The value of a setting line neither begins nor ends with a quote, and is shorter than the line. |
| SetupGui.ApplyLine | setup_gui.py:38-43 | A line changes a setting only when it starts with that setting's key. Values that were quote-free stay so. |
| SetupGui.ParseSettings | setup_gui.py:29-43 | A setting no line is for keeps its default, and no value read begins or ends with a quote. |
| SetupGui.LoadedSettings | setup_gui.py:27-43 | A file that is not there gives the defaults, and no loaded value begins or ends with a quote. |
| SetupGui.LastMatch | setup_gui.py:36-43 | The index of the last stripped line starting with the key: no later line starts with it. The result is -1 when no line does. |
| SetupGui.LastOccurrenceWins | setup_gui.py:27-43 | Each of the three settings comes from the LAST stripped line for its key, whatever lies between. A setting with no line keeps its default (`''`, `''`, `⌘⇧V`). |
| SetupGui.LastValueStep | setup_gui.py:36-43 | One more line changes a key's value only when it starts with that key. |
| SetupGui.ParseSnoc | setup_gui.py:36-43 | Reading one more line applies that line to the settings read so far. |
| SetupGui.StripLinesSnoc | setup_gui.py:36-37 | Stripping one more line appends that line, stripped. |
| SetupGui.StrippedLine | setup_gui.py:37 | For a value with no leading or trailing whitespace, a written line stripped is its key and value without the line feed. |
| SetupGui.KeyedValue | setup_gui.py:38-43 | A stripped keyed line gives back its value when the value has no surrounding quote. |
| SetupGui.ApplyApiKeyLine | setup_gui.py:38-39 | An API key line sets only the API key. |
| SetupGui.ApplyDatabaseIdLine | setup_gui.py:40-41 | A database id line sets only the database id. |
| SetupGui.ApplyHotkeyLine | setup_gui.py:42-43 | A hotkey line sets only the hotkey. |
| SetupGui.StrippedEnvLines | setup_gui.py:36-37 | For values with no leading or trailing whitespace, the three written lines, stripped, are the three key and value lines. |
| SetupGui.WrittenLinesParse | setup_gui.py:38-43 | For values that neither start nor end with a quote, the three stripped written lines set the three settings to the values written. |
| SetupGui.SettingsRoundTrip | setup_gui.py:27-43 | A written file loads back into the window as the three values written, for single-line values with no surrounding whitespace or quote. |
| SetupGui.ConnectionTest | setup_gui.py:159-204 | 1. An API key that strips to empty is refused first, then an empty id, and neither refusal makes a remote call. 2. Otherwise exactly one retrieve, with the stripped id. 3. Connected exactly when that retrieve succeeded and the database is not untitled, with the database's name. 4. Otherwise failed, with the retrieve's error or the caught "list index out of range". |
| SetupGui.SaveEnabledIffConnected | setup_gui.py:135-189 | After any series of tests the save button is enabled exactly when it was enabled before or some test connected. |
| SetupGui.EnabledAfter | setup_gui.py:189-204 | No test disables the save button, and a series without a connection leaves it as it was. |
| SetupGui.SavedSettingsReload | setup_gui.py:206-216 | When no entry and no hotkey holds a line break, the stripped key and id neither start nor end with a quote, and the hotkey has no leading or trailing whitespace or quote, reopening the window after a save shows the stripped entries and the selected hotkey. |
| SetupGui.SaveContent | setup_gui.py:208-216 | When no entry and no hotkey holds a line break, the saved text reads back as three lines: the stripped key, the stripped id and the hotkey, each after its key and ending in a line feed. |
| SetupGui.SetupWindow.constructor | setup_gui.py:10-31 | The window's state before `load_current_settings` runs (setup_gui.py:22): the defaults, with the save button disabled, as setup_gui.py:139 creates it. `LoadCurrentSettings` then models the load. |
| SetupGui.SetupWindow.LoadCurrentSettings | setup_gui.py:27-43 | The method resets the values, then reads the file line by line. The window ends with exactly `LoadedSettings(file)`, which the lemmas above characterise. It fails only when opening the file fails, and leaves the save button alone. |
| SetupGui.SetupWindow.TestConnection | setup_gui.py:159-204 | The outcome and calls are `ConnectionTest`'s. Only a connection enables the save button, so an untitled database leaves it as it was. Nothing disables it, and the settings shown are unchanged. |
| SetupGui.SetupWindow.SaveAndExit | setup_gui.py:206-223 | Text is written exactly when the save button is enabled. It is the stripped key and id with the selected hotkey, in the three-line format. |
| Readers.WrittenFileAgrees | main.py:156-181 | On a written file whose three values have no line break and no leading or trailing whitespace or quote, the application and the window show the same hotkey, the one written. |
| Readers.TwoHotkeysLines | main.py:165-166 | A file with two `HOTKEY=` lines reads back as those two lines. |
| Readers.RepeatedHotkey | main.py:166-177 | With two `HOTKEY=` lines the application registers the FIRST, while the window (setup_gui.py:36-43) shows the LAST. |
| Readers.WindowTakesLast | setup_gui.py:36-43 | The window reads two hotkey lines as the second. |
| Readers.TwoHotkeysStripped | setup_gui.py:37 | Stripping the two hotkey lines drops their line feeds. |
| Readers.TwoHotkeysParse | setup_gui.py:42-43 | The second of two stripped hotkey lines wins. |
| Readers.IndentedHotkeyRead | main.py:167 | An indented `HOTKEY=` line is ignored by the application, which keeps its defaults. The window (setup_gui.py:37) strips the line and reads it. |
| Readers.IndentedHotkeyLines | main.py:166 | The indented file reads back as its single line. |
| Readers.IndentedLineParse | setup_gui.py:37-43 | The window reads the indented line as its hotkey. |
| Readers.IndentedLineStripped | setup_gui.py:37 | Stripping the indented line removes the leading space and the line feed. |

## Left out

- The user interface is not modelled: rumps menus, alerts and windows, tkinter widgets, the status label and message boxes. Dialog answers and the alert response are inputs.
- pynput's global hotkey listener, pyperclip's clipboard access and the `notion_client` SDK are foreign code. Their results are inputs.
- File I/O is abstracted. Opening the file gives a `FileState`, and a write is the text written. A read error part-way through a file, after some lines were already applied, is not modelled: `Unreadable` means the open itself failed.
- The failure of a write in `run_setup`, `open_settings` and `save_and_exit` is not modelled. Those paths only show an error dialog, or call `sys.exit`.
- `load_dotenv`, `os.environ` and the environment the client reads from are not modelled. The environment is a map passed in, and `check_env_file`'s load of the file into it is left out.
- `print` output, `sys.exit` and `rumps.quit_application` are not modelled. The exits of `run_setup` are the outcomes of `RunSetup`.
- `ClipToNotion.__init__`, `get_selected_text`'s exception handler, `quit_app`, the restart offer in `open_settings`, `ensure_env_directory`, `SetupGUI.create_widgets` and `run`, and setup_launcher.py are UI wiring with no logic of their own; they are not part of this model.
- Notion.NotionClient.TestConnection: the retrieved database is an input, and nothing ties it to the stored credentials. The same holds for `ConnectionTest` and `RunSetup`, where the source builds a fresh client from the entered key.
- Notion.NotionClient.CreatePage: the `title` argument is taken but, as in the source, has no part in the result.
- Notion.Timestamp: assumes a valid clock reading. Years below 1000 are zero padded to four digits, as macOS's `strftime` does. A platform that does not pad would give a shorter text.
- ClipApp.SavedChoiceRestored: a key or id that holds a line break is not covered. `run_setup` only strips the answers, so a key such as `a` + line feed + `HOTKEY=x` writes a second `HOTKEY=` line ahead of the chosen one, and the application registers `x` instead.
- EnvFile.WrittenLine, ClipApp.HotkeyLineValue, SetupGui.StrippedLine, SetupGui.StrippedEnvLines and SetupGui.WrittenLinesParse: these steps of the round trips are stated only for values without line feeds, or without surrounding whitespace or quotes, as their rows say, for the same reason as the line below.
- SetupGui.SavedSettingsReload, SetupGui.SaveContent and Readers.WrittenFileAgrees: values that hold a line break, or whose stripped text starts or ends with a quote, do not read back as written, because the readers split lines and strip quotes. Those inputs are left outside these round trips. `ClipApp.WrittenFilePassesCheck` covers them, and it has no premise.
- Strings.IsSpace: covers Python's `str.isspace` set, with no Unicode normalisation or case folding.
- The ordering and uniqueness of a Notion schema's property names are not modelled. The schema is a list in the order the service returned it.

## Findings

| source | as written | input that shows it | evidently intended | confidence | as-written member | corrected member |
|---|---|---|---|---|---|---|
| notion_api.py:95 (also main.py:112, main.py:329, setup_gui.py:180) | `database.get("title", [{}])[0]` indexes the title list. An absent title falls back to `[{}]`, but a present empty list raises `IndexError`. | A database whose `title` is `[]`, i.e. an untitled database. `test_connection` then reports failure "list index out of range", and setup treats the connection as failed. | Report the name "Unknown", as the `[{}]` fallback shows, and treat the connection as successful. | not executed | Notion.DatabaseNameAsWritten, Notion.UntitledDatabaseName | Notion.DatabaseName |

The operations keep the source's behaviour. `Notion.NotionClient.TestConnection`,
`ClipApp.RunSetup`, `SetupGui.ConnectionTest` and `SetupGui.SetupWindow.TestConnection`
go through `Notion.RetrievedName`, so an untitled database fails their connection
test, as it does in the source. `Notion.DatabaseName` is the intended name. It agrees
with every name these operations report.
