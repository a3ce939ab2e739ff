/**
 * The Notion client: configuration checks at construction, lazy discovery of
 * the database's title property, the page payload, and the result records of
 * `create_page` and `test_connection`.
 *
 * The remote service is abstract. What a retrieve of the database returns, or
 * the message of the exception it raises, is an input (`fetched`); so is the
 * outcome of the page creation (`created`) and the wall clock (`now`). Every
 * remote call the client makes is returned, in order, as a `Request`.
 */
module Notion {
  import opened Wrappers
  import opened Strings

  const ApiKeyVar := "NOTION_API_KEY"
  const DatabaseIdVar := "NOTION_DATABASE_ID"
  /** The fixed name of the rich-text property that receives the saved text. */
  const MemoProperty := "メモ"
  /** The message of the error raised when the schema has no usable title property. */
  const TitleNotFound := "タイトルプロパティが見つかりません"
  /** What a missing title, or a title fragment without `plain_text`, is reported as. */
  const UnknownName := "Unknown"
  /** The message of the `IndexError` raised by indexing an empty list. */
  const IndexOutOfRange := "list index out of range"

  // ---------------------------------------------------------------- construction

  /** Why construction fails; `Message` is the text of the `ValueError` raised. */
  datatype ConfigError = ApiKeyNotSet | DatabaseIdNotSet {
    function Message(): (m: string)
      ensures StartsWith(m, if this.ApiKeyNotSet? then ApiKeyVar else DatabaseIdVar)
    {
      match this
      case ApiKeyNotSet => "NOTION_API_KEY環境変数が設定されていません"
      case DatabaseIdNotSet => "NOTION_DATABASE_ID環境変数が設定されていません"
    }
  }

  datatype Credentials = Credentials(apiKey: string, databaseId: string)

  /** A variable counts as set when it is present and not the empty string (Python's `not value`). */
  predicate IsSet(env: map<string, string>, name: string) {
    name in env && env[name] != ""
  }

  /**
   * The two checks of the constructor, in source order: the API key first,
   * then the database id. Both pass exactly when both variables are set.
   */
  function ReadCredentials(env: map<string, string>): (r: Result<Credentials, ConfigError>)
    ensures r.Ok? <==> IsSet(env, ApiKeyVar) && IsSet(env, DatabaseIdVar)
    ensures r == Err(ApiKeyNotSet) <==> !IsSet(env, ApiKeyVar)
    ensures r == Err(DatabaseIdNotSet) <==> IsSet(env, ApiKeyVar) && !IsSet(env, DatabaseIdVar)
    ensures r.Ok? ==> (r.value == Credentials(env[ApiKeyVar], env[DatabaseIdVar])
                       && r.value.apiKey != "" && r.value.databaseId != "")
  {
    if !IsSet(env, ApiKeyVar) then Err(ApiKeyNotSet)
    else if !IsSet(env, DatabaseIdVar) then Err(DatabaseIdNotSet)
    else Ok(Credentials(env[ApiKeyVar], env[DatabaseIdVar]))
  }

  // ---------------------------------------------------------------- the remote database

  /** One rich-text fragment of a database title; `plain_text` may be absent. */
  datatype Fragment = Fragment(plainText: Option<string>)
  /** One schema entry: the property's name and its `type`, which may be absent. */
  datatype Property = Property(name: string, kind: Option<string>)
  /** A retrieved database: its `title` and its `properties`, each of which may be absent. */
  datatype Database = Database(title: Option<seq<Fragment>>, properties: Option<seq<Property>>)

  /** The schema entries of the database, in the order the service returned them; none when it has no `properties`. */
  function Schema(db: Database): (props: seq<Property>)
    ensures db.properties.Some? ==> props == db.properties.value
    ensures db.properties.None? ==> props == []
  {
    db.properties.GetOr([])
  }

  predicate IsTitle(p: Property) {
    p.kind == Some("title")
  }

  /** The position of the first title-type entry, or `|props|` when there is none. */
  function TitleIndex(props: seq<Property>): (i: nat)
    ensures i <= |props|
    ensures i < |props| ==> IsTitle(props[i])
    ensures forall j :: 0 <= j < i ==> !IsTitle(props[j])
  {
    if props == [] || IsTitle(props[0]) then 0 else 1 + TitleIndex(props[1..])
  }

  /** The name of the first title-type entry in schema order; later title-type entries play no part. */
  function FirstTitle(props: seq<Property>): (r: Option<string>)
    ensures r.None? <==> forall j :: 0 <= j < |props| ==> !IsTitle(props[j])
    ensures r.Some? ==> r.value == props[TitleIndex(props)].name
  {
    var i := TitleIndex(props);
    if i < |props| then Some(props[i].name) else None
  }

  /**
   * The database name as the source computes it: the `plain_text` of the
   * first title fragment, defaulting to "Unknown". An absent title reads as one
   * empty fragment, but a PRESENT EMPTY title list makes the indexing raise
   * `IndexError`, so the call fails.
   */
  function DatabaseNameAsWritten(db: Database): (r: Result<string, string>)
    ensures r.Err? <==> db.title == Some([])
  {
    match db.title
    case None => Ok(UnknownName)
    case Some(fragments) =>
      if fragments == [] then Err(IndexOutOfRange)
      else Ok(fragments[0].plainText.GetOr(UnknownName))
  }

  /**
   * The database name as intended: the first title fragment's `plain_text`,
   * and "Unknown" whenever there is no such text, including for an untitled
   * database whose title list is empty.
   */
  function DatabaseName(db: Database): (name: string)
    ensures (db.title.Some? && db.title.value != [] && db.title.value[0].plainText.Some?)
            ==> name == db.title.value[0].plainText.value
    ensures !(db.title.Some? && db.title.value != [] && db.title.value[0].plainText.Some?)
            ==> name == UnknownName
    ensures DatabaseNameAsWritten(db).Ok? ==> name == DatabaseNameAsWritten(db).value
  {
    match db.title
    case Some(fragments) =>
      if fragments != [] then fragments[0].plainText.GetOr(UnknownName) else UnknownName
    case None => UnknownName
  }

  /** An untitled database (title `[]`) makes the source's name extraction raise, where the intended name is "Unknown". */
  lemma UntitledDatabaseName(props: Option<seq<Property>>)
    ensures DatabaseNameAsWritten(Database(Some([]), props)) == Err(IndexOutOfRange)
    ensures DatabaseName(Database(Some([]), props)) == UnknownName
  {
  }

  /**
   * What the `try` block of every connection test ends with: the error of the
   * retrieve, the `IndexError` of the name extraction for an untitled
   * database, or the database name.
   */
  function RetrievedName(fetched: Result<Database, string>): (r: Result<string, string>)
    ensures r.Ok? <==> fetched.Ok? && fetched.value.title != Some([])
    ensures r.Ok? ==> r.value == DatabaseName(fetched.value)
    ensures fetched.Err? ==> r == Err(fetched.error)
    ensures fetched.Ok? && fetched.value.title == Some([]) ==> r == Err(IndexOutOfRange)
  {
    match fetched
    case Err(e) => Err(e)
    case Ok(db) => DatabaseNameAsWritten(db)
  }

  // ---------------------------------------------------------------- the timestamp

  /** A reading of the local clock, as `datetime.now()` returns it. */
  datatype DateTime = DateTime(year: int, month: int, day: int, hour: int, minute: int, second: int) {
    predicate Valid() {
      1 <= year <= 9999 && 1 <= month <= 12 && 1 <= day <= 31
      && 0 <= hour < 24 && 0 <= minute < 60 && 0 <= second < 60
    }
  }

  function Digit(n: int): char
    requires 0 <= n < 10
  {
    ('0' as int + n) as char
  }

  /** `n` as two decimal digits, zero padded (`%m`, `%d`, `%H`, `%M`, `%S`). */
  function TwoDigits(n: int): (s: string)
    requires 0 <= n < 100
    ensures |s| == 2 && ReadTwoDigits(s) == Some(n)
  {
    [Digit(n / 10), Digit(n % 10)]
  }

  /** `n` as four decimal digits, zero padded (`%Y`). */
  function FourDigits(n: int): (s: string)
    requires 0 <= n < 10000
    ensures |s| == 4 && ReadFourDigits(s) == Some(n)
  {
    var s := TwoDigits(n / 100) + TwoDigits(n % 100);
    assert s[..2] == TwoDigits(n / 100) && s[2..] == TwoDigits(n % 100);
    s
  }

  function DigitValue(c: char): Option<int> {
    if '0' <= c <= '9' then Some(c as int - '0' as int) else None
  }

  function ReadTwoDigits(s: string): Option<int>
    requires |s| == 2
  {
    match (DigitValue(s[0]), DigitValue(s[1]))
    case (Some(high), Some(low)) => Some(10 * high + low)
    case _ => None
  }

  function ReadFourDigits(s: string): Option<int>
    requires |s| == 4
  {
    match (ReadTwoDigits(s[..2]), ReadTwoDigits(s[2..]))
    case (Some(high), Some(low)) => Some(100 * high + low)
    case _ => None
  }

  /**
   * The local time formatted as `YYYY-MM-DD HH:MM:SS`: 19 characters, with the year zero
   * padded to four digits as the platform's strftime does.
   */
  function Timestamp(t: DateTime): (s: string)
    requires t.Valid()
    ensures |s| == 19
    ensures s[4] == '-' && s[7] == '-' && s[10] == ' ' && s[13] == ':' && s[16] == ':'
  {
    FourDigits(t.year) + "-" + TwoDigits(t.month) + "-" + TwoDigits(t.day) + " "
    + TwoDigits(t.hour) + ":" + TwoDigits(t.minute) + ":" + TwoDigits(t.second)
  }

  /** Reads a `YYYY-MM-DD HH:MM:SS` string back into its six fields. */
  function ParseTimestamp(s: string): Option<DateTime> {
    if |s| != 19 then None
    else
      var y, mo, d := ReadFourDigits(s[0..4]), ReadTwoDigits(s[5..7]), ReadTwoDigits(s[8..10]);
      var h, mi, sec := ReadTwoDigits(s[11..13]), ReadTwoDigits(s[14..16]), ReadTwoDigits(s[17..19]);
      if y.Some? && mo.Some? && d.Some? && h.Some? && mi.Some? && sec.Some?
      then Some(DateTime(y.value, mo.value, d.value, h.value, mi.value, sec.value))
      else None
  }

  /** The six fields can be read back from the timestamp, so two different readings never share a title. */
  lemma TimestampRoundTrip(t: DateTime)
    requires t.Valid()
    ensures ParseTimestamp(Timestamp(t)) == Some(t)
  {
    var s := Timestamp(t);
    assert s[0..4] == FourDigits(t.year);
    assert s[5..7] == TwoDigits(t.month);
    assert s[8..10] == TwoDigits(t.day);
    assert s[11..13] == TwoDigits(t.hour);
    assert s[14..16] == TwoDigits(t.minute);
    assert s[17..19] == TwoDigits(t.second);
  }

  // ---------------------------------------------------------------- the page

  /** A property value of the new page: a title or a rich-text column, each holding one text run. */
  datatype Value = TitleText(content: string) | RichText(content: string)
  /** The arguments of `pages.create`: parent database id, property map and body blocks. */
  datatype Payload = Payload(parent: string, properties: map<string, Value>, children: seq<string>)
  /** The `id` and `url` of a created page. */
  datatype PageRef = PageRef(id: string, url: string)
  /** A remote call the client makes. */
  datatype Request = RetrieveDatabase(databaseId: string) | CreatePageRequest(payload: Payload)
  /** The dictionaries the client returns: `{success: True, ...}` or `{success: False, error: str(e)}`. */
  datatype Reply<T> = Success(value: T) | Failure(error: string)

  /**
   * The page submitted for one save: the title property holds the timestamp,
   * the memo property holds the text verbatim, and the body is empty. The map
   * literal lists the title first, so if the two names coincide the memo
   * entry is the one that remains.
   */
  function PagePayload(databaseId: string, titleProperty: string, memoProperty: string,
                       stamp: string, content: string): (p: Payload)
    ensures p.parent == databaseId && p.children == []
    ensures p.properties.Keys == {titleProperty, memoProperty}
    ensures p.properties[memoProperty] == RichText(content)
    ensures titleProperty != memoProperty
            ==> |p.properties| == 2 && p.properties[titleProperty] == TitleText(stamp)
  {
    var props := map[titleProperty := TitleText(stamp)][memoProperty := RichText(content)];
    assert titleProperty != memoProperty ==> |props.Keys| == |{titleProperty} + {memoProperty}| == 2;
    Payload(databaseId, props, [])
  }

  /** The record a call returns: success with the value, or failure with the exception's text. */
  function ToReply<T>(r: Result<T, string>): (reply: Reply<T>)
    ensures reply.Success? <==> r.Ok?
    ensures reply.Success? ==> reply.value == r.value
    ensures reply.Failure? ==> reply.error == r.error
  {
    match r
    case Ok(v) => Success(v)
    case Err(e) => Failure(e)
  }

  /** The client's cached title property, the reply and the remote calls of one `create_page`. */
  datatype PageStep = PageStep(titleProperty: Option<string>, reply: Reply<PageRef>, calls: seq<Request>)

  /** Whether the step ended by submitting a page. */
  predicate Submitted(s: PageStep) {
    s.calls != [] && s.calls[|s.calls| - 1].CreatePageRequest?
  }

  /** How many times the calls retrieve the database. */
  function Retrievals(calls: seq<Request>): nat {
    if calls == [] then 0
    else (if calls[0].RetrieveDatabase? then 1 else 0) + Retrievals(calls[1..])
  }

  /**
   * One `create_page(title, content)` on a client whose cache is `cached`.
   * The `title` argument has no part in it.
   * - Unresolved: the database is retrieved once, and the first title-type
   *   entry of its schema is cached; a failed retrieve or a schema without one
   *   fails the call and leaves the cache unset, so the next call retrieves
   *   again. A title-type entry named "" is cached and the call still fails.
   * - Resolved: nothing is retrieved and the cache is never changed.
   * - A page is submitted exactly when a non-empty name was resolved now, or
   *   any name was cached earlier; the reply is then the creation's outcome.
   */
  function CreatePageStep(cached: Option<string>, databaseId: string, memoProperty: string,
                          fetched: Result<Database, string>, now: DateTime, content: string,
                          created: Result<PageRef, string>): (s: PageStep)
    requires now.Valid()
    ensures cached.Some? ==> s.titleProperty == cached && Retrievals(s.calls) == 0
    ensures cached.None? ==> s.calls != [] && s.calls[0] == RetrieveDatabase(databaseId) && Retrievals(s.calls) == 1
    ensures cached.None? ==> s.titleProperty == (if fetched.Ok? then FirstTitle(Schema(fetched.value)) else None)
    ensures Submitted(s) <==> s.titleProperty.Some? && (cached.Some? || s.titleProperty.value != "")
    ensures Submitted(s) ==> (s.reply == ToReply(created)
      && s.calls[|s.calls| - 1]
         == CreatePageRequest(PagePayload(databaseId, s.titleProperty.value, memoProperty, Timestamp(now), content)))
    ensures !Submitted(s) ==> s.reply.Failure? && cached.None?
    ensures !Submitted(s) && fetched.Err? ==> s.reply == Failure(fetched.error)
    ensures !Submitted(s) && fetched.Ok? ==> s.reply == Failure(TitleNotFound)
    ensures s.reply.Success? ==> created.Ok? && s.reply.value == created.value
    ensures !Submitted(s) ==> s.calls == [RetrieveDatabase(databaseId)]
    ensures Submitted(s) ==>
              s.calls == (if cached.None? then [RetrieveDatabase(databaseId)] else [])
                         + [CreatePageRequest(PagePayload(databaseId, s.titleProperty.value, memoProperty,
                                                          Timestamp(now), content))]
  {
    if cached.None? then
      var retrieve := [RetrieveDatabase(databaseId)];
      assert Retrievals(retrieve) == 1;
      if fetched.Err? then PageStep(None, Failure(fetched.error), retrieve)
      else
        var discovered := FirstTitle(Schema(fetched.value));
        if discovered.None? || discovered.value == "" then PageStep(discovered, Failure(TitleNotFound), retrieve)
        else Submit(discovered.value, retrieve, databaseId, memoProperty, now, content, created)
    else Submit(cached.value, [], databaseId, memoProperty, now, content, created)
  }

  /** The submission part of `create_page`, after `before` has resolved `titleProperty`. */
  function Submit(titleProperty: string, before: seq<Request>, databaseId: string, memoProperty: string,
                  now: DateTime, content: string, created: Result<PageRef, string>): (s: PageStep)
    requires now.Valid()
    ensures s.titleProperty == Some(titleProperty) && s.reply == ToReply(created)
    ensures s.calls == before + [CreatePageRequest(PagePayload(databaseId, titleProperty, memoProperty, Timestamp(now), content))]
    ensures Retrievals(s.calls) == Retrievals(before)
  {
    var calls := before + [CreatePageRequest(PagePayload(databaseId, titleProperty, memoProperty, Timestamp(now), content))];
    RetrievalsAppend(before, [calls[|calls| - 1]]);
    PageStep(Some(titleProperty), ToReply(created), calls)
  }

  lemma {:induction false} RetrievalsAppend(a: seq<Request>, b: seq<Request>)
    ensures Retrievals(a + b) == Retrievals(a) + Retrievals(b)
  {
    if a == [] {
      assert a + b == b;
    } else {
      assert (a + b)[0] == a[0];
      assert (a + b)[1..] == a[1..] + b;
      RetrievalsAppend(a[1..], b);
    }
  }

  /** The inputs the remote service and the clock supply to one `create_page` call. */
  datatype CallInputs = CallInputs(fetched: Result<Database, string>, now: DateTime, content: string,
                                   created: Result<PageRef, string>)

  /** A sequence of `create_page` calls on one client: the final cache and every remote call, in order. */
  function RunCalls(cached: Option<string>, databaseId: string, memoProperty: string, inputs: seq<CallInputs>)
    : (r: (Option<string>, seq<Request>))
    requires forall k :: 0 <= k < |inputs| ==> inputs[k].now.Valid()
    decreases |inputs|
  {
    if inputs == [] then (cached, [])
    else
      var c := inputs[0];
      var step := CreatePageStep(cached, databaseId, memoProperty, c.fetched, c.now, c.content, c.created);
      var rest := RunCalls(step.titleProperty, databaseId, memoProperty, inputs[1..]);
      (rest.0, step.calls + rest.1)
  }

  /** Once the title property is resolved, no later call retrieves the database, and the cache never changes. */
  lemma {:induction false} ResolvedNeverRefetches(cached: Option<string>, databaseId: string, memoProperty: string,
                                                  inputs: seq<CallInputs>)
    requires forall k :: 0 <= k < |inputs| ==> inputs[k].now.Valid()
    requires cached.Some?
    ensures RunCalls(cached, databaseId, memoProperty, inputs).0 == cached
    ensures Retrievals(RunCalls(cached, databaseId, memoProperty, inputs).1) == 0
  {
    if inputs != [] {
      var c := inputs[0];
      var step := CreatePageStep(cached, databaseId, memoProperty, c.fetched, c.now, c.content, c.created);
      ResolvedNeverRefetches(step.titleProperty, databaseId, memoProperty, inputs[1..]);
      RetrievalsAppend(step.calls, RunCalls(step.titleProperty, databaseId, memoProperty, inputs[1..]).1);
    }
  }

  /** On a fresh client, N >= 1 calls whose first one succeeds retrieve the schema exactly once. */
  lemma DiscoveredOnce(databaseId: string, memoProperty: string, inputs: seq<CallInputs>)
    requires forall k :: 0 <= k < |inputs| ==> inputs[k].now.Valid()
    requires inputs != []
    requires CreatePageStep(None, databaseId, memoProperty, inputs[0].fetched, inputs[0].now,
                            inputs[0].content, inputs[0].created).reply.Success?
    ensures Retrievals(RunCalls(None, databaseId, memoProperty, inputs).1) == 1
  {
    var c := inputs[0];
    var step := CreatePageStep(None, databaseId, memoProperty, c.fetched, c.now, c.content, c.created);
    ResolvedNeverRefetches(step.titleProperty, databaseId, memoProperty, inputs[1..]);
    RetrievalsAppend(step.calls, RunCalls(step.titleProperty, databaseId, memoProperty, inputs[1..]).1);
  }

  // ---------------------------------------------------------------- the client

  /** `NotionAPI`: the configured credentials and the lazily resolved title property. */
  class NotionClient {
    const apiKey: string
    const databaseId: string
    const memoPropertyName: string
    var titleProperty: Option<string>

    /** The part of `__init__` after both checks have passed. */
    constructor (credentials: Credentials)
      requires credentials.apiKey != "" && credentials.databaseId != ""
      ensures apiKey == credentials.apiKey && databaseId == credentials.databaseId
      ensures titleProperty == None && memoPropertyName == MemoProperty
    {
      apiKey := credentials.apiKey;
      databaseId := credentials.databaseId;
      titleProperty := None;
      memoPropertyName := MemoProperty;
    }

    /**
     * `create_page(title, content)`: the schema scan assigns the cache and
     * breaks at the first title-type entry, exactly as `CreatePageStep` says.
     */
    method CreatePage(title: string, content: string, fetched: Result<Database, string>, now: DateTime,
                      created: Result<PageRef, string>)
      returns (reply: Reply<PageRef>, calls: seq<Request>)
      requires now.Valid()
      modifies this
      ensures PageStep(titleProperty, reply, calls)
           == CreatePageStep(old(titleProperty), databaseId, memoPropertyName, fetched, now, content, created)
    {
      ghost var step := CreatePageStep(titleProperty, databaseId, memoPropertyName, fetched, now, content, created);
      calls := [];
      if titleProperty.None? {
        calls := calls + [RetrieveDatabase(databaseId)];
        if fetched.Err? {
          return Failure(fetched.error), calls;
        }
        var props := Schema(fetched.value);
        for i := 0 to |props|
          invariant titleProperty.None?
          invariant forall j :: 0 <= j < i ==> !IsTitle(props[j])
        {
          if props[i].kind == Some("title") {
            titleProperty := Some(props[i].name);
            assert TitleIndex(props) == i;
            break;
          }
        }
        assert titleProperty == FirstTitle(props);
        if titleProperty.None? || titleProperty.value == "" {
          return Failure(TitleNotFound), calls;
        }
        assert step == Submit(titleProperty.value, calls, databaseId, memoPropertyName, now, content, created);
      } else {
        assert step == Submit(titleProperty.value, [], databaseId, memoPropertyName, now, content, created);
      }
      var stamp := Timestamp(now);
      var payload := PagePayload(databaseId, titleProperty.value, memoPropertyName, stamp, content);
      calls := calls + [CreatePageRequest(payload)];
      reply := ToReply(created);
    }

    /**
     * `test_connection()`: one retrieve of the database; its name on success,
     * otherwise the error text, which for an untitled database is the caught
     * `IndexError`.
     */
    method TestConnection(fetched: Result<Database, string>) returns (reply: Reply<string>, calls: seq<Request>)
      ensures calls == [RetrieveDatabase(databaseId)]
      ensures reply.Success? <==> fetched.Ok? && fetched.value.title != Some([])
      ensures reply.Success? ==> reply.value == DatabaseName(fetched.value)
      ensures fetched.Err? ==> reply == Failure(fetched.error)
      ensures fetched.Ok? && fetched.value.title == Some([]) ==> reply == Failure(IndexOutOfRange)
    {
      calls := [RetrieveDatabase(databaseId)];
      var name := RetrievedName(fetched);
      match name
      case Ok(n) => reply := Success(n);
      case Err(e) => reply := Failure(e);
    }
  }

  /**
   * `NotionAPI()`: reads both variables from the environment and fails with
   * the first missing one before any client exists; otherwise a fresh client
   * with nothing resolved.
   */
  method NewClient(env: map<string, string>) returns (r: Result<NotionClient, ConfigError>)
    ensures r.Err? ==> ReadCredentials(env) == Err(r.error)
    ensures r.Ok? ==> (ReadCredentials(env).Ok? && fresh(r.value)
      && r.value.apiKey == env[ApiKeyVar] && r.value.databaseId == env[DatabaseIdVar]
      && r.value.titleProperty == None && r.value.memoPropertyName == MemoProperty)
  {
    var credentials := ReadCredentials(env);
    if credentials.Err? {
      return Err(credentials.error);
    }
    var client := new NotionClient(credentials.value);
    return Ok(client);
  }
}
