/** The Flask application (app.py): the password login of /statistics with
    its three-attempt lockout, the dashboard it renders once the session is
    authenticated, the three admin routes behind the same session check,
    and the catch-all route that serves the tracking page and tells it where
    to redirect.

    One client session and the SQLite database are the state of an App
    object. Logging, the geolocation thread, templates, the password
    generator and the schema validators are not modelled: what the routes
    learn from them arrives as parameters. */
module Server {
  import opened Utf8
  import opened JsString
  import opened HashPassword
  import opened Histogram
  import LinkGenerator

  const MaxAttempts := 3
  const LockedOutError := "Too many failed attempts you have been locked out."
  const IncorrectPasswordError := "Incorrect password."
  const FallbackRedirect := "https://localhost"

  /** The login part of the Flask session: the failed-attempt counter, which
      is absent until the first POST, and the authenticated flag, which is
      absent (and so falsy) until a successful login. */
  datatype SessionState = SessionState(attempts: Option<nat>, authenticated: bool)

  const NewSession := SessionState(None, false)

  /** A row of the links table: the generated link, where it redirects, and
      whether the tracking page should ask for the GPS position. */
  datatype Link = Link(generated: string, redirect: string, gpsEnabled: bool)

  /** What LinksSchema makes of a POST body to /generate-link: the two
      links, and the GPS flag when the loaded data has a gpsEnabled key. */
  datatype LinkBody = LinkBody(generatedLink: string, redirectUrl: string, gpsEnabled: Option<bool>)

  /** A row of the user_info table: its 46 columns in table order. */
  type Row = seq<FieldValue>

  datatype Response =
    | LoginTemplate(error: Option<string>)
    | DashboardTemplate(users: seq<UserRecord>, linkMap: seq<(string, string)>)
    | RedirectTo(location: string)
    | StatusJson(success: bool, message: string, code: nat)
    | PayloadTemplate(attemptGeolocation: bool)
    | RedirectJson(redirect: string, geolocation: Option<bool>)

  // ---------------------------------------------------------------------
  // POST /statistics: the login

  /** `session['attempts']` after `if 'attempts' not in session: ... = 0`. */
  function AttemptsSoFar(s: SessionState): nat {
    if s.attempts.Some? then s.attempts.value else 0
  }

  predicate LockedOut(s: SessionState) {
    AttemptsSoFar(s) >= MaxAttempts
  }

  /** One POST to /statistics with the submitted password (None when the
      form has no password field) against the hex SHA-256 of the generated
      password: locked out at three failures, whatever is submitted; a wrong
      password counts one more failure; the right one authenticates the
      session, clears the counter and redirects to the dashboard. */
  function Login(s: SessionState, password: Option<string>, passwordHash: string): (r: (SessionState, Response))
  {
    var attempts := AttemptsSoFar(s);
    if attempts >= MaxAttempts then
      (SessionState(Some(attempts), s.authenticated), LoginTemplate(Some(LockedOutError)))
    else if password != Some(passwordHash) then
      (SessionState(Some(attempts + 1), s.authenticated), LoginTemplate(Some(IncorrectPasswordError)))
    else
      (SessionState(None, true), RedirectTo("/statistics"))
  }

  /** A session that is locked out stays locked out: every further POST,
      even one with the right password, gets the lockout page and leaves
      the session as it was. */
  lemma LockoutIsFinal(s: SessionState, password: Option<string>, passwordHash: string)
    requires LockedOut(s)
    ensures Login(s, password, passwordHash) == (s, LoginTemplate(Some(LockedOutError)))
  {
  }

  /** The outcome of a POST: authenticated exactly by the right password
      before the lockout, and then with the counter cleared; a failure
      counts exactly one attempt; a login never takes authentication away. */
  lemma LoginOutcome(s: SessionState, password: Option<string>, passwordHash: string)
    ensures var (t, page) := Login(s, password, passwordHash);
            (page.RedirectTo? <==> !LockedOut(s) && password == Some(passwordHash)) &&
            (page.RedirectTo? ==> t == SessionState(None, true) && page.location == "/statistics") &&
            (page.LoginTemplate? && !LockedOut(s) ==>
               t == SessionState(Some(AttemptsSoFar(s) + 1), s.authenticated) &&
               page.error == Some(IncorrectPasswordError)) &&
            (s.authenticated ==> t.authenticated)
  {
  }

  /** The POSTs of one session, in order. */
  function LoginRun(s: SessionState, passwords: seq<Option<string>>, passwordHash: string): (t: SessionState)
    decreases |passwords|
  {
    if passwords == [] then s
    else LoginRun(Login(s, passwords[0], passwordHash).0, passwords[1..], passwordHash)
  }

  /** The counter never goes past three. */
  lemma {:induction false} AttemptsStayBounded(s: SessionState, passwords: seq<Option<string>>, passwordHash: string)
    requires AttemptsSoFar(s) <= MaxAttempts
    ensures AttemptsSoFar(LoginRun(s, passwords, passwordHash)) <= MaxAttempts
    decreases |passwords|
  {
    if passwords != [] {
      AttemptsStayBounded(Login(s, passwords[0], passwordHash).0, passwords[1..], passwordHash);
    }
  }

  /** Three wrong passwords in a new session lock it, and after that the
      right password no longer authenticates it. */
  lemma {:induction false} ThreeFailuresLockOut(wrong: seq<Option<string>>, later: seq<Option<string>>, passwordHash: string)
    requires |wrong| == 3
    requires forall i :: 0 <= i < 3 ==> wrong[i] != Some(passwordHash)
    ensures LockedOut(LoginRun(NewSession, wrong, passwordHash))
    ensures !LoginRun(LoginRun(NewSession, wrong, passwordHash), later, passwordHash).authenticated
  {
    var s1 := Login(NewSession, wrong[0], passwordHash).0;
    var s2 := Login(s1, wrong[1], passwordHash).0;
    var s3 := Login(s2, wrong[2], passwordHash).0;
    assert LoginRun(NewSession, wrong, passwordHash) == LoginRun(s1, wrong[1..], passwordHash);
    assert wrong[1..][0] == wrong[1] && wrong[1..][1..] == wrong[2..];
    assert LoginRun(s1, wrong[1..], passwordHash) == LoginRun(s2, wrong[2..], passwordHash);
    assert wrong[2..][0] == wrong[2] && wrong[2..][1..] == [];
    assert LoginRun(s2, wrong[2..], passwordHash) == LoginRun(s3, [], passwordHash) == s3;
    LockedRunStaysLocked(s3, later, passwordHash);
  }

  lemma {:induction false} LockedRunStaysLocked(s: SessionState, passwords: seq<Option<string>>, passwordHash: string)
    requires LockedOut(s)
    ensures LockedOut(LoginRun(s, passwords, passwordHash))
    ensures LoginRun(s, passwords, passwordHash).authenticated == s.authenticated
    decreases |passwords|
  {
    if passwords != [] {
      LockoutIsFinal(s, passwords[0], passwordHash);
      LockedRunStaysLocked(Login(s, passwords[0], passwordHash).0, passwords[1..], passwordHash);
    }
  }

  /** The characters generate_password draws from: ASCII letters, digits and
      punctuation (Python's string.ascii_letters, digits, punctuation). */
  predicate IsPasswordChar(c: char) {
    ('a' <= c <= 'z') || ('A' <= c <= 'Z') || ('0' <= c <= '9') || ('!' <= c <= '/') ||
    (':' <= c <= '@') || ('[' <= c <= '`') || ('{' <= c <= '~')
  }

  /** The hash the server compares against:
      `sha256(clients_password.encode()).hexdigest()`. */
  function ServerHash(password: string, sha256: seq<byte> -> Digest): (h: string)
    ensures |h| == 64
  {
    HexEncode(sha256(Encode(password)))
  }

  /** The bytes of an ASCII string, one character code each. */
  function AsciiBytes(s: string): (bs: seq<byte>)
    requires IsAscii(s)
    ensures |bs| == |s|
    ensures forall i :: 0 <= i < |s| ==> bs[i] as int == s[i] as int
  {
    seq(|s|, i requires 0 <= i < |s| => s[i] as int as byte)
  }

  /** A generated password is ASCII, so `.encode()` gives its character
      codes byte for byte, as TextEncoder does in the browser: the expected
      hash is the digest of those codes. (Python 3's `str.encode()` is
      always UTF-8 unless an encoding is given.) */
  lemma GeneratedPasswordEncoding(password: string, sha256: seq<byte> -> Digest)
    requires forall i :: 0 <= i < |password| ==> IsPasswordChar(password[i])
    ensures IsAscii(password)
    ensures Encode(password) == AsciiBytes(password)
    ensures ServerHash(password, sha256) == HexEncode(sha256(AsciiBytes(password)))
  {
    EncodeAscii(password);
  }

  /** The browser and the server agree: a generated password typed into the
      login form, with any white space around it, is submitted as exactly
      the hash the server expects, so, when the server reads that hidden
      input as the password, a session that is not locked out is
      authenticated by it. */
  lemma GeneratedPasswordLogsIn(s: SessionState, password: string, a: string, b: string, sha256: seq<byte> -> Digest)
    requires password != [] && forall i :: 0 <= i < |password| ==> IsPasswordChar(password[i])
    requires AllWhiteSpace(a) && AllWhiteSpace(b)
    requires !LockedOut(s)
    ensures HandlerOutcome(true, a + password + b, sha256) == Submitted(ServerHash(password, sha256))
    ensures Login(s, Some(ClientHash(a + password + b, sha256)), ServerHash(password, sha256)).0.authenticated
  {
    assert IsTrimmed(password);
    TrimPadded(a, password, b);
  }

  /** Any submitted value other than the expected hash is a failed attempt;
      since hex determines the digest, a password whose digest differs from
      the generated password's never logs in. */
  lemma OtherDigestFails(s: SessionState, typed: string, password: string, sha256: seq<byte> -> Digest)
    requires sha256(Encode(Trim(typed))) != sha256(Encode(password))
    ensures !Login(s, Some(ClientHash(typed, sha256)), ServerHash(password, sha256)).1.RedirectTo?
  {
    if ClientHash(typed, sha256) == ServerHash(password, sha256) {
      HexEncodeInjective(sha256(Encode(Trim(typed))), sha256(Encode(password)));
    }
  }

  // ---------------------------------------------------------------------
  // GET /statistics: the dashboard

  /** The keys of the dictionary built for each row, in column order: the
      columns of user_info, in three groups of at most 16. */
  const UserInfoColumns: seq<string> := LocationColumns + BrowserColumns + FingerprintColumns

  const LocationColumns: seq<string> := [
    "id", "latitude", "longitude", "city", "region", "country_code", "zip_code", "org",
    "region_name", "public_ip", "isp", "user_agent", "platform", "screen_width",
    "screen_height", "color_depth"
  ]

  const BrowserColumns: seq<string> := [
    "viewport_width", "viewport_height", "is_online", "language", "language_preferences",
    "timezone", "timezone_offset", "cookies_enabled", "do_not_track", "connection_type",
    "browser_name", "browser_version", "time_on_page", "referrer", "device_type",
    "installed_plugins"
  ]

  const FingerprintColumns: seq<string> := [
    "available_fonts", "screen_orientation", "audio_capabilities", "touch_support",
    "hardware_concurrency", "session_storage_supported", "canvas_fingerprint",
    "webgl_fingerprint", "is_dst", "features_supported", "device_memory", "battery_status",
    "effective_type", "timestamp"
  ]

  /** A dictionary display with the keys cols and the values row, read left
      to right, so that a repeated key keeps its last value. */
  function DictDisplay(cols: seq<string>, row: Row): (u: UserRecord)
    requires |cols| == |row|
    ensures forall k :: k in u <==> k in cols
    decreases |cols|
  {
    if cols == [] then map[]
    else DictDisplay(cols[..|cols| - 1], row[..|row| - 1])[cols[|cols| - 1] := row[|row| - 1]]
  }

  /** A key that does not come back later in the display holds its value. */
  lemma {:induction false} DictDisplayAt(cols: seq<string>, row: Row, i: nat)
    requires |cols| == |row| && i < |cols|
    requires cols[i] !in cols[i + 1..]
    ensures DictDisplay(cols, row)[cols[i]] == row[i]
    decreases |cols|
  {
    var n := |cols| - 1;
    if i < n {
      assert cols[..n][i + 1..] == cols[i + 1..n];
      assert cols[n] in cols[i + 1..];
      DictDisplayAt(cols[..n], row[..n], i);
    }
  }

  /** The dictionary built for one row (app.py, the loop of statistics()). */
  function RowToRecord(row: Row): (u: UserRecord)
    requires |row| == |UserInfoColumns|
    ensures forall k :: k in u <==> k in UserInfoColumns
  {
    DictDisplay(UserInfoColumns, row)
  }

  /** The six fields the dashboard charts read hold the columns platform,
      isp, device_type, browser_name, installed_plugins and time_on_page of
      the row. */
  predicate ChartFieldsFromColumns(u: UserRecord, row: Row)
    requires |row| == |UserInfoColumns|
  {
    Get(u, "platform") == row[12] && Get(u, "isp") == row[10] &&
    Get(u, "device_type") == row[30] && Get(u, "browser_name") == row[26] &&
    Get(u, PluginsField) == row[31] && Get(u, "time_on_page") == row[28]
  }

  /** The fields the dashboard charts read come from the right columns. */
  lemma RecordFields(row: Row)
    requires |row| == |UserInfoColumns|
    ensures ChartFieldsFromColumns(RowToRecord(row), row)
  {
    IspColumn(row);
    PlatformColumn(row);
    BrowserNameColumn(row);
    TimeOnPageColumn(row);
    DeviceTypeColumn(row);
    PluginsColumn(row);
  }

  lemma IspColumn(row: Row)
    requires |row| == |UserInfoColumns|
    ensures Get(RowToRecord(row), "isp") == row[10]
  {
    assert "isp" !in LocationColumns[11..] && "isp" !in BrowserColumns && "isp" !in FingerprintColumns;
    assert UserInfoColumns[11..] == LocationColumns[11..] + BrowserColumns + FingerprintColumns;
    DictDisplayAt(UserInfoColumns, row, 10);
  }

  lemma PlatformColumn(row: Row)
    requires |row| == |UserInfoColumns|
    ensures Get(RowToRecord(row), "platform") == row[12]
  {
    assert "platform" !in LocationColumns[13..] && "platform" !in BrowserColumns && "platform" !in FingerprintColumns;
    assert UserInfoColumns[13..] == LocationColumns[13..] + BrowserColumns + FingerprintColumns;
    DictDisplayAt(UserInfoColumns, row, 12);
  }

  lemma BrowserNameColumn(row: Row)
    requires |row| == |UserInfoColumns|
    ensures Get(RowToRecord(row), "browser_name") == row[26]
  {
    DictDisplayAt(UserInfoColumns, row, 26);
  }

  lemma TimeOnPageColumn(row: Row)
    requires |row| == |UserInfoColumns|
    ensures Get(RowToRecord(row), "time_on_page") == row[28]
  {
    DictDisplayAt(UserInfoColumns, row, 28);
  }

  lemma DeviceTypeColumn(row: Row)
    requires |row| == |UserInfoColumns|
    ensures Get(RowToRecord(row), "device_type") == row[30]
  {
    DictDisplayAt(UserInfoColumns, row, 30);
  }

  lemma PluginsColumn(row: Row)
    requires |row| == |UserInfoColumns|
    ensures Get(RowToRecord(row), PluginsField) == row[31]
  {
    DictDisplayAt(UserInfoColumns, row, 31);
  }

  // ---------------------------------------------------------------------
  // The database and the routes

  /** The two tables: user_info rows and links rows, in insertion order. */
  datatype Database = Database(userRows: seq<Row>, links: seq<Link>)

  /** Every user_info row has all its columns. */
  predicate WellFormedRows(rows: seq<Row>) {
    forall i :: 0 <= i < |rows| ==> |rows[i]| == |UserInfoColumns|
  }

  /** user_info_list: one dictionary per row, in row order. */
  function Records(rows: seq<Row>): (users: seq<UserRecord>)
    requires WellFormedRows(rows)
    ensures |users| == |rows|
    ensures forall i :: 0 <= i < |rows| ==> users[i] == RowToRecord(rows[i])
  {
    seq(|rows|, i requires 0 <= i < |rows| => RowToRecord(rows[i]))
  }

  /** get_all_links: (link1, link2) of every row, in row order. */
  function LinkPairs(links: seq<Link>): (pairs: seq<(string, string)>)
    ensures |pairs| == |links|
    ensures forall i :: 0 <= i < |links| ==> pairs[i] == (links[i].generated, links[i].redirect)
  {
    seq(|links|, i requires 0 <= i < |links| => (links[i].generated, links[i].redirect))
  }

  /** list.reverse(). */
  function Reverse<T>(s: seq<T>): (r: seq<T>)
    ensures |r| == |s|
    ensures forall i :: 0 <= i < |s| ==> r[i] == s[|s| - 1 - i]
  {
    if s == [] then [] else Reverse(s[1..]) + [s[0]]
  }

  /** GET /statistics: the dashboard with every user record and the links
      newest first, but only for an authenticated session; the login page
      otherwise. */
  function StatisticsPage(s: SessionState, db: Database): Response
    requires WellFormedRows(db.userRows)
  {
    if s.authenticated then DashboardTemplate(Records(db.userRows), Reverse(LinkPairs(db.links)))
    else LoginTemplate(None)
  }

  /** The dashboard is shown exactly to an authenticated session; it lists
      every link, the newest first, and one record per row, in row order,
      whose chart fields are the right columns of that row. */
  lemma StatisticsPageShown(s: SessionState, db: Database)
    requires WellFormedRows(db.userRows)
    ensures StatisticsPage(s, db).DashboardTemplate? <==> s.authenticated
    ensures StatisticsPage(s, db).DashboardTemplate? ==>
              var page := StatisticsPage(s, db);
              var n := |db.links|;
              |page.linkMap| == n &&
              (forall i :: 0 <= i < n ==> page.linkMap[i] == (db.links[n - 1 - i].generated, db.links[n - 1 - i].redirect)) &&
              page.users == Records(db.userRows) &&
              |page.users| == |db.userRows| &&
              (forall i :: 0 <= i < |db.userRows| ==> ChartFieldsFromColumns(page.users[i], db.userRows[i]))
  {
    forall i | 0 <= i < |db.userRows| ensures ChartFieldsFromColumns(RowToRecord(db.userRows[i]), db.userRows[i])
    {
      RecordFields(db.userRows[i]);
    }
  }

  const Unauthorized := StatusJson(false, "Unauthorized access", 403)

  /** POST /clear-database: both tables emptied for an authenticated session;
      a database error leaves them as they were (the transaction is not
      committed). */
  function ClearDatabase(s: SessionState, db: Database, dbFails: bool): (Response, Database) {
    if !s.authenticated then (Unauthorized, db)
    else if dbFails then (StatusJson(false, "Unexpected error.", 500), db)
    else (StatusJson(true, "Database cleared.", 200), Database([], []))
  }

  /** `DELETE FROM links WHERE link1 = ?`: every other link, in order. */
  function RemoveLinks(links: seq<Link>, url: string): (r: seq<Link>)
    ensures forall l :: l in r <==> l in links && l.generated != url
    ensures |r| <= |links|
  {
    if links == [] then []
    else (if links[0].generated == url then [] else [links[0]]) + RemoveLinks(links[1..], url)
  }

  /** POST /delete-link with the JSON field custom_link (None when it is
      missing or null): refused without authentication, refused as a bad
      request when the link is empty, otherwise every link row with that
      generated link is deleted. */
  function DeleteLink(s: SessionState, db: Database, customLink: Option<string>, dbFails: bool): (Response, Database) {
    if !s.authenticated then (Unauthorized, db)
    else if customLink.None? || customLink.value == "" then (StatusJson(false, "No link specified.", 400), db)
    else if dbFails then (StatusJson(false, "Unexpected error", 500), db)
    else (StatusJson(true, "Link successfully removed from the database.", 200),
          db.(links := RemoveLinks(db.links, customLink.value)))
  }

  /** POST /generate-link with what LinksSchema made of the JSON body (None
      when it rejected it): refused without authentication, a bad request
      when the schema fails, 401 when the loaded data has no gpsEnabled key
      (the lookup raises inside the same try as the insert) or the insert
      fails, otherwise the link is added as the newest row. */
  function GenerateLink(s: SessionState, db: Database, validated: Option<LinkBody>, dbFails: bool): (Response, Database) {
    if !s.authenticated then (Unauthorized, db)
    else if validated.None? then (StatusJson(false, "Incorrect schema", 400), db)
    else if validated.value.gpsEnabled.None? || dbFails then (StatusJson(false, "Unexpected error", 401), db)
    else
      var body := validated.value;
      (StatusJson(true, "Links successfully inserted into database", 200),
       db.(links := db.links + [Link(body.generatedLink, body.redirectUrl, body.gpsEnabled.value)]))
  }

  /** A link is stored exactly when an authenticated request carries a body
      the schema accepts, with a GPS flag, and the insert works; the new row
      holds the body's three values and comes last; in every other case the
      database is unchanged. */
  lemma GenerateLinkOutcome(s: SessionState, db: Database, validated: Option<LinkBody>, dbFails: bool)
    ensures var (resp, db') := GenerateLink(s, db, validated, dbFails);
            (resp.code == 200 <==> s.authenticated && validated.Some? && validated.value.gpsEnabled.Some? && !dbFails) &&
            (resp.code == 200 ==>
               db'.userRows == db.userRows &&
               db'.links == db.links + [Link(validated.value.generatedLink, validated.value.redirectUrl,
                                             validated.value.gpsEnabled.value)]) &&
            (resp.code != 200 ==> db' == db)
  {
  }

  /** The dashboard's button posts only generatedLink and redirectUrl; when
      the schema passes that body on without a gpsEnabled key, the route
      answers 401 and stores nothing. */
  lemma ButtonBodyWithoutGpsFlag(s: SessionState, db: Database, origin: string, route: string, extension: string,
                                 typedRedirect: string)
    requires s.authenticated
    requires LinkGenerator.GenerateClick(origin, route, extension, typedRedirect).Generated?
    ensures var click := LinkGenerator.GenerateClick(origin, route, extension, typedRedirect);
            GenerateLink(s, db, Some(LinkBody(click.link, click.redirectUrl, None)), false) ==
              (StatusJson(false, "Unexpected error", 401), db)
  {
  }

  /** The three admin routes answer 403 and change nothing exactly when the
      session is not authenticated. */
  lemma AdminRoutesNeedLogin(s: SessionState, db: Database, customLink: Option<string>, validated: Option<LinkBody>, dbFails: bool)
    ensures ClearDatabase(s, db, dbFails).0.StatusJson? && ClearDatabase(s, db, dbFails).0.code == 403 <==> !s.authenticated
    ensures DeleteLink(s, db, customLink, dbFails).0.StatusJson? && DeleteLink(s, db, customLink, dbFails).0.code == 403 <==> !s.authenticated
    ensures GenerateLink(s, db, validated, dbFails).0.StatusJson? && GenerateLink(s, db, validated, dbFails).0.code == 403 <==> !s.authenticated
    ensures !s.authenticated ==>
              ClearDatabase(s, db, dbFails).1 == db && DeleteLink(s, db, customLink, dbFails).1 == db &&
              GenerateLink(s, db, validated, dbFails).1 == db
  {
  }

  /** A route that fails changes nothing; clearing empties both tables. */
  lemma ClearDatabaseOutcome(s: SessionState, db: Database, dbFails: bool)
    ensures var (resp, db') := ClearDatabase(s, db, dbFails);
            (resp.code == 200 <==> s.authenticated && !dbFails) &&
            (resp.code == 200 ==> db' == Database([], [])) &&
            (resp.code != 200 ==> db' == db)
  {
  }

  /** The first link row whose generated link is the URL, which is what the
      catch-all route looks up. */
  function FindLink(links: seq<Link>, url: string): (r: Option<Link>)
    ensures r.Some? ==> r.value in links && r.value.generated == url
    ensures r.None? <==> forall i :: 0 <= i < |links| ==> links[i].generated != url
  {
    if links == [] then None
    else if links[0].generated == url then Some(links[0])
    else FindLink(links[1..], url)
  }

  /** A successful delete leaves no row for the link, keeps every other row
      and the user records, and is refused as a bad request exactly when no
      link is given. */
  lemma DeleteLinkOutcome(s: SessionState, db: Database, customLink: Option<string>, dbFails: bool)
    requires s.authenticated
    ensures var (resp, db') := DeleteLink(s, db, customLink, dbFails);
            (resp.code == 400 <==> customLink.None? || customLink.value == "") &&
            (resp.code == 200 ==>
               FindLink(db'.links, customLink.value).None? && db'.userRows == db.userRows &&
               forall l :: l in db.links && l.generated != customLink.value ==> l in db'.links) &&
            (resp.code != 200 ==> db' == db)
  {
  }

  /** After a successful insert the URL of the new link resolves: to the new
      row when no older row has that URL, otherwise still to the older one. */
  lemma GenerateLinkThenFind(s: SessionState, db: Database, link: Link)
    requires s.authenticated
    ensures var (resp, db') := GenerateLink(s, db, Some(LinkBody(link.generated, link.redirect, Some(link.gpsEnabled))), false);
            resp.code == 200 &&
            FindLink(db'.links, link.generated) ==
              (if FindLink(db.links, link.generated).Some? then FindLink(db.links, link.generated) else Some(link))
  {
    FindLinkAppend(db.links, link, link.generated);
  }

  lemma {:induction false} FindLinkAppend(links: seq<Link>, link: Link, url: string)
    ensures FindLink(links + [link], url) ==
              if FindLink(links, url).Some? then FindLink(links, url)
              else if link.generated == url then Some(link) else None
    decreases |links|
  {
    if links != [] {
      assert (links + [link])[1..] == links[1..] + [link];
      FindLinkAppend(links[1..], link, url);
    }
  }

  /** GET on any other path: the tracking page, asking for the GPS position
      only when the URL is a generated link with GPS enabled. */
  function UserInfoGet(db: Database, url: string): Response {
    var found := FindLink(db.links, url);
    if found.Some? then PayloadTemplate(found.value.gpsEnabled) else PayloadTemplate(false)
  }

  /** POST on any other path, with whether UserInfoSchema accepted the
      body: a bad request if it did not; otherwise the redirect of the
      first link with this URL, or https://localhost when there is none. */
  function UserInfoPost(db: Database, url: string, schemaOk: bool): Response {
    var found := FindLink(db.links, url);
    if !schemaOk then StatusJson(false, "Incorrect schema", 400)
    else if found.Some? then RedirectJson(found.value.redirect, Some(found.value.gpsEnabled))
    else RedirectJson(FallbackRedirect, None)
  }

  /** The tracking page is sent on to the redirect URL its link was created
      with, and anywhere else to https://localhost. */
  lemma UserInfoRedirect(db: Database, url: string)
    ensures UserInfoPost(db, url, true).RedirectJson?
    ensures (exists i :: 0 <= i < |db.links| && db.links[i].generated == url) ==>
              UserInfoPost(db, url, true).redirect in
                set l | l in db.links && l.generated == url :: l.redirect
    ensures (forall i :: 0 <= i < |db.links| ==> db.links[i].generated != url) ==>
              UserInfoPost(db, url, true) == RedirectJson(FallbackRedirect, None)
    ensures UserInfoGet(db, url).attemptGeolocation <==> FindLink(db.links, url).Some? && FindLink(db.links, url).value.gpsEnabled
    ensures UserInfoPost(db, url, false) == StatusJson(false, "Incorrect schema", 400)
  {
  }

  /** The whole tracking-link flow: when the dashboard's generate button
      posts a link that is new, and the schema accepts the body and supplies
      a GPS flag, a visitor whose request URL is exactly that link string
      is redirected to the trimmed redirect URL that was typed. */
  lemma GeneratedLinkRedirects(s: SessionState, db: Database, origin: string, route: string, extension: string,
                               typedRedirect: string, gps: bool)
    requires s.authenticated
    requires LinkGenerator.GenerateClick(origin, route, extension, typedRedirect).Generated?
    requires FindLink(db.links, LinkGenerator.GenerateClick(origin, route, extension, typedRedirect).link).None?
    ensures var click := LinkGenerator.GenerateClick(origin, route, extension, typedRedirect);
            var db' := GenerateLink(s, db, Some(LinkBody(click.link, click.redirectUrl, Some(gps))), false).1;
            UserInfoPost(db', click.link, true) == RedirectJson(Trim(typedRedirect), Some(gps))
  {
    var click := LinkGenerator.GenerateClick(origin, route, extension, typedRedirect);
    FindLinkAppend(db.links, Link(click.link, click.redirectUrl, gps), click.link);
  }

  // ---------------------------------------------------------------------
  // The application object

  /** One client's session and the database, as the route handlers see them. */
  class App {
    var session: SessionState
    var db: Database

    constructor (rows: seq<Row>, links: seq<Link>)
      ensures session == NewSession && db == Database(rows, links)
    {
      session := NewSession;
      db := Database(rows, links);
    }

    /** statistics() on POST. */
    method PostStatistics(password: Option<string>, passwordHash: string) returns (resp: Response)
      modifies this
      ensures (session, resp) == Login(old(session), password, passwordHash)
      ensures db == old(db)
    {
      var attempts := session.attempts;
      if attempts.None? {
        attempts := Some(0);
        session := session.(attempts := attempts);
      }
      if attempts.value >= MaxAttempts {
        return LoginTemplate(Some(LockedOutError));
      }
      if password != Some(passwordHash) {
        session := session.(attempts := Some(attempts.value + 1));
        return LoginTemplate(Some(IncorrectPasswordError));
      }
      session := session.(authenticated := true);
      session := session.(attempts := None);
      return RedirectTo("/statistics");
    }

    /** statistics() on GET: the dictionaries are built one row at a time. */
    method GetStatistics() returns (resp: Response)
      requires WellFormedRows(db.userRows)
      ensures resp == StatisticsPage(session, db)
      ensures resp.DashboardTemplate? <==> session.authenticated
    {
      if !session.authenticated {
        return LoginTemplate(None);
      }
      var linkMap := LinkPairs(db.links);
      if linkMap != [] {
        linkMap := Reverse(linkMap);
      }
      var rows := db.userRows;
      var userInfoList: seq<UserRecord> := [];
      var i := 0;
      while i < |rows|
        invariant 0 <= i <= |rows|
        invariant |userInfoList| == i
        invariant forall j :: 0 <= j < i ==> userInfoList[j] == RowToRecord(rows[j])
      {
        userInfoList := userInfoList + [RowToRecord(rows[i])];
        i := i + 1;
      }
      return DashboardTemplate(userInfoList, linkMap);
    }

    /** clear_database(). */
    method ClearDatabaseRoute(dbFails: bool) returns (resp: Response)
      modifies this
      ensures (resp, db) == ClearDatabase(old(session), old(db), dbFails)
      ensures session == old(session)
    {
      if !session.authenticated {
        return Unauthorized;
      }
      if dbFails {
        return StatusJson(false, "Unexpected error.", 500);
      }
      db := db.(userRows := []);
      db := db.(links := []);
      return StatusJson(true, "Database cleared.", 200);
    }

    /** delete_link(). */
    method DeleteLinkRoute(customLink: Option<string>, dbFails: bool) returns (resp: Response)
      modifies this
      ensures (resp, db) == DeleteLink(old(session), old(db), customLink, dbFails)
      ensures session == old(session)
    {
      if !session.authenticated {
        return Unauthorized;
      }
      if customLink.None? || customLink.value == "" {
        return StatusJson(false, "No link specified.", 400);
      }
      if dbFails {
        return StatusJson(false, "Unexpected error", 500);
      }
      db := db.(links := RemoveLinks(db.links, customLink.value));
      return StatusJson(true, "Link successfully removed from the database.", 200);
    }

    /** generate_link(). */
    method GenerateLinkRoute(validated: Option<LinkBody>, dbFails: bool) returns (resp: Response)
      modifies this
      ensures (resp, db) == GenerateLink(old(session), old(db), validated, dbFails)
      ensures session == old(session)
    {
      if !session.authenticated {
        return Unauthorized;
      }
      if validated.None? {
        return StatusJson(false, "Incorrect schema", 400);
      }
      var body := validated.value;
      if body.gpsEnabled.None? || dbFails {
        return StatusJson(false, "Unexpected error", 401);
      }
      db := db.(links := db.links + [Link(body.generatedLink, body.redirectUrl, body.gpsEnabled.value)]);
      return StatusJson(true, "Links successfully inserted into database", 200);
    }
  }
}
