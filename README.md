# Tracking-link dashboard: a verified model in Dafny

The application is a small Flask server with three browser scripts. It
hands out tracking links. A visitor who opens one loads a page that reports
browser and device details and is then sent on to the link's redirect URL.
The operator logs in with a generated password and then sees a dashboard
that charts what was collected.

This project models the logic in that system:

- **Dashboard counting** (`histogram.dfy`, module `Histogram`):
  - `aggregateData` counts the truthy values of one field;
  - `aggregateInstalledPlugins` splits every plugin string on commas, trims each piece and counts it.

  Both are loops that update a counting object, and both are proved equal to a fold (`Counts`) whose meaning is proved separately: its keys, its counts as multiplicities, and its total.
- **Dashboard charts** (`charts.dfy`, module `Charts`):
  - the chart versus "No data available" choice of `createChart`;
  - the five configured histograms;
  - the time-on-page line chart, labelled 1..n.
- **Link generation** (`link_generator.dfy`, module `LinkGenerator`): the generate-url click handler.
  - The route defaults to `/readme`, gets one leading slash and an optional extension.
  - A redirect URL that is blank after trimming is refused with an alert.
  - Otherwise the link is shown and posted with the trimmed redirect URL.
  - The page is a class whose method records alerts, display and requests.
- **String primitives** (`js_string.dfy`, module `JsString`): ECMAScript `trim` (its exact white-space set), `split` on one character, and `join`, with their round trips.
- **Password submission** (`utf8.dfy` and `hash_password.dfy`, modules `Utf8` and `HashPassword`):
  - the UTF-8 encoding of RFC 3629, with its decoder and round trip;
  - lower-case hex (`toString(16).padStart(2, '0')`, the same form as Python's `hexdigest()`), with its decoder and round trip;
  - the submit handler: a class whose method records preventDefault, alerts, the appended hidden input, the log line and the submit.

  SHA-256 is a parameter: a function from bytes to 32 bytes.
- **Server** (`server.dfy`, module `Server`):
  - the login of `/statistics`: the attempt counter, the lockout at three failures, and a success that authenticates the session and clears the counter;
  - the dashboard GET, which builds one dictionary per database row in a loop;
  - the authentication guard and input checks of `/clear-database`, `/delete-link` and `/generate-link`;
  - the catch-all route's choice of redirect.

  One session and the database are the fields of a class `App`, whose route methods are proved against pure functions. Lemmas connect the two sides:
  - a generated password typed with any surrounding white space is submitted as exactly the hash the server expects, and logs in when the server reads the hidden input's value;
  - when LinksSchema accepts the dashboard's post and supplies a GPS flag, a visitor whose request URL is exactly the generated link is redirected to the trimmed URL that was typed.

## Model

| member | source | states |
|---|---|---|
| Histogram.AggregateData | static/js/statistics.js:63-71 | the loop's map equals the fold Counts over the truthy values' property keys; a key is present iff some record carries it; each count is the number of such records |
| Histogram.AggregateDataCounts | static/js/statistics.js:63-71 | the keys are exactly the property keys of truthy values; each count is the number of records with that key; "" is never a key; the counts add up to the number of records whose field is truthy |
| Histogram.CountsAreMultiplicities | static/js/statistics.js:67 | counting with `(acc[k] \|\| 0) + 1` gives each key its multiplicity in the key sequence, and only keys that occur |
| Histogram.TotalCounts | static/js/statistics.js:67 | every counting step adds exactly one to the sum of the counts |
| Histogram.TruthyKeyNonEmpty | static/js/statistics.js:65-67 | a truthy value never has "" as its key |
| Histogram.PropertyKey | static/js/statistics.js:67 | a number is keyed by its decimal form, which starts with '-' exactly for negatives |
| Histogram.NatToDecimal | static/js/statistics.js:67 | a decimal form is non-empty, all digits, with no leading zero |
| Histogram.CountPieces | static/js/statistics.js:100-103 | the forEach over one record's pieces adds the trimmed pieces, in order, to the counts it starts from |
| Histogram.AggregateInstalledPlugins | static/js/statistics.js:96-107 | the loop's map equals Counts of all trimmed tokens in record order; its keys are exactly the tokens; each count is the token's number of occurrences |
| Histogram.PluginCounts | static/js/statistics.js:96-107 | the plugin counts are multiplicities of the token sequence and add up to its length |
| Histogram.FalsyPluginsContributeNothing | static/js/statistics.js:99 | a record whose plugin string is empty or missing leaves the counts unchanged |
| Histogram.PluginTokensEmptyIff | static/js/statistics.js:99-100 | there are no tokens exactly when no record has a non-empty plugin string |
| Histogram.TrimAllAt | static/js/statistics.js:100-101 | the i-th token is the i-th comma-separated piece, trimmed |
| Histogram.PluginListRoundTrip | static/js/statistics.js:100-101 | names without commas or surrounding white space, joined with ", " as app.py:107 stores them, split and trim back to the same list in order |
| Histogram.TokensOfJoin | static/js/statistics.js:100-101 | the same round trip with white space in front of the joined list |
| Histogram.PluginExample | static/js/statistics.js:96-107 | records "A, B" and "B" count A once and B twice |
| Histogram.TrailingCommaCounted | static/js/statistics.js:100-102 | a trailing comma yields an empty-string token, which is counted like any other |
| Histogram.RepeatedNameCounted | static/js/statistics.js:100-102 | a name repeated within one record counts twice |
| Charts.CreateChart | static/js/statistics.js:29-52 | a chart with the given kind, labels, data and title exactly when the data is non-empty, the placeholder otherwise |
| Charts.KeysOf | static/js/statistics.js:86 | Object.keys lists every key of the counts exactly once |
| Charts.SumCountsAt | static/js/statistics.js:86 | listing every key once, in any order, the values add up to the total of the counts |
| Charts.HistogramChartShape | static/js/statistics.js:83-87 | a histogram chart is the placeholder iff nothing was counted; otherwise each label is a counted key, each bar is that key's count, and the bars add up to the total |
| Charts.InitCharts | static/js/statistics.js:74-93 | one drawing per configured canvas, in configuration order |
| Charts.FieldChartEmptyIff | static/js/statistics.js:75-86 | a field chart shows the placeholder exactly when no record has a truthy value of its field |
| Charts.PluginChartEmptyIff | static/js/statistics.js:80-86 | the plugin chart shows the placeholder exactly when no record has a non-empty plugin string |
| Charts.ChartBarsAddUp | static/js/statistics.js:83-87 | a field chart's bars add up to the number of records with a truthy value; the plugin chart's bars add up to the number of tokens |
| Charts.TimeOnPageChart | static/js/statistics.js:89-92 | a line chart titled "Time on Page Distribution" whose labels are 1..n and whose data are the records' time on page in order, or the placeholder exactly when there are no records |
| Charts.NoRecordsNoCharts | static/js/statistics.js:74-93 | with no records every canvas shows the placeholder, the time-on-page chart included |
| LinkGenerator.RouteOrDefault | static/js/statistics.js:118 | an empty route becomes "/readme"; any other route is kept |
| LinkGenerator.FormatRoute | static/js/statistics.js:129 | the result starts with a slash, and is the route or the route with one slash in front |
| LinkGenerator.FormatRouteFixedPoints | static/js/statistics.js:129 | formatting keeps a route exactly when it starts with a slash, and formatting is idempotent |
| LinkGenerator.BuildLinkShape | static/js/statistics.js:117-134 | the link is the origin, one slash, the route without its leading slash, then the extension |
| LinkGenerator.DefaultRouteLink | static/js/statistics.js:118-134 | an empty route gives origin + "/readme" + extension |
| LinkGenerator.LinkExamples | static/js/statistics.js:117-134 | "https://h", "x", ".html" gives "https://h/x.html"; an empty extension adds nothing |
| LinkGenerator.LeadingSlashOptional | static/js/statistics.js:129 | a route typed with or without its leading slash gives the same link |
| LinkGenerator.GenerateClickValidation | static/js/statistics.js:120-145 | the click is refused exactly when the redirect field is all white space; the posted redirect URL is non-empty and trimmed; white space around it changes nothing |
| LinkGenerator.LinkForm.OnGenerateClick | static/js/statistics.js:116-145 | a refused click adds exactly one alert and changes nothing else; an accepted one shows the link and appends one request carrying the link and the trimmed redirect URL, with no alert |
| JsString.TrimPadded | static/js/statistics.js:101 | trimming a trimmed string with any white space around it gives that string back |
| JsString.TrimEmptyIff | static/js/hashPassword.js:12-15 | a string trims to "" exactly when it is all white space |
| JsString.TrimIsTrimmed | static/js/hashPassword.js:12 | trim leaves no white space at either end |
| JsString.TrimIdempotent | static/js/statistics.js:120 | trimming twice is trimming once |
| JsString.TrimDecomposes | static/js/hashPassword.js:12 | every string is its trimmed core with white space before and after |
| JsString.Split | static/js/statistics.js:100 | at least one piece, and no piece holds the separator |
| JsString.JoinSplit | static/js/statistics.js:100 | joining the pieces with the separator gives the string back |
| JsString.SplitJoin | static/js/statistics.js:100 | splitting pieces joined with a separator they do not hold gives the pieces back, empty ones included |
| Utf8.EncodeChar | static/js/hashPassword.js:21-22 | one to four bytes by code-point range, with a lead byte of the right form and continuation bytes after it (section 3 of RFC 3629) |
| Utf8.DecodeEncode | static/js/hashPassword.js:21-22 | decoding the encoding of any string gives the string back |
| Utf8.EncodeInjective | static/js/hashPassword.js:21-23 | different passwords give different digest inputs |
| Utf8.EncodeAscii | app.py:422 | an ASCII string, as the generated password is, encodes to its own character codes |
| Utf8.DecodeRejects | static/js/hashPassword.js:21-22 | overlong forms, surrogates, stray and missing continuation bytes are not UTF-8 |
| HashPassword.ByteToHex | static/js/hashPassword.js:25 | each byte gives exactly two lower-case hex digits |
| HashPassword.ByteToHexIsPaddedRadix | static/js/hashPassword.js:25 | `toString(16).padStart(2, '0')` is the high nibble's digit followed by the low nibble's |
| HashPassword.HexEncode | static/js/hashPassword.js:24-25 | the hex form is twice as long as the bytes |
| HashPassword.HexEncodeDigits | static/js/hashPassword.js:25 | the hex form holds lower-case hex digits only |
| HashPassword.HexDecodeEncode | static/js/hashPassword.js:25 | decoding the hex form gives the bytes back |
| HashPassword.HexEncodeDecode | static/js/hashPassword.js:25 | every even-length lower-case hex string is the hex form of what it decodes to |
| HashPassword.HexEncodeInjective | static/js/hashPassword.js:25 | different digests give different hex strings |
| HashPassword.HexExamples | static/js/hashPassword.js:25 | 0x0A gives "0a", 0xFF gives "ff", and [0x00, 0x10] gives "0010" |
| HashPassword.HandlerOutcomeCases | static/js/hashPassword.js:5-25 | the handler submits exactly when the Crypto API is there and the password is not blank; what it submits is 64 lower-case hex digits that decode to the digest of the trimmed password's UTF-8 bytes |
| HashPassword.HandlerIgnoresSurroundingSpace | static/js/hashPassword.js:12-23 | white space typed around the password does not change what is submitted |
| HashPassword.HandlerEffectsOrder | static/js/hashPassword.js:2-39 | the default submission is always stopped first; an abort gives exactly one alert and no submit; success submits exactly once, as the last step, after the hidden "password" input with the hash is appended |
| HashPassword.LoginPage.OnSubmit | static/js/hashPassword.js:1-40 | the recorded effects are exactly those of the decision; the form gains exactly one input ("password", hash) on success and none otherwise, and the existing inputs are kept |
| Server.LockoutIsFinal | app.py:157-159 | at three failures every POST, whatever the password, gets the lockout page and leaves the session as it was |
| Server.LoginOutcome | app.py:152-172 | authenticated exactly by the right password before the lockout, then with the counter cleared and a redirect to /statistics; a failure counts exactly one attempt and keeps the flag; no login removes authentication |
| Server.AttemptsStayBounded | app.py:154-166 | over any run of POSTs the counter stays at most 3 |
| Server.ThreeFailuresLockOut | app.py:154-166 | three wrong passwords lock a new session, and no later POST authenticates it |
| Server.LockedRunStaysLocked | app.py:157-159 | a locked session stays locked with its flag unchanged over any run of POSTs |
| Server.ServerHash | app.py:422 | the expected hash is 64 characters long |
| Server.AsciiBytes | app.py:422 | the bytes of an ASCII string are its character codes, one per character |
| Server.GeneratedPasswordEncoding | app.py:422 | a generated password is ASCII, its `.encode()` is its character codes byte for byte, and the expected hash is the hex digest of those codes |
| Server.GeneratedPasswordLogsIn | app.py:162-172 | a generated password typed with any white space around it is submitted as exactly the hash the server computes at startup (app.py line 422), and, when the server reads the hidden input's value as the password, authenticates a session that is not locked out |
| Server.OtherDigestFails | app.py:162-166 | a password whose digest differs from the generated one's never logs in |
| Server.DictDisplayAt | app.py:188-235 | a key that does not come back later in the dictionary display holds its column's value |
| Server.RecordFields | app.py:188-235 | the six fields the charts read (platform, isp, device_type, browser_name, installed_plugins, time_on_page) come from columns 12, 10, 30, 26, 31 and 28 of the row |
| Server.Records | app.py:186-235 | one dictionary per row, in row order |
| Server.Reverse | app.py:176-178 | the links list is reversed: element i is the one at n-1-i |
| Server.StatisticsPageShown | app.py:175-240 | the dashboard is rendered exactly for an authenticated session; it lists the links newest first and one record per row (exactly Records of the rows), and each record's six chart fields are columns 12, 10, 30, 26, 31 and 28 of its row |
| Server.App.GetStatistics | app.py:174-240 | the loop's result is the dashboard page of the session and database, and is the dashboard exactly when the session is authenticated |
| Server.App.PostStatistics | app.py:152-172 | the session and the response are those of Login; the database is untouched |
| Server.AdminRoutesNeedLogin | app.py:244-297 | the three admin routes answer 403 exactly when the session is not authenticated, and then change no data |
| Server.ClearDatabaseOutcome | app.py:243-261 | success, exactly when authenticated and the database works, empties both tables; any other answer changes nothing |
| Server.RemoveLinks | app.py:282 | the remaining links are exactly those whose generated link differs |
| Server.DeleteLinkOutcome | app.py:264-289 | a missing or empty custom_link is a 400; a successful delete leaves no row for the link, keeps every other link and all user rows; any other answer changes nothing |
| Server.FindLink | app.py:322 | the link found has the URL and is stored; none is found exactly when no row has the URL |
| Server.GenerateLinkOutcome | app.py:292-314 | a link is stored exactly when the session is authenticated, the schema accepts the body, the loaded data has a GPS flag and the insert works; the new row holds the body's three values and comes last; otherwise nothing changes |
| Server.ButtonBodyWithoutGpsFlag | app.py:305-314 | a body holding only the generated link and the redirect URL, as the dashboard button posts it, gets a 401 and stores nothing when the schema adds no GPS flag |
| Server.GenerateLinkThenFind | app.py:292-310 | after an insert the URL resolves to the new row, or to the older row with the same URL when there is one |
| Server.UserInfoRedirect | app.py:317-355 | a POST accepted by the schema redirects to the redirect of a row with the URL, or to https://localhost when there is none; the GET asks for GPS exactly when the link found has it enabled; a POST the schema refuses gets "Incorrect schema" with a 400 |
| Server.GeneratedLinkRedirects | app.py:292-355 | when LinksSchema accepts the body and supplies a GPS flag, a visitor whose request URL is exactly the new link posted by the generate button is redirected to the trimmed redirect URL that was typed |
| Server.App.ClearDatabaseRoute | app.py:243-261 | response and database are those of ClearDatabase; the session is untouched |
| Server.App.DeleteLinkRoute | app.py:264-289 | response and database are those of DeleteLink; the session is untouched |
| Server.App.GenerateLinkRoute | app.py:292-314 | response and database are those of GenerateLink, including the 401 for a body without a GPS flag; the session is untouched |

## Left out

- The Leaflet map, the marker popups, the Chart.js options, the canvas drawing of the placeholder text and the copy-to-clipboard button. They are display code with no decisions in them.
- The promise handling of the POST to /generate-link. Its only outcome is a console error, so the model records the request and stops there.
- Charts.KeysOf: the order of Object.keys is not modelled. In JavaScript it is insertion order with integer-like keys first; the model accepts any order that lists each key once.
- Histogram.AggregateData and Histogram.AggregateInstalledPlugins model the counting object as a map. Keys that name members of Object.prototype are not modelled. For example, "constructor" reads as an inherited function before the first count, and "__proto__" cannot be set as a key.
- Histogram.AggregateInstalledPlugins requires the plugin field to be text (or missing) in every record. The script calls `.split` on any truthy value, which throws for a number. The database column is TEXT NOT NULL.
- Field values are text, integers or null. REAL columns (latitude, time_on_page, device_memory) are not modelled as floating point.
- Utf8.Encode works on Unicode scalar values. A JavaScript string can hold a lone surrogate, which TextEncoder replaces with U+FFFD; that case is not modelled.
- SHA-256 is a parameter of type bytes to 32 bytes. The awaited digest call is modelled as a synchronous call.
- HashPassword.LoginPage.OnSubmit does not model which "password" field the browser submits first. The visible password input may precede the hidden one, and login.html is not part of this model.
- Server.GeneratedPasswordLogsIn assumes that `request.form.get('password')` returns the hidden input's hash, that is, that the hidden input is the first "password" field the browser submits. login.html is not part of this model, so that order is not established.
- The session is one client's Flask session. A real Flask session lives in a signed cookie that the client can drop, which would also drop the attempt counter; that is not modelled.
- Database errors are a boolean parameter, and the schema validators (UserInfoSchema, LinksSchema) become their outcome. A rejected body is a None body or a false flag; a body LinksSchema accepts carries its GPS flag only when the loaded data has one. The model assumes an accepted body always carries generatedLink and redirectUrl; if LinksSchema let one of them be missing, app.py would raise a KeyError and answer 401, as it does for a missing GPS flag.
- get_link_by_url is not part of this model. Server.FindLink takes the first row whose generated link is the URL.
- The insert_link shown in src/DatabaseSchema.py takes two link columns, but app.py passes three. The model follows the call in app.py, storing the generated link, the redirect and the GPS flag.
- A request whose JSON body is missing or not an object is not modelled. Past the authentication guard such a body ends in a 500 (`data.get` in delete_link, the timestamp assignment in user_info) and changes no data.
- Server.GeneratedLinkRedirects assumes that LinksSchema supplies a gpsEnabled value for the body the dashboard button posts, which holds only generatedLink and redirectUrl. LinksSchema is not part of this model, so whether it sets a default is unknown. Without one, app.py reads a missing key and answers 401 without storing the link; Server.ButtonBodyWithoutGpsFlag states that outcome.
- Server.GeneratedLinkRedirects also assumes that the visitor's `request.url` is exactly the generated link string. Flask rebuilds that URL from the request: the path is percent-encoded, the fragment is dropped, and the scheme is the one the server sees. The script stores the typed route unencoded, so a route such as "my page" is stored as "https://h/my page" but looked up as "https://h/my%20page", and that visitor is sent to https://localhost. URL normalisation is not modelled.
- process_client_info (the geolocation lookups and the insert of a new row, run on a thread), generate_password, logging, certificate generation, argument parsing and the Cloudflare tunnel are left out: network, randomness, processes and threads.
- static/js/confirmDatabaseClear.js is left out: one confirm dialog and one fetch, with no logic beyond the response status.
