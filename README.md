# ai-web-scraper: a verified model of its rules

This project models the rules that sit under the plumbing of the ai-web-scraper
repository, a Flask app that schedules scraping tasks and scrapes pages:

- **Server (app.py).** `add_task` and the POST branch of `edit_task` check for
  empty fields and prefix the URL with `https://`. `delete_task` answers with a
  JSON success flag. The database writes are represented by the decision the
  route takes just before them: an insert, an update, or a refusal.
- **Scraper (scraper_engine.py).** After the page is fetched and parsed, the
  engine post-processes it:
  - the title falls back from `<title>` to the first `<h1>`, then to nothing;
  - the main content comes from the first matching container, has its
    whitespace collapsed, and is capped at 10000 characters;
  - the extracted links, images, tables and meta tags are capped and filtered;
  - the result record is shaped as a success or an error, and from it the two
    stored rows are built.

  The parsed page is an abstract value (`Scraper.Page`) holding the sequences of
  elements the engine reads. The HTTP outcome is an input (`Scraper.Fetch`).
- **Dashboard client (static/js/script.js).**
  - The creation form's submit guard and URL blur rule.
  - `truncateText`.
  - The active/inactive toggle and its `aiScraperStatus` flag in local storage.
  - The modal coordinator: the edit and delete dialogs share one module-level
    `currentTaskId`.
- **Integrations page (static/js/integrated_apps.js).**
  - The case-insensitive search filter over the items captured at load.
  - The `getAppDetails` lookup table with its fallback entry.
  - `showAlert`'s rule of one alert at a time, and its colours.
- **Client against server (ClientServer).** Lemmas that join the two sides. The
  client's edit dialog posts no `url`, so the server always refuses it and
  answers with a redirect; the client's success branch for editing is therefore
  never reached. The server, unlike the client, never trims a URL, so a URL with
  a scheme and a leading blank gets a second scheme.

Modules and files:

| module | file | contents |
|---|---|---|
| Wrappers | wrappers.dfy | `Option` |
| Text | text.dfy | ASCII whitespace, trim, lower-casing, substring test, whitespace collapse, `s[:n]`, decimal digits |
| Seqs | seqs.dfy | `FilterMap`, the shape of every "append when the filter passes" loop |
| Server | server.dfy | app.py |
| Scraper | scraper.dfy | scraper_engine.py |
| Dashboard | dashboard.dfy | static/js/script.js |
| IntegratedApps | integrated_apps.dfy | static/js/integrated_apps.js |
| ClientServer | client_server.dfy | properties of script.js and app.py together |

State that the source changes in place is held in classes:
- the creation form, the status button and the dialogs (`Dashboard.CreationForm`,
  `Dashboard.StatusToggle`, `Dashboard.ModalCoordinator`);
- the alert containers (`Dashboard.AlertArea`, `IntegratedApps.Document`);
- the search panel (`IntegratedApps.SearchPanel`).

The source's loops become methods with loop invariants, each proved equal to a
specification function. Those are:
- the selector loop;
- the meta, link, image, row and table passes;
- the search `forEach`;
- the removal of existing alerts.

Whitespace is the six ASCII blanks: space, tab, line feed, vertical tab, form
feed and carriage return. JavaScript's `trim` treats exactly these as
whitespace among the ASCII characters. Python's `strip` and the `\s` of `re`
also treat the separators `\x1c`-`\x1f` as whitespace, which the model does
not (see "Left out"). Case folding is ASCII `A`-`Z` to `a`-`z`.

## Model

| member | source | states |
|---|---|---|
| Server.EnsureScheme | app.py:40-41 | the result always starts with `http://` or `https://`; it equals the input exactly when the input already has one of these (case-sensitive), and otherwise it is `https://` + the input |
| Server.EnsureSchemeIdempotent | app.py:40-41 | normalising twice gives the same URL as normalising once |
| Server.AddTask | app.py:31-41 | refused with "Please fill in all fields" exactly when the url or the schedule is missing or empty; otherwise inserts the normalised url and the schedule as sent |
| Server.AddTaskKeepsSchemedUrl | app.py:35-41 | a non-blank url that already has a scheme is inserted unchanged |
| Server.AddTaskAddsScheme | app.py:35-41 | a non-empty url without a scheme is inserted with `https://` in front |
| Server.EditTaskPost | app.py:104-124 | the same refusal rule and normalisation as `add_task`, for the same task id; the status is written as sent, even when it is absent |
| Server.EditTaskReply | app.py:109-111 | every POST is answered with a redirect: to `/edit_task/<id>` after a refusal, to `/tasks` after an update |
| Server.DeleteTask | app.py:133-143 | a JSON reply whose `success` is the outcome of the delete, with the matching message |
| Scraper.ExtractTitle | scraper_engine.py:143-154 | the stripped `<title>` text when there is a `<title>` (even an empty one); else the stripped first `<h1>`; None exactly when the page has neither; the result has no blank at either end |
| Scraper.FirstMatch | scraper_engine.py:177-181 | None exactly when no selector matches; otherwise the text of the first selector in the list that matches |
| Scraper.RawContent | scraper_engine.py:177-185 | the text of the first matching container when that text is non-empty; the whole page's text when that text is empty or when no container matches |
| Scraper.MainContent | scraper_engine.py:156-189 | the whitespace-collapsed text of `RawContent`, cut to its first 10000 characters (all of it when shorter); so it has no run of two whitespace characters and every whitespace character is a plain space |
| Scraper.MainContentKeepsText | scraper_engine.py:184-189 | when the cap does not cut, collapsing whitespace keeps every non-blank character in order |
| Scraper.ExtractMainContent | scraper_engine.py:162-189 | the selector loop with its `break` computes `MainContent`: the first container in the fixed order when its text is non-empty, else the whole page's text |
| Scraper.MetaTags | scraper_engine.py:202-207 | every recorded key and value is non-empty |
| Scraper.MetaTagsLastWins | scraper_engine.py:202-207 | a key is present exactly when some meta tag records it (key from `name`, else `property`, and non-empty `content`); its value is the content of the last tag that records it |
| Scraper.ExtractMetaTags | scraper_engine.py:202-207 | the meta loop computes `MetaTags` |
| Scraper.LinkOf | scraper_engine.py:212-219 | an anchor gives a link exactly when its href and text are non-empty; the url is the href joined to the page url, and the text is cut to 100 characters |
| Scraper.ImageOf | scraper_engine.py:224-231 | an image gives an entry exactly when its src is non-empty; alt defaults to the empty string and is cut to 100 characters |
| Scraper.TableOf | scraper_engine.py:236-244 | a kept table has 1 to 10 rows; its rows are exactly the non-empty rows among the first 10 (each kept row is one of them, and each of them is kept); a table is dropped exactly when its first 10 rows are all empty. Row order is `Seqs.FilterMapAppend` |
| Scraper.ExtractLinks | scraper_engine.py:210-219 | the link loop keeps, in order, the links of the first 50 anchors that carry an href; at most 50 |
| Scraper.ExtractImages | scraper_engine.py:222-231 | the image loop keeps, in order, the entries of the first 20 images; at most 20 |
| Scraper.ExtractRows | scraper_engine.py:237-242 | the row loop keeps, in order, the non-empty rows among the first 10; at most 10 |
| Scraper.ExtractTables | scraper_engine.py:234-244 | the table loop keeps, in order, the non-empty tables among the first 5; at most 5 |
| Scraper.ExtractStructuredData | scraper_engine.py:191-246 | the four passes together compute `StructuredDataOf`, which is bounded |
| Scraper.StructuredDataBounded | scraper_engine.py:191-246 | at most 50 links, 20 images and 5 tables of 1 to 10 non-empty rows; link texts non-empty and at most 100 characters; alts at most 100 characters; `forms` empty |
| Scraper.LinksProvenance | scraper_engine.py:210-219 | every link comes from one of the first 50 anchors with an href, and every such anchor with non-empty href and text yields its link |
| Scraper.LinksInOrder | scraper_engine.py:211-219 | links follow document order: the links of a concatenation are the concatenation of the links |
| Scraper.HttpError | scraper_engine.py:110-111 | the exception text for a non-200 status starts with `HTTP ` |
| Scraper.ErrorMessage | scraper_engine.py:110-136 | no error exactly for a 200 response; the timeout and connection-error messages name the url; any other failure gives a message starting with `Error scraping <url>: ` |
| Scraper.StoredRowOf | scraper_engine.py:255-267 | the stored status is `success` exactly when the result succeeded, and `error` otherwise; the other columns are copied from the result |
| Scraper.StatsRowOf | scraper_engine.py:270-281 | the stats row copies the task id, url, content size and status code |
| Scraper.ScrapeUrl | scraper_engine.py:74-141 | success exactly after a 200 response; then the title, content, structured data and size come from the page; on every other path those keep their initial empty values and the error message is set; the status code is recorded whenever a response arrived; both rows are stored on every path |
| Dashboard.AlertArea.Show | static/js/script.js:14-31 | the new alert goes in front of the ones already shown |
| Dashboard.SubmitGuard | static/js/script.js:43-47 | cancel with the error alert exactly when the trimmed URL is empty or the schedule, which is not trimmed, is empty |
| Dashboard.GuardTrimsOnlyTheUrl | static/js/script.js:43 | a URL of blanks is refused, a schedule of blanks is not |
| Dashboard.CreationForm.OnSubmit | static/js/script.js:38-54 | submits exactly when the guard proceeds; a cancel adds one error alert and leaves the button alone; a submit puts the button, if there is one, into its disabled loading state |
| Dashboard.BlurValue | static/js/script.js:82-86 | a non-blank trimmed URL without a scheme becomes `https://` + the trimmed URL; in every other case the field keeps its value exactly, untrimmed |
| Dashboard.PrefixedTrimmed | static/js/script.js:83-85 | `https://` in front of a URL with no blank at its end gives a URL that trimming leaves alone and that has a scheme |
| Dashboard.BlurGivesScheme | static/js/script.js:82-86 | after a blur, a field that is not blank has a scheme once trimmed |
| Dashboard.BlurOfTrimmedHasScheme | static/js/script.js:82-86 | a non-empty URL typed without surrounding blanks has a scheme after the blur |
| Dashboard.BlurIdempotent | static/js/script.js:82-86 | a second blur changes nothing |
| Dashboard.CreationForm.OnUrlBlur | static/js/script.js:82-86 | the field becomes `BlurValue` of its old value; nothing else changes |
| Dashboard.TruncateText | static/js/script.js:154-157 | unchanged when the text fits; otherwise the first `maxLength` characters (none when negative) followed by `...`; when `maxLength` is not negative, never longer than `maxLength + 3` |
| Dashboard.TruncateDefault | static/js/script.js:154-157 | with the default 50: at most 53 characters, unchanged up to 50, and otherwise exactly 53 with the first 50 kept |
| Dashboard.Flip | static/js/script.js:166-187 | toggling always changes the status |
| Dashboard.SavedStatus | static/js/script.js:193-206 | the stored flag gives Inactive exactly when it is the string `inactive`; absent or empty means active |
| Dashboard.SavedStatusRoundTrip | static/js/script.js:176-193 | the flag the toggle writes is read back as the same status on the next load |
| Dashboard.ToggleClasses | static/js/script.js:166-184 | after a toggle the button shows the flipped status, carries its class and has lost the old one |
| Dashboard.ToggleTwiceRestores | static/js/script.js:160-189 | toggling twice restores a button that carries exactly one status class |
| Dashboard.ToggleTwiceWithBothClasses | static/js/script.js:160-206 | a button carrying both classes loses `inactive` over two toggles, so two toggles do not restore it |
| Dashboard.StatusToggle.LoadSavedStatus | static/js/script.js:192-206 | adds the saved status's class without removing any; sets label and icon; storage unchanged |
| Dashboard.StatusToggle.ToggleStatus | static/js/script.js:160-189 | the button, label, icon and stored flag all show the flipped status, with one success alert; nothing else changes |
| Dashboard.ModalCoordinator.constructor | static/js/script.js:210 | no task id and both dialogs hidden |
| Dashboard.ModalCoordinator.OpenEditModal | static/js/script.js:212-224 | the id and the dialog's fields become exactly the arguments; nothing else changes |
| Dashboard.ModalCoordinator.CloseEditModal | static/js/script.js:226-229 | hides the dialog and clears the shared id; nothing else changes |
| Dashboard.ModalCoordinator.ConfirmDelete | static/js/script.js:271-291 | remembers the id and shows the dialog with the row's trimmed URL, or `this task` |
| Dashboard.ModalCoordinator.CloseDeleteModal | static/js/script.js:293-296 | hides the dialog and clears the same shared id |
| Dashboard.ModalCoordinator.DeleteTask | static/js/script.js:298-327 | nothing at all when the id is falsy; otherwise posts to `/delete_task/<id>`; on success it closes the dialog, clears the id and schedules a reload; on `success: false` or a failed request it keeps the id and every field and shows an error alert |
| Dashboard.ModalCoordinator.SaveTaskChanges | static/js/script.js:231-269 | posts only the schedule and status to `/edit_task/<id>`, with no url; the reply is handled like `deleteTask`'s |
| Dashboard.ModalCoordinator.OnWindowClick | static/js/script.js:331-341 | a click closes a dialog only when it lands on that dialog's root element |
| IntegratedApps.FilterDisplay | static/js/integrated_apps.js:17-30 | one display per item; an item is shown exactly when its lowercased title or description contains the lowercased, trimmed query; no item is left unset |
| IntegratedApps.BlankQueryShowsAll | static/js/integrated_apps.js:18-24 | an empty or all-blank query shows every item |
| IntegratedApps.LowerOfSpaces | static/js/integrated_apps.js:18 | lower-casing a blank query leaves it blank |
| IntegratedApps.SearchPanel.constructor | static/js/integrated_apps.js:13-14 | the item list is captured once, one display per item, none set yet |
| IntegratedApps.SearchPanel.OnInput | static/js/integrated_apps.js:17-30 | keeps one display per item; every item's display is reassigned, and the result depends only on the captured items and the current query, so repeating a query changes nothing |
| IntegratedApps.GetAppDetailsAsWritten | static/js/integrated_apps.js:68-102 | the property lookup as written: table entry, or a member inherited from `Object.prototype`, or the fallback |
| IntegratedApps.AsWrittenConstructorSkipsFallback | static/js/integrated_apps.js:102 | the type `constructor` yields an inherited function rather than any details object |
| IntegratedApps.GetAppDetails | static/js/integrated_apps.js:68-102 | the table entry for the six known types, else the fallback without features; every result has status `Connected` |
| IntegratedApps.GetAppDetailsAgrees | static/js/integrated_apps.js:68-102 | for every type that is not an `Object.prototype` member, the lookup as written returns the corrected result |
| IntegratedApps.StyleFor | static/js/integrated_apps.js:157-170 | green for success, red for error, amber with dark text for warning, and purple for any other type; white text except for warning |
| IntegratedApps.WithoutAlerts | static/js/integrated_apps.js:135-136 | removing the alerts keeps exactly the other nodes |
| IntegratedApps.NoAlertsLeft | static/js/integrated_apps.js:135-136 | no alert remains after the removal |
| IntegratedApps.ExactlyOneAlert | static/js/integrated_apps.js:135-173 | removal followed by one append leaves exactly one alert |
| IntegratedApps.Document.ShowAlert | static/js/integrated_apps.js:133-173 | the old alerts are removed, the other nodes kept in order, and the new alert of the given type (default `info`) with its colours appended; exactly one alert remains |
| ClientServer.ClientView | static/js/script.js:306-309 | the client parses a JSON reply into its success and message; a redirect page fails to parse |
| ClientServer.SaveTaskChangesAlwaysFails | static/js/script.js:239-241 | the server refuses the edit dialog's request, which has no url, and answers with a redirect that the client cannot parse |
| ClientServer.DeleteReplySuccess | app.py:133-143 | the client sees `success` exactly when the server's delete completed |
| ClientServer.ServerKeepsBlurredUrl | app.py:40-41 | a URL typed without blanks and blurred on the client is inserted by the server unchanged |
| ClientServer.PaddedUrlGetsSecondScheme | app.py:35-41 | ` http://a` passes the client's blur and guard, but the server inserts `https:// http://a` |
| Text.Trim | static/js/script.js:43 | the result is a slice of the input with only blanks before and after it, and it has no blank at either end; it is empty exactly when the input is all blanks |
| Text.TrimIdempotent | static/js/script.js:83 | trimming twice is trimming once |
| Text.CollapseSpaces | scraper_engine.py:188 | no longer than the input, no run of two blanks, every blank a plain space, empty exactly when the input is, and it starts with a blank exactly when the input does |
| Text.CollapseRun | scraper_engine.py:188 | a maximal run of blanks, between a word end (or the start) and a word start (or the end), becomes exactly one space, and the text on either side collapses on its own |
| Text.CollapseAppend | scraper_engine.py:188 | collapsing splits at the end of a word: the collapse of `x + y` is the collapse of `x` followed by the collapse of `y` |
| Text.CollapseWord | scraper_engine.py:188 | a word without blanks is kept exactly |
| Text.CollapseKeepsText | scraper_engine.py:188 | collapsing keeps every non-blank character in order |
| Text.CollapseIdempotent | scraper_engine.py:188 | collapsing twice is collapsing once |
| Seqs.FilterMapMembers | scraper_engine.py:211-219 | every kept value comes from an input that passes the filter, and every input that passes is kept |
| Seqs.FilterMapAppend | scraper_engine.py:211-219 | filtering a concatenation concatenates the filtered parts |

## Left out

- The sqlite schema, inserts, queries, commits and rollbacks: each route and `scrape_url` is modelled up to the row it writes.
- Flask routing, `render_template`, `flash` and `redirect`: the routes are modelled as the decision they take and the reply they send.
- The `add_task` and `edit_task` responses after a database error, and the `edit_task` GET branch: these depend only on the database.
- The HTTP fetch, its 30-second timeout, the random delay and `response_time`: the outcome is the input `Scraper.Fetch`, and `response_time` is not stored in the model's stats row.
- BeautifulSoup parsing, `select_one` CSS matching and `get_text`: the page is the abstract `Scraper.Page`, whose `matches` map gives the text of each selector that matches.
- The removal of `script` and `style` elements: it happens inside the parser's output, which the model takes as given.
- `urljoin` (reference resolution per section 5.2 of RFC 3986): passed in as the function parameter `join`.
- Exceptions raised during extraction, after a 200 response: `Scraper.ScrapeUrl` treats a 200 response as always extracted.
- `json.dumps` of the extracted data: the stored row holds the structured value itself.
- `get_scraped_data`, `get_scraping_stats` and `cleanup_old_data`: SQL queries, float averages and date arithmetic.
- `isValidUrl` and `formatDate`: the first is never called, and the second is locale formatting.
- Styling, animations, hover effects, smooth scrolling, `console.log` and the `setTimeout` delays: the timed removal of alerts is not modelled, so alerts accumulate in `Dashboard.AlertArea`.
- The task-card click handler, the action-button dispatcher and the sidebar and app-details dialog of the integrations page: navigation and presentation only.
- Asynchronous interleaving: each request is taken to complete before the next event is handled.
- Unicode whitespace and Unicode case folding: ASCII only.
- Scraper.ExtractTitle, Text.CollapseSpaces: Python's `str.strip` (the title) and the `\s` of `re` (the main content) also treat the ASCII separators `\x1c`-`\x1f` as whitespace; the model treats them as ordinary characters, so it differs from the source on text that contains them.
- test_scraping.py: a smoke-test client that talks to the network.
- Dashboard.TruncateText: lengths count Dafny characters, not JavaScript's UTF-16 code units.

## Findings

| source | as written | input that shows it | evidently intended | confidence | as-written member | corrected member |
|---|---|---|---|---|---|---|
| static/js/integrated_apps.js:102 | `appDetails[appType]` is a plain property lookup, so a type that names an `Object.prototype` member finds the inherited member, which is truthy, and the fallback is never used | `getAppDetails('Webhook', 'constructor')` returns the `Object` constructor function, not a details object | any type outside the six known ones gets the fallback entry with status `Connected` | high (not executed) | IntegratedApps.GetAppDetailsAsWritten, IntegratedApps.AsWrittenConstructorSkipsFallback | IntegratedApps.GetAppDetails |
