# Tibia data scrapers, modelled in Dafny

This project models the decision logic of three scraper scripts of a Tibia analytics
dashboard. Each script fetches JSON from a public API and turns it into files or warehouse
rows:

- `extrair_ranking.py` collects the experience highscores and the kill statistics of
  every world.
  - It reads the world catalogue, or falls back to four fixed worlds when the catalogue
    is empty.
  - For each world it walks the highscore pages 1, 2, 3, … up to page 20, stopping at the
    first failed, malformed or empty page.
  - It tags every row with the extraction date, the world and the record type, and
    writes one parquet file per world and date. Kill statistics are a single request
    with the same tagging.
- `etl_guild.py` fetches one guild's roster. It rejects bad replies with an empty list,
  turns every member into a flat record with fixed defaults, and hands a non-empty list
  to the warehouse load. It has no exception handling, so a connection error or a 200
  reply whose body is not JSON raises.
- `atualizar_bosses.py` asks the wiki for three boss categories (Bane, Archfoe, Nemesis),
  in that order. It maps each listed title to its category's label and writes the
  dictionary to `dados/bosses.json`.

The network and the disk become parameters:
- The API is an `Http.Upstream` whose fixed `respond` function answers each URL with a
  final reply, and which logs every URL asked for.
- The output folder is a `Storage.Disk`, a map from path to content.
- The warehouse is a `Guild.Warehouse`, the list of batches appended to it.
- The extraction date is a string argument.

Parsed JSON is the `PyJson.Json` datatype. The Python operators the scripts apply to it
are modelled explicitly: truthiness, `key in v`, `v[key]`, `v.get(key, default)` and
iteration. An exception that nothing catches is `Wrappers.Result.Raised`, and it ends the
script.

Each imperative routine is a method proved against a specification function:
- `ProcessHighscores` against `HighscoresWalk`;
- `RunRanking` against `RankingMain`;
- `FetchGuildData` against `GuildRoster`;
- `UpdateBossDatabase` against `Collect` and `Attempted`.

The lemmas state what those functions promise.

The scripts keep no set of failed pages, retry nothing beyond the transport's policy, and
do not merge on write. A bad page ends the walk (`extrair_ranking.py:84-85`, `:89-90`), and a write replaces the file
(`extrair_ranking.py:114`).

Modules: `Wrappers`, `PyJson`, `Http`, `Storage`, `UrlQuote` (percent-encoding as in
section 2.1 of RFC 3986, with its decoder), `Ranking`, `Guild` and `Bosses`.

## Model

| member | source | states |
|---|---|---|
| Http.ApiData | extrair_ranking.py:36-56 | the parsed body is returned exactly when the reply is a 200 with a JSON body; any other status, a connection error or timeout, or an unparseable body gives `None` |
| Http.Upstream.GetApiData | atualizar_bosses.py:10-20 | one GET of the URL, logged; the result is `ApiData` of the reply, so a body comes back only for status 200 |
| Http.Upstream.Get | etl_guild.py:25 | one GET without exception handling: the reply is the upstream's answer and the URL is appended to the request log |
| Storage.Disk.Write | extrair_ranking.py:114 | a write replaces whatever the path held and leaves every other path unchanged |
| UrlQuote.QuoteRoundTrip | etl_guild.py:15 | percent-decoding recovers every text that `quote` or `quote_plus` encodes, so the encoding is injective |
| UrlQuote.QuoteBytesAlphabet | etl_guild.py:15 | an encoded text holds only unreserved characters, `%`, hex digits and the form's own separator |
| UrlQuote.QuoteSpace | etl_guild.py:14-16 | between two unreserved runs, `quote` writes a space as `%20` |
| UrlQuote.QuotePlusColon | atualizar_bosses.py:42-48 | between two unreserved runs, `quote_plus` writes a colon as `%3A` |
| UrlQuote.Utf8RoundTrip | etl_guild.py:15 | the UTF-8 encoding that `quote` applies first can be decoded back to the text |
| Ranking.NatToStringInjective | extrair_ranking.py:80 | different page numbers are written as different decimal strings |
| Ranking.HighscoresUrlInjective | extrair_ranking.py:80 | two different pages of a world are two different URLs |
| Ranking.WorldNamesInOrder | extrair_ranking.py:66-67 | one name per regular world, in response order; the list fails exactly when some entry has no string `name` |
| Ranking.ActiveWorldsCases | extrair_ranking.py:64-70 | the catalogue is empty when the request failed or `worlds` or `regular_worlds` is missing, and otherwise lists each regular world's name in order |
| Ranking.GetActiveWorlds | extrair_ranking.py:59-70 | exactly one request, to the worlds URL; the names the loop appends equal `ActiveWorlds` of the reply |
| Ranking.WorldsToProcess | extrair_ranking.py:152-154 | the fallback `Antica, Venebra, Ferobra, Lobera` is used if and only if the catalogue is empty; the list to process is never empty |
| Ranking.ReadPage | extrair_ranking.py:83-92 | a missing or falsy body stops the walk, and a page that contributes rows contributes at least one |
| Ranking.ReadPageObject | extrair_ranking.py:84-90 | no `highscores`, a missing `highscore_list` or an empty one stops the walk; a non-empty list gives its items as the page's rows |
| Ranking.WalkFrom | extrair_ranking.py:79-98 | the walk ends at a page between its start and 20, and a walk that ends at the ceiling ends at page 20 |
| Ranking.WalkShape | extrair_ranking.py:79-98 | every page before the last held rows; the last page is the one that stopped it, raised, or is page 20 with rows; the rows are the in-order concatenation of the pages read |
| Ranking.WalkStopsAtFirstGap | extrair_ranking.py:83-90 | the first page without rows is the last page requested; it adds nothing, and the rows are those of the pages before it, so a bad middle page truncates the result |
| Ranking.WalkCeiling | extrair_ranking.py:94-96 | when every page holds rows, pages 1 to 20 are read and no further, and all of them are kept |
| Ranking.TagRows | extrair_ranking.py:102-106 | one record per row, in order; each has the row's columns plus `extraction_date`, `world` and `type`, which take the given values; other columns keep the row's values |
| Ranking.JoinThree | extrair_ranking.py:108-112 | `os.path.join` of plain components separates them with single slashes |
| Ranking.PathsAreJoins | extrair_ranking.py:108-112 | both output paths are the `os.path.join` of root, folder, world and file name, for every world name |
| Ranking.PathShapes | extrair_ranking.py:108-112 | for a slash-free world the files are `dados/ranking/<world>/highscores_<world>_<date>.parquet` and `dados/kill_statistics/<world>/killstatistics_<world>_<date>.parquet` |
| Ranking.PathsSeparate | extrair_ranking.py:108-114 | two different slash-free worlds never share a file, and a highscores file is never a kill-statistics file |
| Ranking.ProcessHighscores | extrair_ranking.py:73-117 | the pages requested are exactly 1 to the walk's last page; the method raises exactly when the walk does; the file holds the tagged rows of the walk if there are any, and is otherwise left alone |
| Ranking.ReadKillStatistics | extrair_ranking.py:124-129 | a missing or falsy body gives no entries, and entries that are returned are never empty |
| Ranking.ReadKillStatisticsObject | extrair_ranking.py:124-129 | on an object body: no `killstatistics`, a missing `entries` or an empty one writes nothing; a non-empty list of entries becomes exactly the table's rows |
| Ranking.ProcessKillStatistics | extrair_ranking.py:120-142 | exactly one request; the kill-statistics file is written with the tagged entries only when there are entries |
| Ranking.RaisedRunIsFinal | extrair_ranking.py:156-160 | once a world raises, the rest of the list changes nothing: no request and no write |
| Ranking.RunRequestsInOrder | extrair_ranking.py:156-160 | a run that raises nowhere asks, world after world in list order, for that world's highscore pages and then for its kill statistics |
| Ranking.WorldStepLookup | extrair_ranking.py:159-160 | for slash-free world names, one world's pass changes that world's two files as its outputs say, and no other world's files |
| Ranking.RunFiles | extrair_ranking.py:156-160 | for slash-free world names, after a run that raises nowhere, each listed world's two files hold what its own pass wrote (or what they held before), and the files of unlisted worlds are untouched |
| Ranking.RunWorld | extrair_ranking.py:159-160 | highscores, then kill statistics unless the first raised; requests, files and the outcome are those of `WorldStep` |
| Ranking.RunWorlds | extrair_ranking.py:156-160 | the loop's requests, files and outcome are those of `ProcessWorlds`, which stops at the first exception |
| Ranking.RunRanking | extrair_ranking.py:145-166 | `main`: the catalogue request, then the loop over the worlds to process; requests, files and outcome equal `RankingMain` |
| Guild.GuildUrlDecodes | etl_guild.py:15-16 | the URL is the API prefix followed by text that percent-decodes back to the guild name |
| Guild.ConfiguredGuildUrl | etl_guild.py:15-16 | the configured guild `Digit One` is requested as `https://api.tibiadata.com/v4/guild/Digit%20One` |
| Guild.MemberRecordFields | etl_guild.py:48-57 | a record exists exactly for an object member; it has exactly the eight columns, copies the member's fields when present, uses the fixed defaults otherwise, and carries the shared guild name and date |
| Guild.EmptyMemberDefaults | etl_guild.py:50-55 | an empty member gets rank `Unknown`, name `Unknown`, vocation `None`, level 0, joined `None` and status `offline` |
| Guild.MemberRecordsInOrder | etl_guild.py:47-57 | one record per member, in member order, each built with the guild's name; the list fails exactly when there are members and the guild has no name or some member is not an object |
| Guild.RosterGuards | etl_guild.py:27-36 | any status but 200, a body without `guild`, or a guild without `members` gives the empty list |
| Guild.RosterOfWellFormedReply | etl_guild.py:43-57 | a 200 reply whose body, whatever other keys it carries, has a guild with a name and a list of member objects gives one record per member, in order, with that guild name and the date |
| Guild.FetchGuildData | etl_guild.py:13-59 | one request to the guild URL; the result, including the cases that raise, equals `GuildRoster` of the reply |
| Guild.Warehouse.SaveToBigQuery | etl_guild.py:61-64 | an empty list loads nothing; a non-empty list is appended as one batch |
| Guild.GuardedReplyLoadsNothing | etl_guild.py:27-29 | a non-200 reply leads to no load at all |
| Guild.RunGuild | etl_guild.py:95-97 | the script makes one request for the configured guild, raises exactly when the roster does, and otherwise appends the roster when it is not empty |
| Bosses.CategoryTitlesAsWritten | atualizar_bosses.py:31-35 | the three categories are `Category:Bane_Bosses`, `Category:Archfoe_Bosses` and `Category:Nemesis_Bosses`, in that order |
| Bosses.BossPathIs | atualizar_bosses.py:61 | the dictionary is written to `dados/bosses.json` |
| Bosses.CategoryUrlDecodes | atualizar_bosses.py:42-50 | the category title can be read back from the query URL |
| Bosses.CategoryUrlInjective | atualizar_bosses.py:42-50 | different categories are requested at different URLs |
| Bosses.CategoryUrlOfColonTitle | atualizar_bosses.py:42-48 | a `Prefix:Name` title is sent as `cmtitle=Prefix%3AName`, between the fixed `action`, `list` and `cmlimit=500`, `format` parameters |
| Bosses.WikiCategoryUrl | atualizar_bosses.py:42-48 | each boss category is requested as `…&cmtitle=Category%3A<label>_Bosses&cmlimit=500&format=json` |
| Bosses.UrlsDistinct | atualizar_bosses.py:39-50 | categories with different titles give pairwise different requests |
| Bosses.RequestsAreDistinct | atualizar_bosses.py:39-50 | the three configured categories are three different requests |
| Bosses.MemberTitlesInOrder | atualizar_bosses.py:54-55 | one title per member, in order; the list fails exactly when some member has no string `title` |
| Bosses.CategoryGuards | atualizar_bosses.py:50-52 | a failed request, a reply without `query`, or a query without `categorymembers` contributes no title |
| Bosses.CategoryOfWellFormedReply | atualizar_bosses.py:52-55 | a reply with `query.categorymembers` listing titled members, whatever other keys the body and the query carry, contributes exactly those titles, in order |
| Bosses.AssignEntries | atualizar_bosses.py:54-56 | assigning a category adds exactly its titles, maps each to its label, and keeps every other entry |
| Bosses.LastTagIsLast | atualizar_bosses.py:39-56 | the reference scan finds a label exactly when some category lists the name, and it is the label of a category that lists it with no later category listing it |
| Bosses.CollectIsLastLabel | atualizar_bosses.py:39-56 | the fold agrees with the reference scan: same keys, and each value is the last listing category's label |
| Bosses.CollectEntries | atualizar_bosses.py:37-56 | the keys are the union of the titles of the categories read, and each maps to the label of the last category listing it |
| Bosses.CollectRaises | atualizar_bosses.py:39-56 | the run fails exactly when some category's reply has the wrong shape |
| Bosses.FailedCategorySkipped | atualizar_bosses.py:50-56 | a category whose request failed changes nothing: the result is that of the run without it, and later categories are still processed |
| Bosses.NoRepliesEmptyDictionary | atualizar_bosses.py:37-56 | when every request fails the dictionary is empty (and the script still writes it) |
| Bosses.AttemptedStopsAtFailure | atualizar_bosses.py:39-58 | a run that completes requests every category; one that fails stops right after the category that raised, all earlier ones having been read |
| Bosses.ConfiguredLabels | atualizar_bosses.py:31-56 | every value is `Bane`, `Archfoe` or `Nemesis`, and a boss listed under Nemesis, the last category, is labelled `Nemesis` |
| Bosses.AssignMembers | atualizar_bosses.py:54-56 | the inner loop assigns the label to every member's title in order, or raises at the first member without one |
| Bosses.AddCategory | atualizar_bosses.py:50-56 | one category's guards and loop: the result is the dictionary with that category's titles assigned, or the exception |
| Bosses.ReadCategories | atualizar_bosses.py:39-58 | the category loop: requests the attempted categories' URLs in order, and its result equals the fold `Collect` |
| Bosses.UpdateBossDatabase | atualizar_bosses.py:22-65 | the script raises exactly when the fold does; it requests the attempted categories in order; it writes the dictionary to `dados/bosses.json` when it completes, even when empty, and writes nothing when it raises |

## Left out

- HTTP transport: the `requests` session, the urllib3 `Retry` policy (five attempts with
  backoff on 429, 500, 502, 503 and 504), headers and timeouts. `Http.Upstream.respond`
  is the reply once the transport has finished, and a timeout is a `ConnectionError`.
- Http.Upstream.respond is a fixed function of the URL: a URL asked for twice gets the same
  reply both times. So a world listed twice in the catalogue is given the same pages on
  both passes, and `Ranking.RunFiles` relies on that for repeated worlds.
- Pacing: the `time.sleep` calls only delay the run.
- Serialisation and the file system:
  - pandas DataFrames, `to_parquet`, `json.dump` and `os.makedirs` are left out;
  - a parquet file is its list of records, and `bosses.json` is its key-to-label map,
    without key order or indentation.
- The clock: the extraction date is a parameter. `process_highscores` and
  `process_kill_statistics` each read the clock twice, once for the column and once for the
  file name (`extrair_ranking.py:104`, `:111`, `:131`, `:138`), and every world reads it
  again. The model uses one date for all of these reads across the whole run, so a run
  across midnight is not modelled.
- The BigQuery side of `etl_guild.py` is a foreign call. This covers the client, the
  schema, the load job and the `to_datetime` coercion of dates. A load is the batch
  appended to `Guild.Warehouse.loads`.
- `etl_bigquery.py` is not part of this model: it only moves files into the warehouse.
- Logging: every `print` is left out.
- PyJson.Elements: iterating over a non-empty JSON object is treated as raising, because
  the model's objects have no key order.
  - Every loop over such a value in the scripts indexes or calls `.get` on the element,
    which fails on the first key.
  - The one exception is `all_players.extend(page_list)` in `process_highscores`, which
    would keep the keys.
- Ranking.WorldName: a world entry whose `name` is not a string is treated as raising.
  Python would append the value and fail later, or not at all.
- Bosses.Title: a member `title` that is a number, a boolean or `null` is treated as
  raising. Python would use it as a dictionary key, and `json.dump` would write it as a
  string.
- Ranking.TagRows: pandas builds one table whose columns are the union of all rows' keys and
  fills a row's missing cells with null; each model record keeps only its own row's keys
  plus the three tag columns.
- Ranking.Columns: a row that is not a JSON object contributes no columns of its own.
  pandas would build numbered columns from it.
- Ranking.ReadKillStatistics: a truthy `entries` value that is not a list is treated as
  raising. pandas would build a table from a dictionary of columns.
- Numbers are modelled as integers. JSON floats do not occur in the fields the scripts
  read.
- The limit of 500 titles per category is applied by the wiki. The model shows that the
  request asks for `cmlimit=500` and that each category is exactly one request, with no
  continuation.
- Ranking.HighscoresPath and Ranking.KillStatisticsPath write out the joined path for
  slash-free world names and use `Storage.Join` otherwise. `Ranking.PathsAreJoins`
  proves that both branches equal `os.path.join`.
