/** The highscore and kill-statistics collector: the world catalogue with its fallback list,
    the page walk over one world's highscores, the single kill-statistics fetch, and the
    run over every world. The remote API is an `Upstream`, the output folder a `Disk`, and
    the extraction date a parameter. */
module Ranking {
  import opened Wrappers
  import opened PyJson
  import opened Http
  import opened Storage

  const RankCategory := "experience"
  const RankProfession := "all"
  const RootFolder := "dados"
  const FolderRanking := "ranking"
  const FolderKillStats := "kill_statistics"

  /** The highscore walk never asks for a page beyond this one. */
  const MaxPages: nat := 20

  const WorldsUrl := "https://api.tibiadata.com/v4/worlds"

  /** The worlds processed when the catalogue yields none. */
  const FallbackWorlds: seq<string> := ["Antica", "Venebra", "Ferobra", "Lobera"]

  // ================================================================ URLs

  function DigitChar(d: int): char
    requires 0 <= d < 10
  {
    ('0' as int + d) as char
  }

  /** Python's `str(n)` for a natural number. */
  function NatToString(n: nat): (s: string)
    ensures |s| >= 1
    ensures n >= 10 ==> |s| >= 2
    decreases n
  {
    if n < 10 then [DigitChar(n)] else NatToString(n / 10) + [DigitChar(n % 10)]
  }

  /** Different page numbers are written differently. */
  lemma {:induction false} NatToStringInjective(m: nat, n: nat)
    requires NatToString(m) == NatToString(n)
    ensures m == n
    decreases m
  {
    if m >= 10 && n >= 10 {
      var sm, sn := NatToString(m), NatToString(n);
      assert sm[|sm| - 1] == DigitChar(m % 10) && sn[|sn| - 1] == DigitChar(n % 10);
      assert sm[..|sm| - 1] == NatToString(m / 10) && sn[..|sn| - 1] == NatToString(n / 10);
      NatToStringInjective(m / 10, n / 10);
    }
  }

  function HighscoresPrefix(world: string): string {
    "https://api.tibiadata.com/v4/highscores/" + world + "/" + RankCategory + "/" + RankProfession + "/"
  }

  /** The URL of one highscore page of one world. */
  function HighscoresUrl(world: string, page: nat): string {
    HighscoresPrefix(world) + NatToString(page)
  }

  /** The URLs of pages 1 to n, in that order. */
  function HighscoresUrls(world: string, n: nat): (urls: seq<string>)
    ensures |urls| == n
    ensures forall i :: 0 <= i < n ==> urls[i] == HighscoresUrl(world, i + 1)
  {
    seq(n, i requires 0 <= i < n => HighscoresUrl(world, i + 1))
  }

  /** Two different pages of a world are two different requests. */
  lemma HighscoresUrlInjective(world: string, p: nat, q: nat)
    requires HighscoresUrl(world, p) == HighscoresUrl(world, q)
    ensures p == q
  {
    var prefix := HighscoresPrefix(world);
    assert HighscoresUrl(world, p)[|prefix|..] == NatToString(p);
    assert HighscoresUrl(world, q)[|prefix|..] == NatToString(q);
    NatToStringInjective(p, q);
  }

  function KillStatisticsUrl(world: string): string {
    "https://api.tibiadata.com/v4/killstatistics/" + world
  }

  // ================================================================ world catalogue

  /** `world['name']` for one entry of `regular_worlds`. */
  function WorldName(entry: Json): Result<string> {
    match Index(entry, "name")
    case Ok(JStr(name)) => Ok(name)
    case _ => Raised
  }

  /** The names of `entries`, appended one by one; the first entry without one raises. */
  function WorldNames(entries: seq<Json>): Result<seq<string>>
    decreases |entries|
  {
    if entries == [] then Ok([])
    else
      match WorldNames(entries[..|entries| - 1])
      case Raised => Raised
      case Ok(names) =>
        match WorldName(entries[|entries| - 1])
        case Raised => Raised
        case Ok(name) => Ok(names + [name])
  }

  /** The names come out one per entry, in the order of the response, and the list fails
      exactly when some entry has no name. */
  lemma {:induction false} WorldNamesInOrder(entries: seq<Json>)
    ensures WorldNames(entries).Ok? <==> forall i :: 0 <= i < |entries| ==> WorldName(entries[i]).Ok?
    ensures WorldNames(entries).Ok? ==>
              |WorldNames(entries).value| == |entries|
              && forall i :: 0 <= i < |entries| ==> WorldNames(entries).value[i] == WorldName(entries[i]).value
    decreases |entries|
  {
    if entries != [] {
      var init := entries[..|entries| - 1];
      WorldNamesInOrder(init);
      assert forall i :: 0 <= i < |init| ==> init[i] == entries[i];
    }
  }

  /** `get_active_worlds` on the body the catalogue request produced. */
  function ActiveWorlds(data: Option<Json>): Result<seq<string>> {
    if !Present(data) then Ok([])
    else
      match In("worlds", data.value)
      case Raised => Raised
      case Ok(false) => Ok([])
      case Ok(true) =>
        match Index(data.value, "worlds")
        case Raised => Raised
        case Ok(worlds) =>
          match In("regular_worlds", worlds)
          case Raised => Raised
          case Ok(false) => Ok([])
          case Ok(true) =>
            match Index(worlds, "regular_worlds")
            case Raised => Raised
            case Ok(regular) =>
              match Elements(regular)
              case Raised => Raised
              case Ok(entries) => WorldNames(entries)
  }

  /** The catalogue is empty when the request failed or either key is missing, and is the
      `name` of each regular world, in response order, when they are all there. */
  lemma ActiveWorldsCases(data: Option<Json>)
    ensures data.None? ==> ActiveWorlds(data) == Ok([])
    ensures data.Some? && data.value.JObj? && "worlds" !in data.value.fields ==> ActiveWorlds(data) == Ok([])
    ensures data.Some? && data.value.JObj? && "worlds" in data.value.fields
            && data.value.fields["worlds"].JObj? && "regular_worlds" !in data.value.fields["worlds"].fields
            ==> ActiveWorlds(data) == Ok([])
    ensures data.Some? && data.value.JObj? && "worlds" in data.value.fields
            && data.value.fields["worlds"].JObj? && "regular_worlds" in data.value.fields["worlds"].fields
            && data.value.fields["worlds"].fields["regular_worlds"].JArr?
            && (forall e :: e in data.value.fields["worlds"].fields["regular_worlds"].items ==> WorldName(e).Ok?)
            ==> var entries := data.value.fields["worlds"].fields["regular_worlds"].items;
                && ActiveWorlds(data).Ok?
                && |ActiveWorlds(data).value| == |entries|
                && forall i :: 0 <= i < |entries| ==> ActiveWorlds(data).value[i] == WorldName(entries[i]).value
  {
    if data.Some? && data.value.JObj? && "worlds" in data.value.fields {
      var worlds := data.value.fields["worlds"];
      if worlds.JObj? && "regular_worlds" in worlds.fields && worlds.fields["regular_worlds"].JArr? {
        WorldNamesInOrder(worlds.fields["regular_worlds"].items);
      }
    }
  }

  /** `get_active_worlds`: one request, then the name of every regular world. */
  method GetActiveWorlds(net: Upstream) returns (worlds: Result<seq<string>>)
    modifies net
    ensures worlds == ActiveWorlds(ApiData(net.respond(WorldsUrl)))
    ensures net.requested == old(net.requested) + [WorldsUrl]
  {
    var data := net.GetApiData(WorldsUrl);
    var worldList: seq<string> := [];
    if !Present(data) {
      return Ok(worldList);
    }
    var hasWorlds := In("worlds", data.value);
    if hasWorlds.Raised? {
      return Raised;
    }
    if !hasWorlds.value {
      return Ok(worldList);
    }
    var catalogue := Index(data.value, "worlds");
    if catalogue.Raised? {
      return Raised;
    }
    var hasRegular := In("regular_worlds", catalogue.value);
    if hasRegular.Raised? {
      return Raised;
    }
    if !hasRegular.value {
      return Ok(worldList);
    }
    var regular := Index(catalogue.value, "regular_worlds");
    if regular.Raised? {
      return Raised;
    }
    var entries := Elements(regular.value);
    if entries.Raised? {
      return Raised;
    }
    var items := entries.value;
    WorldNamesInOrder(items);
    for i := 0 to |items|
      invariant WorldNames(items[..i]) == Ok(worldList)
    {
      var name := Index(items[i], "name");
      if name.Raised? || !name.value.JStr? {
        assert !WorldName(items[i]).Ok?;
        return Raised;
      }
      assert items[..i + 1][..i] == items[..i];
      worldList := worldList + [name.value.s];
    }
    assert items[..|items|] == items;
    return Ok(worldList);
  }

  /** The fallback in `main`: the catalogue if it names any world, the fixed list otherwise. */
  function WorldsToProcess(catalogue: seq<string>): (worlds: seq<string>)
    ensures catalogue == [] ==> worlds == FallbackWorlds
    ensures catalogue != [] ==> worlds == catalogue
    ensures worlds != []
  {
    if catalogue == [] then FallbackWorlds else catalogue
  }

  // ================================================================ one highscore page

  /** What the loop body makes of one page: stop the walk, add these rows, or raise. */
  datatype PageRead = StopWalk | PageRows(rows: seq<Json>) | PageRaised

  /** The checks `process_highscores` applies to one response: a missing or falsy body, or
      one without `highscores`, stops the walk; so does a missing or empty `highscore_list`;
      otherwise the list's elements are the page's rows. */
  function ReadPage(data: Option<Json>): (p: PageRead)
    ensures p.PageRows? ==> p.rows != []
    ensures !Present(data) ==> p == StopWalk
  {
    if !Present(data) then StopWalk
    else
      match In("highscores", data.value)
      case Raised => PageRaised
      case Ok(false) => StopWalk
      case Ok(true) =>
        match Index(data.value, "highscores")
        case Raised => PageRaised
        case Ok(highscores) =>
          match Get(highscores, "highscore_list", JArr([]))
          case Raised => PageRaised
          case Ok(pageList) =>
            if !Truthy(pageList) then StopWalk
            else
              match Elements(pageList)
              case Raised => PageRaised
              case Ok(rows) => PageRows(rows)
  }

  /** On an object body: no `highscores` stops the walk; a `highscores` object without a
      `highscore_list`, or with an empty one, stops it too; a non-empty list gives its items. */
  lemma ReadPageObject(data: Option<Json>)
    requires data.Some? && data.value.JObj? && data.value.fields != map[]
    ensures "highscores" !in data.value.fields ==> ReadPage(data) == StopWalk
    ensures "highscores" in data.value.fields && data.value.fields["highscores"].JObj? ==>
              var h := data.value.fields["highscores"].fields;
              && ("highscore_list" !in h ==> ReadPage(data) == StopWalk)
              && ("highscore_list" in h && h["highscore_list"] == JArr([]) ==> ReadPage(data) == StopWalk)
              && ("highscore_list" in h && h["highscore_list"].JArr? && h["highscore_list"].items != [] ==>
                    ReadPage(data) == PageRows(h["highscore_list"].items))
  {
  }

  /** The page the walk reads at `page`, as the upstream answers it. */
  function PageAt(respond: string -> Reply, world: string, page: nat): PageRead {
    ReadPage(ApiData(respond(HighscoresUrl(world, page))))
  }

  /** The pages of one world, as the walk sees them. */
  function PagesOf(respond: string -> Reply, world: string): nat -> PageRead {
    (page: nat) => PageAt(respond, world, page)
  }

  function RowsOf(p: PageRead): seq<Json> {
    if p.PageRows? then p.rows else []
  }

  /** The rows of pages lo to hi - 1, concatenated in page order. */
  function Collected(pages: nat -> PageRead, lo: nat, hi: nat): seq<Json>
    decreases hi - lo
  {
    if lo >= hi then [] else RowsOf(pages(lo)) + Collected(pages, lo + 1, hi)
  }

  // ================================================================ the page walk

  /** Why the walk ended. */
  datatype WalkEnd =
    | NoMoreData   // a failed, malformed or empty page
    | PageCeiling  // page MaxPages held rows
    | WalkRaised   // the body of the loop raised

  /** The outcome of the walk: the rows gathered, the last page requested, how it ended. */
  datatype Walk = Walk(rows: seq<Json>, lastPage: nat, end: WalkEnd)

  /** The walk from `page` on, over any sequence of pages: read the page; stop or raise as
      it says; otherwise keep its rows and go on to the next page, unless this was page
      MaxPages. */
  function WalkFrom(pages: nat -> PageRead, page: nat): (w: Walk)
    requires 1 <= page <= MaxPages
    ensures page <= w.lastPage <= MaxPages
    ensures w.end == PageCeiling ==> w.lastPage == MaxPages
    decreases MaxPages - page
  {
    match pages(page)
    case StopWalk => Walk([], page, NoMoreData)
    case PageRaised => Walk([], page, WalkRaised)
    case PageRows(rows) =>
      if page >= MaxPages then Walk(rows, page, PageCeiling)
      else
        var rest := WalkFrom(pages, page + 1);
        Walk(rows + rest.rows, rest.lastPage, rest.end)
  }

  /** The walk `process_highscores` performs over one world, starting at page 1. */
  function HighscoresWalk(respond: string -> Reply, world: string): Walk {
    WalkFrom(PagesOf(respond, world), 1)
  }

  /** The page count the walk reached, when counted from `page`. */
  function WalkEndPage(w: Walk): nat {
    if w.end == PageCeiling then w.lastPage + 1 else w.lastPage
  }

  /** What a walk looks like: every page before the last held rows; the last page is the
      one that stopped it (failed, malformed or empty), raised, or is page MaxPages with
      rows; and the rows are the concatenation, in page order, of everything read. */
  lemma {:induction false} WalkShape(pages: nat -> PageRead, page: nat)
    requires 1 <= page <= MaxPages
    ensures var w := WalkFrom(pages, page);
            && (forall p :: page <= p < w.lastPage ==> pages(p).PageRows?)
            && (w.end == NoMoreData <==> pages(w.lastPage).StopWalk?)
            && (w.end == WalkRaised <==> pages(w.lastPage).PageRaised?)
            && (w.end == PageCeiling <==> pages(w.lastPage).PageRows?)
            && w.rows == Collected(pages, page, WalkEndPage(w))
    decreases MaxPages - page
  {
    var w := WalkFrom(pages, page);
    if pages(page).PageRows? {
      if page < MaxPages {
        WalkShape(pages, page + 1);
        var rest := WalkFrom(pages, page + 1);
        assert w.rows == pages(page).rows + rest.rows;
        assert Collected(pages, page, WalkEndPage(w)) == pages(page).rows + Collected(pages, page + 1, WalkEndPage(w));
      } else {
        assert Collected(pages, page + 1, page + 1) == [];
      }
    }
  }

  /** A failed, malformed or empty page k ends the walk when every page before it held rows:
      page k is the last one requested, it adds nothing, and the rows are those of pages 1
      to k - 1. A bad page in the middle thus truncates the result. */
  lemma WalkStopsAtFirstGap(pages: nat -> PageRead, k: nat)
    requires 1 <= k <= MaxPages
    requires forall p :: 1 <= p < k ==> pages(p).PageRows?
    requires !pages(k).PageRows?
    ensures var w := WalkFrom(pages, 1);
            && w.lastPage == k
            && w.end == (if pages(k).StopWalk? then NoMoreData else WalkRaised)
            && w.rows == Collected(pages, 1, k)
  {
    WalkShape(pages, 1);
  }

  /** Against pages that all hold rows, the walk reads pages 1 to MaxPages and no further,
      and keeps all of them. */
  lemma WalkCeiling(pages: nat -> PageRead)
    requires forall p :: 1 <= p <= MaxPages ==> pages(p).PageRows?
    ensures var w := WalkFrom(pages, 1);
            && w.lastPage == MaxPages
            && w.end == PageCeiling
            && w.rows == Collected(pages, 1, MaxPages + 1)
  {
    WalkShape(pages, 1);
  }

  // ================================================================ tagging and paths

  const TagColumns: set<string> := {"extraction_date", "world", "type"}

  /** The columns a row contributes to the table: its members, when it is an object. */
  function Columns(row: Json): map<string, Json> {
    if row.JObj? then row.fields else map[]
  }

  /** One row with the three columns `process_highscores` and `process_kill_statistics` set. */
  function Tag(row: Json, date: string, world: string, kind: string): Record {
    Columns(row)["extraction_date" := JStr(date)]["world" := JStr(world)]["type" := JStr(kind)]
  }

  /** The table written for `rows`: one record per row, in order, each carrying the row's
      own columns, overridden by the date, the world and the record kind. */
  function TagRows(rows: seq<Json>, date: string, world: string, kind: string): (table: seq<Record>)
    ensures |table| == |rows|
    ensures forall i :: 0 <= i < |rows| ==>
              && table[i].Keys == Columns(rows[i]).Keys + TagColumns
              && table[i]["extraction_date"] == JStr(date)
              && table[i]["world"] == JStr(world)
              && table[i]["type"] == JStr(kind)
              && forall c :: c in Columns(rows[i]) && c !in TagColumns ==> table[i][c] == Columns(rows[i])[c]
  {
    seq(|rows|, i requires 0 <= i < |rows| => Tag(rows[i], date, world, kind))
  }

  function HighscoresFile(world: string, date: string): string {
    "highscores_" + world + "_" + date + ".parquet"
  }

  function KillStatisticsFile(world: string, date: string): string {
    "killstatistics_" + world + "_" + date + ".parquet"
  }

  /** `os.path.join(ROOT_FOLDER, FOLDER_RANKING, world, filename)`. For a plain world name
      the joined path is written out (`PathsAreJoins` shows that both branches are the
      join), so that reasoning about a whole run does not evaluate the joins again. */
  function HighscoresPath(world: string, date: string): string {
    if PlainComponent(world) then RootFolder + "/" + FolderRanking + "/" + world + "/" + HighscoresFile(world, date)
    else Join(Join(Join(RootFolder, FolderRanking), world), HighscoresFile(world, date))
  }

  /** `os.path.join(ROOT_FOLDER, FOLDER_KILLSTATS, world, filename)`, written out the same way. */
  function KillStatisticsPath(world: string, date: string): string {
    if PlainComponent(world) then RootFolder + "/" + FolderKillStats + "/" + world + "/" + KillStatisticsFile(world, date)
    else Join(Join(Join(RootFolder, FolderKillStats), world), KillStatisticsFile(world, date))
  }

  /** `os.path.join(root, folder, world, file)` for plain components is the three of them
      separated by slashes. */
  lemma {:induction false} JoinThree(root: string, folder: string, world: string, file: string)
    requires PlainComponent(root) && PlainComponent(folder) && PlainComponent(world)
    requires file != [] && file[0] != '/'
    ensures Join(Join(Join(root, folder), world), file) == root + "/" + folder + "/" + world + "/" + file
  {
    assert folder[0] in folder && world[0] in world && root[|root| - 1] in root;
    JoinPlain(root, folder);
    var rf := root + "/" + folder;
    assert rf[|rf| - 1] == folder[|folder| - 1] && folder[|folder| - 1] in folder;
    JoinPlain(rf, world);
    var rfw := rf + "/" + world;
    assert rfw[|rfw| - 1] == world[|world| - 1] && world[|world| - 1] in world;
    JoinPlain(rfw, file);
  }

  /** Both output paths are `os.path.join` of their four components, for every world name. */
  lemma PathsAreJoins(world: string, date: string)
    ensures HighscoresPath(world, date) == Join(Join(Join(RootFolder, FolderRanking), world), HighscoresFile(world, date))
    ensures KillStatisticsPath(world, date) == Join(Join(Join(RootFolder, FolderKillStats), world), KillStatisticsFile(world, date))
  {
    if PlainComponent(world) {
      assert '/' !in RootFolder && '/' !in FolderRanking && '/' !in FolderKillStats;
      JoinThree(RootFolder, FolderRanking, world, HighscoresFile(world, date));
      JoinThree(RootFolder, FolderKillStats, world, KillStatisticsFile(world, date));
    }
  }

  /** For a world name without slashes the files land where the folder layout says:
      `dados/ranking/<world>/highscores_<world>_<date>.parquet` and
      `dados/kill_statistics/<world>/killstatistics_<world>_<date>.parquet`. */
  lemma PathShapes(world: string, date: string)
    requires PlainComponent(world)
    ensures HighscoresPath(world, date)
            == RootFolder + "/" + FolderRanking + "/" + world + "/" + HighscoresFile(world, date)
    ensures KillStatisticsPath(world, date)
            == RootFolder + "/" + FolderKillStats + "/" + world + "/" + KillStatisticsFile(world, date)
  {
  }

  /** Joining two relative components that need a separator. */
  lemma JoinPlain(a: string, b: string)
    requires a != [] && a[|a| - 1] != '/'
    requires b != [] && b[0] != '/'
    ensures Join(a, b) == a + "/" + b
  {
  }

  /** The text before the first slash. */
  function UpToSlash(s: string): string {
    if s == [] || s[0] == '/' then [] else [s[0]] + UpToSlash(s[1..])
  }

  lemma {:induction false} UpToSlashOf(a: string, rest: string)
    requires '/' !in a
    ensures UpToSlash(a + "/" + rest) == a
  {
    if a != [] {
      assert (a + "/" + rest)[1..] == a[1..] + "/" + rest;
      UpToSlashOf(a[1..], rest);
    }
  }

  /** If `prefix + a + "/" + ...` equals `prefix + b + "/" + ...` for slash-free a and b,
      then a == b. */
  lemma FolderComponentUnique(prefix: string, a: string, ra: string, b: string, rb: string)
    requires '/' !in a && '/' !in b
    requires prefix + a + "/" + ra == prefix + b + "/" + rb
    ensures a == b
  {
    var s := prefix + a + "/" + ra;
    assert s[|prefix|..] == a + "/" + ra;
    assert (prefix + b + "/" + rb)[|prefix|..] == b + "/" + rb;
    UpToSlashOf(a, ra);
    UpToSlashOf(b, rb);
  }

  /** Two different slash-free worlds never write the same file, and a ranking file is never
      a kill-statistics file: the only overwrites are of a world's own files. */
  lemma PathsSeparate(w1: string, d1: string, w2: string, d2: string)
    requires PlainComponent(w1) && PlainComponent(w2)
    ensures w1 != w2 ==> HighscoresPath(w1, d1) != HighscoresPath(w2, d2)
    ensures w1 != w2 ==> KillStatisticsPath(w1, d1) != KillStatisticsPath(w2, d2)
    ensures HighscoresPath(w1, d1) != KillStatisticsPath(w2, d2)
  {
    PathShapes(w1, d1);
    PathShapes(w2, d2);
    var rp := RootFolder + "/" + FolderRanking + "/";
    var kp := RootFolder + "/" + FolderKillStats + "/";
    if HighscoresPath(w1, d1) == HighscoresPath(w2, d2) {
      FolderComponentUnique(rp, w1, HighscoresFile(w1, d1), w2, HighscoresFile(w2, d2));
    }
    if KillStatisticsPath(w1, d1) == KillStatisticsPath(w2, d2) {
      FolderComponentUnique(kp, w1, KillStatisticsFile(w1, d1), w2, KillStatisticsFile(w2, d2));
    }
    assert HighscoresPath(w1, d1)[|RootFolder| + 1] == rp[|RootFolder| + 1] == FolderRanking[0];
    assert KillStatisticsPath(w2, d2)[|RootFolder| + 1] == kp[|RootFolder| + 1] == FolderKillStats[0];
  }

  // ================================================================ process_highscores

  /** The file a walk produces: the tagged rows, unless it raised or gathered nothing. */
  function HighscoresOutput(respond: string -> Reply, world: string, date: string): Option<Content> {
    var w := HighscoresWalk(respond, world);
    if w.end != WalkRaised && w.rows != [] then Some(Table(TagRows(w.rows, date, world, "highscores")))
    else None
  }

  function Apply(files: map<string, Content>, path: string, output: Option<Content>): map<string, Content> {
    if output.Some? then files[path := output.value] else files
  }

  function WithRows(prefix: seq<Json>, w: Walk): Walk {
    Walk(prefix + w.rows, w.lastPage, w.end)
  }

  lemma HighscoresUrlsSnoc(world: string, n: nat)
    ensures HighscoresUrls(world, n + 1) == HighscoresUrls(world, n) + [HighscoresUrl(world, n + 1)]
  {
  }

  /** `process_highscores(world)`: walk the pages, then write the tagged rows (overwriting
      any earlier file) if there are any. Returns whether the body raised. */
  method ProcessHighscores(net: Upstream, disk: Disk, world: string, date: string) returns (raised: bool)
    modifies net, disk
    ensures var w := HighscoresWalk(net.respond, world);
            && net.requested == old(net.requested) + HighscoresUrls(world, w.lastPage)
            && raised == (w.end == WalkRaised)
            && disk.files == Apply(old(disk.files), HighscoresPath(world, date), HighscoresOutput(net.respond, world, date))
  {
    ghost var pages := PagesOf(net.respond, world);
    var allPlayers: seq<Json> := [];
    var page: nat := 1;
    while true
      invariant 1 <= page <= MaxPages
      invariant net.requested == old(net.requested) + HighscoresUrls(world, page - 1)
      invariant disk.files == old(disk.files)
      invariant HighscoresWalk(net.respond, world) == WithRows(allPlayers, WalkFrom(pages, page))
      decreases MaxPages - page
    {
      HighscoresUrlsSnoc(world, page - 1);
      var data := net.GetApiData(HighscoresUrl(world, page));
      ghost var read := pages(page);
      assert read == ReadPage(data);
      assert allPlayers + [] == allPlayers;
      if !Present(data) {
        break;
      }
      var hasHighscores := In("highscores", data.value);
      if hasHighscores.Raised? {
        return true;
      }
      if !hasHighscores.value {
        break;
      }
      var highscores := Index(data.value, "highscores");
      if highscores.Raised? {
        return true;
      }
      var pageList := Get(highscores.value, "highscore_list", JArr([]));
      if pageList.Raised? {
        return true;
      }
      if !Truthy(pageList.value) {
        break;
      }
      var rows := Elements(pageList.value);
      if rows.Raised? {
        return true;
      }
      assert read == PageRows(rows.value);
      assert (allPlayers + rows.value) + WalkFrom(pages, page).rows[|rows.value|..] == allPlayers + WalkFrom(pages, page).rows;
      allPlayers := allPlayers + rows.value;
      if page >= MaxPages {
        assert HighscoresWalk(net.respond, world) == Walk(allPlayers, page, PageCeiling);
        break;
      }
      page := page + 1;
    }
    assert HighscoresWalk(net.respond, world) == Walk(allPlayers, page, HighscoresWalk(net.respond, world).end);
    if allPlayers != [] {
      disk.Write(HighscoresPath(world, date), Table(TagRows(allPlayers, date, world, "highscores")));
    }
    return false;
  }

  // ================================================================ process_kill_statistics

  datatype KillRead = NoEntries | Entries(rows: seq<Json>) | KillRaised

  /** The checks `process_kill_statistics` applies to its one response: nothing is written
      for a missing or falsy body, one without `killstatistics`, or a missing or empty
      `entries`; a list of entries becomes the table's rows. */
  function ReadKillStatistics(data: Option<Json>): (k: KillRead)
    ensures k.Entries? ==> k.rows != []
    ensures !Present(data) ==> k == NoEntries
  {
    if !Present(data) then NoEntries
    else
      match In("killstatistics", data.value)
      case Raised => KillRaised
      case Ok(false) => NoEntries
      case Ok(true) =>
        match Index(data.value, "killstatistics")
        case Raised => KillRaised
        case Ok(stats) =>
          match Get(stats, "entries", JArr([]))
          case Raised => KillRaised
          case Ok(entries) =>
            if !Truthy(entries) then NoEntries
            else if entries.JArr? then Entries(entries.items)
            else KillRaised
  }

  /** On an object body: no `killstatistics` writes nothing; a `killstatistics` object
      without `entries`, or with an empty list, writes nothing either; a non-empty list of
      entries becomes exactly the table's rows. */
  lemma ReadKillStatisticsObject(data: Option<Json>)
    requires data.Some? && data.value.JObj? && data.value.fields != map[]
    ensures "killstatistics" !in data.value.fields ==> ReadKillStatistics(data) == NoEntries
    ensures "killstatistics" in data.value.fields && data.value.fields["killstatistics"].JObj? ==>
              var h := data.value.fields["killstatistics"].fields;
              && ("entries" !in h ==> ReadKillStatistics(data) == NoEntries)
              && ("entries" in h && h["entries"] == JArr([]) ==> ReadKillStatistics(data) == NoEntries)
              && ("entries" in h && h["entries"].JArr? && h["entries"].items != [] ==>
                    ReadKillStatistics(data) == Entries(h["entries"].items))
  {
  }

  /** The kill-statistics file of one world, if one is written. */
  function KillStatisticsOutput(respond: string -> Reply, world: string, date: string): Option<Content> {
    var k := ReadKillStatistics(ApiData(respond(KillStatisticsUrl(world))));
    if k.Entries? then Some(Table(TagRows(k.rows, date, world, "kill_statistics"))) else None
  }

  /** `process_kill_statistics(world)`: exactly one request, then at most one write. */
  method ProcessKillStatistics(net: Upstream, disk: Disk, world: string, date: string) returns (raised: bool)
    modifies net, disk
    ensures net.requested == old(net.requested) + [KillStatisticsUrl(world)]
    ensures raised == ReadKillStatistics(ApiData(net.respond(KillStatisticsUrl(world)))).KillRaised?
    ensures disk.files == Apply(old(disk.files), KillStatisticsPath(world, date), KillStatisticsOutput(net.respond, world, date))
  {
    var data := net.GetApiData(KillStatisticsUrl(world));
    if !Present(data) {
      return false;
    }
    var hasStats := In("killstatistics", data.value);
    if hasStats.Raised? {
      return true;
    }
    if !hasStats.value {
      return false;
    }
    var stats := Index(data.value, "killstatistics");
    if stats.Raised? {
      return true;
    }
    var entries := Get(stats.value, "entries", JArr([]));
    if entries.Raised? {
      return true;
    }
    if Truthy(entries.value) {
      if !entries.value.JArr? {
        return true;
      }
      disk.Write(KillStatisticsPath(world, date), Table(TagRows(entries.value.items, date, world, "kill_statistics")));
    }
    return false;
  }

  // ================================================================ main

  /** The requests made and the files left by a run, and whether it was cut short by an
      exception. */
  datatype RunTrace = RunTrace(requests: seq<string>, files: map<string, Content>, raised: bool)

  /** The requests made for one world that does not raise: its highscore pages, then its
      kill statistics. */
  function WorldRequests(respond: string -> Reply, world: string): seq<string> {
    HighscoresUrls(world, HighscoresWalk(respond, world).lastPage) + [KillStatisticsUrl(world)]
  }

  /** One iteration of the loop in `main`: highscores, then kill statistics. */
  function WorldStep(respond: string -> Reply, date: string, world: string, files: map<string, Content>): RunTrace {
    var walk := HighscoresWalk(respond, world);
    if walk.end == WalkRaised then
      RunTrace(HighscoresUrls(world, walk.lastPage), files, true)
    else
      var afterRanking := Apply(files, HighscoresPath(world, date), HighscoresOutput(respond, world, date));
      RunTrace(WorldRequests(respond, world),
               Apply(afterRanking, KillStatisticsPath(world, date), KillStatisticsOutput(respond, world, date)),
               ReadKillStatistics(ApiData(respond(KillStatisticsUrl(world)))).KillRaised?)
  }

  /** What one pass of the loop does, given the world and the files left so far. */
  type WorldStepFn = (string, map<string, Content>) -> RunTrace

  function WorldSteps(respond: string -> Reply, date: string): WorldStepFn {
    (world: string, files: map<string, Content>) => WorldStep(respond, date, world, files)
  }

  /** The loop of `main` over `worlds`, in list order, stopping at the first exception. */
  function ProcessWorlds(step: WorldStepFn, worlds: seq<string>, files: map<string, Content>): RunTrace
    decreases |worlds|
  {
    if worlds == [] then RunTrace([], files, false)
    else
      var before := ProcessWorlds(step, worlds[..|worlds| - 1], files);
      if before.raised then before
      else
        var last := step(worlds[|worlds| - 1], before.files);
        RunTrace(before.requests + last.requests, last.files, last.raised)
  }

  /** `main` after its catalogue request: nothing more if that raised, otherwise the loop
      over the worlds to process. */
  function RankingRun(catalogue: Result<seq<string>>, step: WorldStepFn, files: map<string, Content>): RunTrace {
    match catalogue
    case Raised => RunTrace([WorldsUrl], files, true)
    case Ok(names) =>
      var t := ProcessWorlds(step, WorldsToProcess(names), files);
      RunTrace([WorldsUrl] + t.requests, t.files, t.raised)
  }

  /** `main` against the upstream `respond`. */
  function RankingMain(respond: string -> Reply, date: string, files: map<string, Content>): RunTrace {
    RankingRun(ActiveWorlds(ApiData(respond(WorldsUrl))), WorldSteps(respond, date), files)
  }

  /** Once a prefix of the worlds has raised, the rest of the list changes nothing. */
  lemma {:induction false} RaisedRunIsFinal(step: WorldStepFn, worlds: seq<string>, files: map<string, Content>, k: nat)
    requires k <= |worlds|
    requires ProcessWorlds(step, worlds[..k], files).raised
    ensures ProcessWorlds(step, worlds, files) == ProcessWorlds(step, worlds[..k], files)
    decreases |worlds|
  {
    if k < |worlds| {
      var init := worlds[..|worlds| - 1];
      assert init[..k] == worlds[..k];
      RaisedRunIsFinal(step, init, files, k);
    } else {
      assert worlds[..k] == worlds;
    }
  }

  /** The requests of each world in turn, concatenated in list order. */
  function Concatenated(requests: string -> seq<string>, worlds: seq<string>): seq<string> {
    if worlds == [] then [] else requests(worlds[0]) + Concatenated(requests, worlds[1..])
  }

  lemma {:induction false} ConcatenatedSnoc(requests: string -> seq<string>, worlds: seq<string>, w: string)
    ensures Concatenated(requests, worlds + [w]) == Concatenated(requests, worlds) + requests(w)
  {
    if worlds != [] {
      assert (worlds + [w])[1..] == worlds[1..] + [w];
      ConcatenatedSnoc(requests, worlds[1..], w);
    } else {
      assert worlds + [w] == [w];
    }
  }

  /** When a step that does not raise makes requests that depend on the world alone, a run
      that raises nowhere makes those requests world after world, in list order. */
  lemma {:induction false} RunRequestsOf(step: WorldStepFn, requests: string -> seq<string>, worlds: seq<string>,
                                         files: map<string, Content>)
    requires forall w, f :: !step(w, f).raised ==> step(w, f).requests == requests(w)
    requires !ProcessWorlds(step, worlds, files).raised
    ensures ProcessWorlds(step, worlds, files).requests == Concatenated(requests, worlds)
    decreases |worlds|
  {
    if worlds != [] {
      var init := worlds[..|worlds| - 1];
      RunRequestsOf(step, requests, init, files);
      ConcatenatedSnoc(requests, init, worlds[|worlds| - 1]);
      assert init + [worlds[|worlds| - 1]] == worlds;
    }
  }

  /** The requests of worlds that all run to completion. */
  function AllWorldRequests(respond: string -> Reply, worlds: seq<string>): seq<string> {
    Concatenated((world: string) => WorldRequests(respond, world), worlds)
  }

  /** A run that raises nowhere asks, world after world in list order, for that world's
      highscore pages and then for its kill statistics. */
  lemma RunRequestsInOrder(respond: string -> Reply, date: string, worlds: seq<string>, files: map<string, Content>)
    requires !ProcessWorlds(WorldSteps(respond, date), worlds, files).raised
    ensures ProcessWorlds(WorldSteps(respond, date), worlds, files).requests == AllWorldRequests(respond, worlds)
  {
    var step := WorldSteps(respond, date);
    forall w, f | !step(w, f).raised
      ensures step(w, f).requests == WorldRequests(respond, w)
    {
    }
    RunRequestsOf(step, (world: string) => WorldRequests(respond, world), worlds, files);
  }

  function Lookup(files: map<string, Content>, path: string): Option<Content> {
    if path in files then Some(files[path]) else None
  }

  /** What `path` holds after a write of `output` over `earlier`. */
  function After(earlier: Option<Content>, output: Option<Content>): Option<Content> {
    if output.Some? then output else earlier
  }

  /** After a run over slash-free worlds that raises nowhere, the ranking file of a world
      in the list holds its tagged rows when its walk gathered any and is as before otherwise,
      and likewise for its kill-statistics file; the files of a world not in the list are
      untouched. No world's write is lost to another's. */
  lemma {:induction false} RunFiles(respond: string -> Reply, date: string, worlds: seq<string>,
                                    files: map<string, Content>, v: string)
    requires PlainComponent(v)
    requires forall i :: 0 <= i < |worlds| ==> PlainComponent(worlds[i])
    requires !ProcessWorlds(WorldSteps(respond, date), worlds, files).raised
    ensures var out := ProcessWorlds(WorldSteps(respond, date), worlds, files).files;
            var hp, kp := HighscoresPath(v, date), KillStatisticsPath(v, date);
            && Lookup(out, hp) == (if v in worlds then After(Lookup(files, hp), HighscoresOutput(respond, v, date))
                                   else Lookup(files, hp))
            && Lookup(out, kp) == (if v in worlds then After(Lookup(files, kp), KillStatisticsOutput(respond, v, date))
                                   else Lookup(files, kp))
    decreases |worlds|
  {
    if worlds != [] {
      var init := worlds[..|worlds| - 1];
      var w := worlds[|worlds| - 1];
      var before := ProcessWorlds(WorldSteps(respond, date), init, files);
      assert !before.raised;
      RunFiles(respond, date, init, files, v);
      assert ProcessWorlds(WorldSteps(respond, date), worlds, files).files == WorldStep(respond, date, w, before.files).files;
      WorldStepLookup(respond, date, w, before.files, v);
      assert v in worlds <==> v in init || v == w;
      var out := ProcessWorlds(WorldSteps(respond, date), worlds, files).files;
      var hp, kp := HighscoresPath(v, date), KillStatisticsPath(v, date);
      CombineLookups(v in worlds, v in init, v == w, Lookup(files, hp), Lookup(before.files, hp), Lookup(out, hp),
                     HighscoresOutput(respond, v, date));
      CombineLookups(v in worlds, v in init, v == w, Lookup(files, kp), Lookup(before.files, kp), Lookup(out, kp),
                     KillStatisticsOutput(respond, v, date));
    }
  }

  /** One world's step changes that world's two files and no other world's. */
  lemma WorldStepLookup(respond: string -> Reply, date: string, w: string, files: map<string, Content>, v: string)
    requires PlainComponent(v) && PlainComponent(w)
    requires !WorldStep(respond, date, w, files).raised
    ensures var out := WorldStep(respond, date, w, files).files;
            var hp, kp := HighscoresPath(v, date), KillStatisticsPath(v, date);
            && Lookup(out, hp) == (if v == w then After(Lookup(files, hp), HighscoresOutput(respond, v, date))
                                   else Lookup(files, hp))
            && Lookup(out, kp) == (if v == w then After(Lookup(files, kp), KillStatisticsOutput(respond, v, date))
                                   else Lookup(files, kp))
  {
    var hp, kp := HighscoresPath(w, date), KillStatisticsPath(w, date);
    var mid := Apply(files, hp, HighscoresOutput(respond, w, date));
    assert WorldStep(respond, date, w, files).files == Apply(mid, kp, KillStatisticsOutput(respond, w, date));
    PathsSeparate(v, date, w, date);
    PathsSeparate(w, date, v, date);
    ApplyLookup(files, hp, HighscoresOutput(respond, w, date), HighscoresPath(v, date));
    ApplyLookup(mid, kp, KillStatisticsOutput(respond, w, date), HighscoresPath(v, date));
    ApplyLookup(files, hp, HighscoresOutput(respond, w, date), KillStatisticsPath(v, date));
    ApplyLookup(mid, kp, KillStatisticsOutput(respond, w, date), KillStatisticsPath(v, date));
  }

  /** One more world on the list: a path written by the new world and possibly by an
      earlier one holds what one write leaves, since the second write repeats the first. */
  lemma CombineLookups(inWorlds: bool, inInit: bool, isLast: bool,
                       initial: Option<Content>, before: Option<Content>, after: Option<Content>, output: Option<Content>)
    requires inWorlds == (inInit || isLast)
    requires before == if inInit then After(initial, output) else initial
    requires after == if isLast then After(before, output) else before
    ensures after == if inWorlds then After(initial, output) else initial
  {
  }

  lemma ApplyLookup(files: map<string, Content>, path: string, output: Option<Content>, q: string)
    ensures Lookup(Apply(files, path, output), q)
            == if q == path then After(Lookup(files, q), output) else Lookup(files, q)
  {
  }

  /** The loop of `main` one world further on: a step taken from the state after `i`
      worlds leaves the state after `i + 1`, and a step that raises ends the run. */
  lemma ExtendRun(step: WorldStepFn, worlds: seq<string>, files: map<string, Content>, i: nat,
                  earlier: seq<string>, stepRequests: seq<string>, stepFiles: map<string, Content>, stepRaised: bool)
    requires i < |worlds|
    requires !ProcessWorlds(step, worlds[..i], files).raised
    requires var last := step(worlds[i], ProcessWorlds(step, worlds[..i], files).files);
             stepRequests == last.requests && stepFiles == last.files && stepRaised == last.raised
    ensures var t := ProcessWorlds(step, worlds[..i + 1], files);
            && earlier + ProcessWorlds(step, worlds[..i], files).requests + stepRequests == earlier + t.requests
            && stepFiles == t.files
            && stepRaised == t.raised
    ensures stepRaised ==> ProcessWorlds(step, worlds, files) == ProcessWorlds(step, worlds[..i + 1], files)
  {
    assert worlds[..i + 1][..i] == worlds[..i];
    if stepRaised {
      RaisedRunIsFinal(step, worlds, files, i + 1);
    }
  }

  /** One pass of the loop in `main`: the world's highscores, then its kill statistics
      unless the first raised. */
  method RunWorld(net: Upstream, disk: Disk, world: string, date: string) returns (raised: bool)
    modifies net, disk
    ensures var step := WorldStep(net.respond, date, world, old(disk.files));
            && net.requested == old(net.requested) + step.requests
            && disk.files == step.files
            && raised == step.raised
  {
    var highscoresRaised := ProcessHighscores(net, disk, world, date);
    if highscoresRaised {
      return true;
    }
    raised := ProcessKillStatistics(net, disk, world, date);
  }

  /** The loop of `main` over `worlds`; returns whether an exception ended it. */
  method RunWorlds(net: Upstream, disk: Disk, worlds: seq<string>, date: string) returns (raised: bool)
    modifies net, disk
    ensures var t := ProcessWorlds(WorldSteps(net.respond, date), worlds, old(disk.files));
            && net.requested == old(net.requested) + t.requests
            && disk.files == t.files
            && raised == t.raised
  {
    for i := 0 to |worlds|
      invariant var t := ProcessWorlds(WorldSteps(net.respond, date), worlds[..i], old(disk.files));
                && net.requested == old(net.requested) + t.requests
                && disk.files == t.files
                && !t.raised
    {
      ghost var requestedBefore := net.requested;
      ghost var filesBefore := disk.files;
      var worldRaised := RunWorld(net, disk, worlds[i], date);
      ExtendRun(WorldSteps(net.respond, date), worlds, old(disk.files), i, old(net.requested),
                net.requested[|requestedBefore|..], disk.files, worldRaised);
      if worldRaised {
        return true;
      }
    }
    assert worlds[..|worlds|] == worlds;
    return false;
  }

  /** How `main` ends, in terms of its parts: the catalogue raised, or the loop ran over the
      worlds to process after the catalogue request. */
  lemma RankingRunOf(catalogue: Result<seq<string>>, step: WorldStepFn, files: map<string, Content>,
                     earlier: seq<string>, requested: seq<string>, after: map<string, Content>, raised: bool)
    requires catalogue.Raised? ==> requested == earlier + [WorldsUrl] && after == files && raised
    requires catalogue.Ok? ==>
               var t := ProcessWorlds(step, WorldsToProcess(catalogue.value), files);
               requested == earlier + [WorldsUrl] + t.requests && after == t.files && raised == t.raised
    ensures var t := RankingRun(catalogue, step, files);
            requested == earlier + t.requests && after == t.files && raised == t.raised
  {
    if catalogue.Ok? {
      var t := ProcessWorlds(step, WorldsToProcess(catalogue.value), files);
      assert earlier + [WorldsUrl] + t.requests == earlier + ([WorldsUrl] + t.requests);
    }
  }

  /** `main`: the catalogue, the fallback, then the loop; returns whether an exception ended
      the run early. */
  method RunRanking(net: Upstream, disk: Disk, date: string) returns (raised: bool)
    modifies net, disk
    ensures var t := RankingMain(net.respond, date, old(disk.files));
            && net.requested == old(net.requested) + t.requests
            && disk.files == t.files
            && raised == t.raised
  {
    var catalogue := GetActiveWorlds(net);
    if catalogue.Ok? {
      var worlds := WorldsToProcess(catalogue.value);
      raised := RunWorlds(net, disk, worlds, date);
    } else {
      raised := true;
    }
    RankingRunOf(catalogue, WorldSteps(net.respond, date), old(disk.files), old(net.requested), net.requested, disk.files, raised);
  }
}
