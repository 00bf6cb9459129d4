/** The boss catalogue updater: one wiki query per boss category, every listed title
    mapped to the category's label, and the resulting dictionary written as JSON. */
module Bosses {
  import opened Wrappers
  import opened PyJson
  import opened Http
  import opened Storage
  import opened UrlQuote

  const OutputFolder := "dados"
  const BossFile := "bosses.json"
  const WikiApi := "https://tibia.fandom.com/api.php"

  /** A wiki category and the label the dashboard shows for its bosses. */
  datatype Category = Category(title: string, tag: string)

  /** The wiki's name for the category of bosses of one class. */
  function WikiCategory(name: string): string {
    "Category:" + name + "_Bosses"
  }

  /** The categories, in the order the script visits them. */
  const Categories: seq<Category> := [
    Category(WikiCategory("Bane"), "Bane"),
    Category(WikiCategory("Archfoe"), "Archfoe"),
    Category(WikiCategory("Nemesis"), "Nemesis")
  ]

  /** The category titles, written out. */
  lemma CategoryTitlesAsWritten()
    ensures Categories[0].title == "Category:Bane_Bosses"
    ensures Categories[1].title == "Category:Archfoe_Bosses"
    ensures Categories[2].title == "Category:Nemesis_Bosses"
  {
  }

  /** The file the catalogue is written to. */
  const BossPath := Join(OutputFolder, BossFile)

  lemma BossPathIs()
    ensures BossPath == "dados/bosses.json"
  {
  }

  // ================================================================ the request

  const QueryHead := "?action=query&list=categorymembers&cmtitle="
  const QueryTail := "&cmlimit=500&format=json"

  /** The URL `requests` builds from the API address and the parameter dict: the pairs in
      insertion order, each value through `quote_plus`. Every key and every other value is
      made of unreserved characters and so is written as it is. */
  function CategoryUrl(title: string): string {
    WikiApi + QueryHead + QuotePlus(title) + QueryTail
  }

  /** The category title can be read back from its URL. */
  lemma CategoryUrlDecodes(title: string)
    ensures var url := CategoryUrl(title);
            && |url| == |WikiApi + QueryHead| + |QuotePlus(title)| + |QueryTail|
            && UnquotePlus(url[|WikiApi + QueryHead|..|url| - |QueryTail|]) == Some(title)
  {
    var url := CategoryUrl(title);
    assert url[|WikiApi + QueryHead|..|url| - |QueryTail|] == QuotePlus(title);
    QuoteRoundTrip(title);
  }

  /** Different categories are requested at different URLs. */
  lemma CategoryUrlInjective(t1: string, t2: string)
    ensures CategoryUrl(t1) == CategoryUrl(t2) ==> t1 == t2
  {
    CategoryUrlDecodes(t1);
    CategoryUrlDecodes(t2);
  }

  /** A `Category:Name` title is sent with its colon written `%3A`. */
  lemma CategoryUrlOfColonTitle(a: string, b: string)
    requires IsUnreservedText(a) && IsUnreservedText(b)
    ensures CategoryUrl(a + ":" + b) == WikiApi + QueryHead + a + "%3A" + b + QueryTail
  {
    QuotePlusColon(a, b);
  }

  /** A boss category is requested with the colon of its title written `%3A`. */
  lemma WikiCategoryUrl(name: string)
    requires IsUnreservedText(name)
    ensures CategoryUrl(WikiCategory(name)) == WikiApi + QueryHead + "Category%3A" + name + "_Bosses" + QueryTail
  {
    var b := name + "_Bosses";
    assert IsUnreservedText("Category") && IsUnreservedText(b);
    assert WikiCategory(name) == "Category" + ":" + b;
    CategoryUrlOfColonTitle("Category", b);
  }

  // ================================================================ one category

  /** `member["title"]`: the member must be a dict with a string title. */
  function Title(member: Json): Result<string> {
    match Index(member, "title")
    case Ok(JStr(s)) => Ok(s)
    case _ => Raised
  }

  /** The titles of `members`, read one by one. */
  function MemberTitles(members: seq<Json>): Result<seq<string>>
    decreases |members|
  {
    if members == [] then Ok([])
    else
      match MemberTitles(members[..|members| - 1])
      case Raised => Raised
      case Ok(titles) =>
        match Title(members[|members| - 1])
        case Raised => Raised
        case Ok(title) => Ok(titles + [title])
  }

  /** One title per member, in order; the list fails exactly when some member has none. */
  lemma {:induction false} MemberTitlesInOrder(members: seq<Json>)
    ensures MemberTitles(members).Ok? <==> forall i :: 0 <= i < |members| ==> Title(members[i]).Ok?
    ensures MemberTitles(members).Ok? ==>
              && |MemberTitles(members).value| == |members|
              && forall i :: 0 <= i < |members| ==> MemberTitles(members).value[i] == Title(members[i]).value
    decreases |members|
  {
    if members != [] {
      var init := members[..|members| - 1];
      MemberTitlesInOrder(init);
      assert forall i :: 0 <= i < |init| ==> init[i] == members[i];
    }
  }

  /** The titles one reply contributes. A missing or falsy reply, a reply without `query`
      and a query without `categorymembers` contribute nothing; the lookups and the loop
      raise on values of the wrong shape. */
  function CategoryTitles(data: Option<Json>): Result<seq<string>> {
    if !Present(data) then Ok([])
    else
      match In("query", data.value)
      case Raised => Raised
      case Ok(false) => Ok([])
      case Ok(true) =>
        match Index(data.value, "query")
        case Raised => Raised
        case Ok(query) =>
          match In("categorymembers", query)
          case Raised => Raised
          case Ok(false) => Ok([])
          case Ok(true) =>
            match Index(query, "categorymembers")
            case Raised => Raised
            case Ok(raw) =>
              match Elements(raw)
              case Raised => Raised
              case Ok(members) => MemberTitles(members)
  }

  /** A failed request and the guard clauses contribute no title. */
  lemma CategoryGuards(data: Option<Json>)
    ensures data.None? ==> CategoryTitles(data) == Ok([])
    ensures data.Some? && data.value.JObj? && "query" !in data.value.fields ==> CategoryTitles(data) == Ok([])
    ensures data.Some? && data.value.JObj? && "query" in data.value.fields
            && data.value.fields["query"].JObj? && "categorymembers" !in data.value.fields["query"].fields
            ==> CategoryTitles(data) == Ok([])
  {
  }

  /** A well-formed reply, whatever other keys it carries, yields the titles of its
      members, in order. */
  lemma CategoryOfWellFormedReply(body: map<string, Json>, q: map<string, Json>,
                                  members: seq<Json>, titles: seq<string>)
    requires "query" in body && body["query"] == JObj(q)
    requires "categorymembers" in q && q["categorymembers"] == JArr(members)
    requires |members| == |titles|
    requires forall i :: 0 <= i < |members| ==> Title(members[i]) == Ok(titles[i])
    ensures CategoryTitles(Some(JObj(body))) == Ok(titles)
  {
    MemberTitlesInOrder(members);
    assert MemberTitles(members).value == titles;
  }

  // ================================================================ the dictionary

  /** `boss_db[name] = label` for each name of `titles`, in order, with `tag` as the label. */
  function Assign(db: map<string, string>, titles: seq<string>, tag: string): map<string, string>
    decreases |titles|
  {
    if titles == [] then db
    else Assign(db, titles[..|titles| - 1], tag)[titles[|titles| - 1] := tag]
  }

  /** Assigning adds exactly the titles, maps each of them to the label, and keeps every
      other entry. */
  lemma {:induction false} AssignEntries(db: map<string, string>, titles: seq<string>, tag: string)
    ensures Assign(db, titles, tag).Keys == db.Keys + set t | t in titles
    ensures forall k :: k in Assign(db, titles, tag) ==>
              Assign(db, titles, tag)[k] == if k in titles then tag else db[k]
    decreases |titles|
  {
    if titles != [] {
      var init := titles[..|titles| - 1];
      AssignEntries(db, init, tag);
      assert titles == init + [titles[|titles| - 1]];
    }
  }

  /** `boss_db` after the categories `cats`, each read through `fetch`; an exception in
      any of them ends the script. */
  function Collect(cats: seq<Category>, fetch: string -> Option<Json>): Result<map<string, string>>
    decreases |cats|
  {
    if cats == [] then Ok(map[])
    else
      match Collect(cats[..|cats| - 1], fetch)
      case Raised => Raised
      case Ok(db) =>
        var last := cats[|cats| - 1];
        match CategoryTitles(fetch(last.title))
        case Raised => Raised
        case Ok(titles) => Ok(Assign(db, titles, last.tag))
  }

  /** The reply to category `c` was read and lists `name`. */
  predicate Lists(c: Category, fetch: string -> Option<Json>, name: string) {
    CategoryTitles(fetch(c.title)).Ok? && name in CategoryTitles(fetch(c.title)).value
  }

  /** The tag of the last category in `cats` that satisfies `listed`, if any does. */
  function LastTag(cats: seq<Category>, listed: Category -> bool): Option<string>
    decreases |cats|
  {
    if cats == [] then None
    else if listed(cats[|cats| - 1]) then Some(cats[|cats| - 1].tag)
    else LastTag(cats[..|cats| - 1], listed)
  }

  /** `LastTag` finds a tag exactly when some category satisfies `listed`, and then it is
      the tag of a category that does and after which none does. */
  lemma {:induction false} LastTagIsLast(cats: seq<Category>, listed: Category -> bool)
    ensures LastTag(cats, listed).Some? <==> exists i :: 0 <= i < |cats| && listed(cats[i])
    ensures LastTag(cats, listed).Some? ==>
              exists i :: 0 <= i < |cats| && listed(cats[i]) && cats[i].tag == LastTag(cats, listed).value
                          && forall j :: i < j < |cats| ==> !listed(cats[j])
    decreases |cats|
  {
    if cats != [] {
      var init := cats[..|cats| - 1];
      var n := |cats| - 1;
      LastTagIsLast(init, listed);
      assert forall i :: 0 <= i < |init| ==> init[i] == cats[i];
      if !listed(cats[n]) && LastTag(init, listed).Some? {
        var i :| 0 <= i < |init| && listed(init[i]) && init[i].tag == LastTag(init, listed).value
                 && forall j :: i < j < |init| ==> !listed(init[j]);
        assert forall j :: i < j < |cats| ==> !listed(cats[j]);
      }
    }
  }

  /** The reference reading of the dictionary, scanning from the end: the label of the last
      category that lists `name`, if any does. */
  function LastLabel(cats: seq<Category>, fetch: string -> Option<Json>, name: string): Option<string> {
    LastTag(cats, (c: Category) => Lists(c, fetch, name))
  }

  /** A category whose request failed changes nothing: the run is the one without it. */
  lemma {:induction false} FailedCategorySkipped(cats: seq<Category>, fetch: string -> Option<Json>, k: nat)
    requires k < |cats|
    requires fetch(cats[k].title).None?
    ensures Collect(cats, fetch) == Collect(cats[..k] + cats[k + 1..], fetch)
    decreases |cats|
  {
    var init := cats[..|cats| - 1];
    if k == |cats| - 1 {
      assert cats[..k] + cats[k + 1..] == init;
      assert CategoryTitles(fetch(cats[k].title)) == Ok([]);
    } else {
      FailedCategorySkipped(init, fetch, k);
      var last := cats[|cats| - 1];
      var shorter := init[..k] + init[k + 1..];
      assert cats[..k] == init[..k];
      assert cats[k + 1..] == init[k + 1..] + [last];
      var rest := cats[..k] + cats[k + 1..];
      assert rest == shorter + [last];
      assert rest[..|rest| - 1] == shorter;
    }
  }

  /** When every request fails the dictionary is empty, and it is still written. */
  lemma {:induction false} NoRepliesEmptyDictionary(cats: seq<Category>, fetch: string -> Option<Json>)
    requires forall i :: 0 <= i < |cats| ==> fetch(cats[i].title).None?
    ensures Collect(cats, fetch) == Ok(map[])
    decreases |cats|
  {
    if cats != [] {
      var init := cats[..|cats| - 1];
      assert forall i :: 0 <= i < |init| ==> init[i] == cats[i];
      NoRepliesEmptyDictionary(init, fetch);
      assert CategoryTitles(fetch(cats[|cats| - 1].title)) == Ok([]);
    }
  }

  /** The run fails exactly when one category's reply has the wrong shape. */
  lemma {:induction false} CollectRaises(cats: seq<Category>, fetch: string -> Option<Json>)
    ensures Collect(cats, fetch).Raised? <==>
              exists i :: 0 <= i < |cats| && CategoryTitles(fetch(cats[i].title)).Raised?
    decreases |cats|
  {
    if cats != [] {
      var init := cats[..|cats| - 1];
      CollectRaises(init, fetch);
      assert forall i :: 0 <= i < |init| ==> init[i] == cats[i];
    }
  }

  /** Every key of the dictionary is a title some category lists, and its value is the
      label of the last category that lists it: a later category overrides an earlier one. */
  lemma {:induction false} CollectIsLastLabel(cats: seq<Category>, fetch: string -> Option<Json>)
    requires Collect(cats, fetch).Ok?
    ensures forall name :: name in Collect(cats, fetch).value <==> LastLabel(cats, fetch, name).Some?
    ensures forall name :: name in Collect(cats, fetch).value ==>
              Collect(cats, fetch).value[name] == LastLabel(cats, fetch, name).value
    decreases |cats|
  {
    if cats != [] {
      var init := cats[..|cats| - 1];
      var last := cats[|cats| - 1];
      CollectIsLastLabel(init, fetch);
      var titles := CategoryTitles(fetch(last.title)).value;
      AssignEntries(Collect(init, fetch).value, titles, last.tag);
    }
  }

  /** The dictionary in terms of the categories themselves: its keys are the titles the
      read categories list, and each maps to the label of a category that lists it and
      after which no category does. */
  lemma CollectEntries(cats: seq<Category>, fetch: string -> Option<Json>, name: string)
    requires Collect(cats, fetch).Ok?
    ensures name in Collect(cats, fetch).value <==> exists i :: 0 <= i < |cats| && Lists(cats[i], fetch, name)
    ensures name in Collect(cats, fetch).value ==>
              exists i :: 0 <= i < |cats| && Lists(cats[i], fetch, name)
                          && Collect(cats, fetch).value[name] == cats[i].tag
                          && forall j :: i < j < |cats| ==> !Lists(cats[j], fetch, name)
  {
    CollectIsLastLabel(cats, fetch);
    LastTagIsLast(cats, (c: Category) => Lists(c, fetch, name));
  }

  // ================================================================ the requests

  /** The categories the script requests: all of them, unless one raises, which ends the
      loop after its own request. */
  function Attempted(cats: seq<Category>, fetch: string -> Option<Json>): (r: seq<Category>)
    ensures r <= cats
    decreases |cats|
  {
    if cats == [] then []
    else if Collect(cats[..|cats| - 1], fetch).Raised? then Attempted(cats[..|cats| - 1], fetch)
    else cats
  }

  /** A run that completes requests every category; one that fails stops at the category
      that raised, having read every earlier one. */
  lemma {:induction false} AttemptedStopsAtFailure(cats: seq<Category>, fetch: string -> Option<Json>)
    ensures Collect(cats, fetch).Ok? ==> Attempted(cats, fetch) == cats
    ensures Collect(cats, fetch).Raised? ==>
              var n := |Attempted(cats, fetch)|;
              && n > 0
              && Collect(cats[..n], fetch).Raised?
              && Collect(cats[..n - 1], fetch).Ok?
    decreases |cats|
  {
    if cats != [] {
      var init := cats[..|cats| - 1];
      AttemptedStopsAtFailure(init, fetch);
      if Collect(init, fetch).Raised? {
        assert cats[..|Attempted(init, fetch)|] == init[..|Attempted(init, fetch)|];
        assert cats[..|Attempted(init, fetch)| - 1] == init[..|Attempted(init, fetch)| - 1];
      } else {
        assert cats[..|cats|] == cats;
      }
    }
  }

  /** Once a prefix raises, the whole run raises and requests no more. */
  lemma {:induction false} RaisedPrefix(cats: seq<Category>, fetch: string -> Option<Json>, n: nat)
    requires 0 < n <= |cats|
    requires Collect(cats[..n], fetch).Raised?
    ensures Collect(cats, fetch).Raised?
    ensures Attempted(cats, fetch) == Attempted(cats[..n], fetch)
    decreases |cats| - n
  {
    if n < |cats| {
      var init := cats[..|cats| - 1];
      assert init[..n] == cats[..n];
      RaisedPrefix(init, fetch, n);
    } else {
      assert cats[..n] == cats;
    }
  }

  /** The URLs of the given categories, in order. */
  function Urls(cats: seq<Category>): (r: seq<string>)
    ensures |r| == |cats|
    ensures forall i :: 0 <= i < |cats| ==> r[i] == CategoryUrl(cats[i].title)
  {
    seq(|cats|, i requires 0 <= i < |cats| => CategoryUrl(cats[i].title))
  }

  /** Categories with different titles are requested at different URLs. */
  lemma UrlsDistinct(cats: seq<Category>)
    requires forall i, j :: 0 <= i < j < |cats| ==> cats[i].title != cats[j].title
    ensures forall i, j :: 0 <= i < j < |cats| ==> Urls(cats)[i] != Urls(cats)[j]
  {
    forall i, j | 0 <= i < j < |cats| ensures Urls(cats)[i] != Urls(cats)[j] {
      CategoryUrlInjective(cats[i].title, cats[j].title);
    }
  }

  /** The three categories are requested at three different URLs. */
  lemma RequestsAreDistinct()
    ensures forall i, j :: 0 <= i < j < |Categories| ==> Urls(Categories)[i] != Urls(Categories)[j]
  {
    CategoryTitlesAsWritten();
    assert Categories[0].title != Categories[1].title;
    assert Categories[0].title != Categories[2].title;
    assert Categories[1].title[9] != Categories[2].title[9];
    UrlsDistinct(Categories);
  }

  // ================================================================ the script

  /** What `get_api_data` returns for each category title. */
  function Fetcher(respond: string -> Reply): string -> Option<Json> {
    title => ApiData(respond(CategoryUrl(title)))
  }

  /** The configured categories: every value is one of the three labels, and a boss listed
      under Nemesis is labelled Nemesis whatever else lists it. */
  lemma ConfiguredLabels(respond: string -> Reply)
    requires Collect(Categories, Fetcher(respond)).Ok?
    ensures forall name :: name in Collect(Categories, Fetcher(respond)).value ==>
              Collect(Categories, Fetcher(respond)).value[name] in {"Bane", "Archfoe", "Nemesis"}
    ensures var nemesis := CategoryTitles(Fetcher(respond)(Categories[2].title));
            forall name :: nemesis.Ok? && name in nemesis.value ==>
              name in Collect(Categories, Fetcher(respond)).value
              && Collect(Categories, Fetcher(respond)).value[name] == "Nemesis"
  {
    var fetch := Fetcher(respond);
    CollectIsLastLabel(Categories, fetch);
    assert forall i :: 0 <= i < |Categories| ==> Categories[i].tag in {"Bane", "Archfoe", "Nemesis"};
    forall name | name in Collect(Categories, fetch).value
      ensures Collect(Categories, fetch).value[name] in {"Bane", "Archfoe", "Nemesis"}
    {
      LastTagIsLast(Categories, (c: Category) => Lists(c, fetch, name));
    }
  }

  /** One category: `tag` assigned to every member's title, read as the loop reads them. */
  method AddCategory(data: Option<Json>, tag: string, db: map<string, string>)
    returns (r: Result<map<string, string>>)
    ensures r == match CategoryTitles(data)
                 case Raised => Raised
                 case Ok(titles) => Ok(Assign(db, titles, tag))
  {
    if !(data.Some? && Truthy(data.value)) {
      return Ok(db);
    }
    var hasQuery := In("query", data.value);
    if hasQuery.Raised? {
      return Raised;
    }
    if !hasQuery.value {
      return Ok(db);
    }
    var query := Index(data.value, "query");
    if query.Raised? {
      return Raised;
    }
    var hasMembers := In("categorymembers", query.value);
    if hasMembers.Raised? {
      return Raised;
    }
    if !hasMembers.value {
      return Ok(db);
    }
    var raw := Index(query.value, "categorymembers");
    if raw.Raised? {
      return Raised;
    }
    var members := Elements(raw.value);
    if members.Raised? {
      return Raised;
    }
    r := AssignMembers(members.value, tag, db);
  }

  /** The inner loop: `boss_db[member["title"]] = label` for each member in turn. */
  method AssignMembers(items: seq<Json>, tag: string, db: map<string, string>)
    returns (r: Result<map<string, string>>)
    ensures r == match MemberTitles(items)
                 case Raised => Raised
                 case Ok(titles) => Ok(Assign(db, titles, tag))
  {
    var bossDb := db;
    ghost var titles: seq<string> := [];
    for i := 0 to |items|
      invariant MemberTitles(items[..i]) == Ok(titles)
      invariant bossDb == Assign(db, titles, tag)
    {
      assert items[..i + 1][..i] == items[..i];
      var title := Title(items[i]);
      if title.Raised? {
        MemberTitlesInOrder(items);
        return Raised;
      }
      bossDb := bossDb[title.value := tag];
      titles := titles + [title.value];
    }
    assert items[..|items|] == items;
    return Ok(bossDb);
  }

  /** One more category read: what the run knows after `n + 1` categories, given what it
      knew after `n`. */
  lemma ExtendCollect(cats: seq<Category>, fetch: string -> Option<Json>, n: nat,
                      db: map<string, string>, added: Result<map<string, string>>)
    requires n < |cats|
    requires Collect(cats[..n], fetch) == Ok(db)
    requires Attempted(cats[..n], fetch) == cats[..n]
    requires added.Raised? <==> CategoryTitles(fetch(cats[n].title)).Raised?
    requires added.Ok? ==> added.value == Assign(db, CategoryTitles(fetch(cats[n].title)).value, cats[n].tag)
    ensures added.Raised? ==> Collect(cats, fetch).Raised? && Attempted(cats, fetch) == cats[..n + 1]
    ensures added.Ok? ==> Collect(cats[..n + 1], fetch) == added && Attempted(cats[..n + 1], fetch) == cats[..n + 1]
  {
    assert cats[..n + 1][..n] == cats[..n];
    if added.Raised? {
      RaisedPrefix(cats, fetch, n + 1);
    }
  }

  /** Requesting one more category appends its URL. */
  lemma UrlsSnoc(cats: seq<Category>, n: nat)
    requires n < |cats|
    ensures Urls(cats[..n + 1]) == Urls(cats[..n]) + [CategoryUrl(cats[n].title)]
  {
  }

  /** The loop of the script over `cats`: one request per category, in order, each reply
      merged into the dictionary; it stops at the first exception. */
  method ReadCategories(net: Upstream, cats: seq<Category>) returns (bossDb: Result<map<string, string>>)
    modifies net
    ensures bossDb == Collect(cats, Fetcher(net.respond))
    ensures net.requested == old(net.requested) + Urls(Attempted(cats, Fetcher(net.respond)))
  {
    ghost var fetch := Fetcher(net.respond);
    ghost var requestedBefore := net.requested;
    var db: map<string, string> := map[];
    for c := 0 to |cats|
      invariant Collect(cats[..c], fetch) == Ok(db)
      invariant Attempted(cats[..c], fetch) == cats[..c]
      invariant net.requested == requestedBefore + Urls(cats[..c])
    {
      var data := net.GetApiData(CategoryUrl(cats[c].title));
      assert data == fetch(cats[c].title);
      var added := AddCategory(data, cats[c].tag, db);
      ExtendCollect(cats, fetch, c, db, added);
      UrlsSnoc(cats, c);
      if added.Raised? {
        return Raised;
      }
      db := added.value;
    }
    assert cats[..|cats|] == cats;
    return Ok(db);
  }

  /** The script: the categories in order, then the dictionary written to `dados/bosses.json`.
      Returns whether an exception ended it; the file is then left as it was. */
  method UpdateBossDatabase(net: Upstream, disk: Disk) returns (raised: bool)
    modifies net, disk
    ensures raised == Collect(Categories, Fetcher(net.respond)).Raised?
    ensures net.requested == old(net.requested) + Urls(Attempted(Categories, Fetcher(net.respond)))
    ensures raised ==> disk.files == old(disk.files)
    ensures !raised ==>
              disk.files == old(disk.files)[BossPath := JsonDict(Collect(Categories, Fetcher(net.respond)).value)]
  {
    var bossDb := ReadCategories(net, Categories);
    if bossDb.Raised? {
      return true;
    }
    disk.Write(BossPath, JsonDict(bossDb.value));
    return false;
  }
}
