/**
 * The extraction passes of `WebScraper` in scraper_engine.py and the
 * shaping of the result of `scrape_url`. The HTML parser is not modelled:
 * a page is given as the element sequences and texts the passes read from
 * it, after `<script>` and `<style>` elements have been removed.
 */
module Scraper {
  import opened Wrappers
  import opened Text
  import opened Seqs

  // ----- The parsed page -----

  /** A `<meta>` element's `name`, `property` and `content` attributes. */
  datatype Meta = Meta(name: Option<string>, property: Option<string>, content: Option<string>)

  /** An `<a>` element: its `href` attribute and its stripped text. */
  datatype Anchor = Anchor(href: Option<string>, text: string)

  /** An `<img>` element: its `src` and `alt` attributes. */
  datatype Img = Img(src: Option<string>, alt: Option<string>)

  /** The stripped texts of one `<tr>`'s `td`/`th` cells. */
  type Row = seq<string>

  /** The rows of one `<table>`. */
  type Table = seq<Row>

  datatype Page = Page(
    title: Option<string>,        // text of the first <title>, if there is one
    h1: Option<string>,           // text of the first <h1>, if there is one
    matches: map<string, string>, // CSS selector -> space-separated stripped text of its first match
    text: string,                 // space-separated stripped text of the whole page
    metas: seq<Meta>,
    anchors: seq<Anchor>,
    images: seq<Img>,
    tables: seq<Table>)

  // ----- What is extracted -----

  datatype Link = Link(url: string, text: string)
  datatype Image = Image(url: string, alt: string)

  /** The dictionary `_extract_structured_data` returns; `forms` is never filled. */
  datatype StructuredData = StructuredData(
    metaTags: map<string, string>,
    links: seq<Link>,
    images: seq<Image>,
    tables: seq<Table>,
    forms: seq<map<string, string>>)

  const MaxLinks := 50
  const MaxImages := 20
  const MaxTables := 5
  const MaxRows := 10
  const MaxText := 100
  const MaxContent := 10000

  // ----- Title -----

  /**
   * `_extract_title`: the stripped text of the first `<title>`, else of the
   * first `<h1>`, else None. A present but empty `<title>` still wins,
   * because a found tag is truthy whatever its text.
   */
  function ExtractTitle(p: Page): (r: Option<string>)
    ensures p.title.Some? ==> r == Some(Trim(p.title.value))
    ensures p.title.None? && p.h1.Some? ==> r == Some(Trim(p.h1.value))
    ensures r.None? <==> p.title.None? && p.h1.None?
    ensures r.Some? ==> r.value == [] || (!IsSpace(r.value[0]) && !IsSpace(r.value[|r.value| - 1]))
  {
    if p.title.Some? then Some(Trim(p.title.value))
    else if p.h1.Some? then Some(Trim(p.h1.value))
    else None
  }

  // ----- Main content -----

  /** The container selectors `_extract_main_content` tries, in this order. */
  const ContentSelectors: seq<string> :=
    ["main", "article", ".content", ".main-content", "#content", "#main", ".post-content", ".entry-content"]

  /** `selectors[i]` is the first of `selectors` that matches the page. */
  predicate FirstMatchAt(selectors: seq<string>, matches: map<string, string>, i: int) {
    0 <= i < |selectors| && selectors[i] in matches && forall j :: 0 <= j < i ==> selectors[j] !in matches
  }

  /** The text of the first selector in `selectors` that matches the page. */
  function FirstMatch(selectors: seq<string>, matches: map<string, string>): (r: Option<string>)
    ensures r.None? <==> forall i :: 0 <= i < |selectors| ==> selectors[i] !in matches
    ensures forall i :: FirstMatchAt(selectors, matches, i) ==> r == Some(matches[selectors[i]])
  {
    if selectors == [] then None
    else if selectors[0] in matches then Some(matches[selectors[0]])
    else
      var r := FirstMatch(selectors[1..], matches);
      assert forall i :: 1 <= i < |selectors| ==> selectors[i] == selectors[1..][i - 1];
      assert forall i :: FirstMatchAt(selectors, matches, i) ==> FirstMatchAt(selectors[1..], matches, i - 1);
      r
  }

  /**
   * The text `_extract_main_content` starts from: the text of the first
   * container that matches when that text is not empty, and the whole
   * page's text otherwise (nothing matched, or the match was empty).
   */
  function RawContent(p: Page): (r: string)
    ensures forall i :: FirstMatchAt(ContentSelectors, p.matches, i) ==>
      r == (if p.matches[ContentSelectors[i]] != "" then p.matches[ContentSelectors[i]] else p.text)
    ensures (forall i :: 0 <= i < |ContentSelectors| ==> ContentSelectors[i] !in p.matches) ==> r == p.text
  {
    var m := FirstMatch(ContentSelectors, p.matches).GetOr("");
    if m == "" then p.text else m
  }

  /**
   * `re.sub(r'\s+', ' ', raw)[:10000]`: the collapsed text, cut at 10000
   * characters.
   */
  function MainContent(p: Page): (r: string)
    ensures |r| == if |CollapseSpaces(RawContent(p))| <= MaxContent then |CollapseSpaces(RawContent(p))| else MaxContent
    ensures r == CollapseSpaces(RawContent(p))[..|r|]
    ensures |r| <= MaxContent
    ensures NoDoubleSpace(r)
    ensures forall i :: 0 <= i < |r| && IsSpace(r[i]) ==> r[i] == ' '
  {
    var c := CollapseSpaces(RawContent(p));
    NoDoubleSpacePrefix(c, MaxContent);
    Take(c, MaxContent)
  }

  /** Below the cap, the main content keeps every non-whitespace character of its source, in order. */
  lemma MainContentKeepsText(p: Page)
    requires |CollapseSpaces(RawContent(p))| <= MaxContent
    ensures NonSpace(MainContent(p)) == NonSpace(RawContent(p))
  {
    CollapseKeepsText(RawContent(p));
  }

  /** `_extract_main_content`: try the selectors in order, stop at the first match. */
  method ExtractMainContent(p: Page) returns (content: string)
    ensures content == MainContent(p)
    ensures |content| <= MaxContent && NoDoubleSpace(content)
  {
    var mainContent := "";
    var i := 0;
    while i < |ContentSelectors|
      invariant 0 <= i <= |ContentSelectors|
      invariant mainContent == ""
      invariant FirstMatch(ContentSelectors, p.matches) == FirstMatch(ContentSelectors[i..], p.matches)
    {
      var selector := ContentSelectors[i];
      if selector in p.matches {
        mainContent := p.matches[selector];
        break;
      }
      assert ContentSelectors[i..][1..] == ContentSelectors[i + 1..];
      i := i + 1;
    }
    assert mainContent == FirstMatch(ContentSelectors, p.matches).GetOr("");
    if mainContent == "" {
      mainContent := p.text;
    }
    var collapsed := CollapseSpaces(mainContent);
    content := Take(collapsed, MaxContent);
  }

  // ----- Meta tags -----

  /** `meta.get('name') or meta.get('property')`: the name unless it is absent or empty. */
  function MetaKey(m: Meta): Option<string> {
    if m.name.Some? && m.name.value != "" then m.name else m.property
  }

  /** `if name and content`: both the key and the content are non-empty. */
  predicate MetaRecorded(m: Meta) {
    MetaKey(m).Some? && MetaKey(m).value != "" && m.content.Some? && m.content.value != ""
  }

  /** The `i`-th meta element is recorded under key `k`. */
  predicate RecordsKey(ms: seq<Meta>, i: int, k: string) {
    0 <= i < |ms| && MetaRecorded(ms[i]) && MetaKey(ms[i]).value == k
  }

  /** The `meta_tags` dictionary after assigning every recorded meta element in order. */
  function MetaTags(ms: seq<Meta>): (r: map<string, string>)
    ensures forall k :: k in r ==> k != "" && r[k] != ""
  {
    if ms == [] then map[]
    else
      var init := MetaTags(ms[..|ms| - 1]);
      var m := ms[|ms| - 1];
      if MetaRecorded(m) then init[MetaKey(m).value := m.content.value] else init
  }

  /**
   * A key is present exactly when some meta element records it, and its
   * value is the content of the LAST element that does.
   */
  lemma {:induction false} MetaTagsLastWins(ms: seq<Meta>)
    ensures forall k :: k in MetaTags(ms) <==> exists i :: RecordsKey(ms, i, k)
    ensures forall k :: k in MetaTags(ms) ==>
      exists i :: RecordsKey(ms, i, k) && MetaTags(ms)[k] == ms[i].content.value
                  && forall j :: i < j < |ms| ==> !RecordsKey(ms, j, k)
  {
    if ms != [] {
      var n := |ms| - 1;
      var init := ms[..n];
      var m := ms[n];
      var initMap := MetaTags(init);
      var r := MetaTags(ms);
      MetaTagsLastWins(init);
      assert r == if MetaRecorded(m) then initMap[MetaKey(m).value := m.content.value] else initMap;
      assert forall i, k :: 0 <= i < n ==> (RecordsKey(init, i, k) <==> RecordsKey(ms, i, k));
      forall k | k in r
        ensures exists i :: RecordsKey(ms, i, k) && r[k] == ms[i].content.value
                            && forall j :: i < j < |ms| ==> !RecordsKey(ms, j, k)
      {
        if RecordsKey(ms, n, k) {
          assert r[k] == ms[n].content.value;
        } else {
          assert k in initMap && r[k] == initMap[k];
          var i :| RecordsKey(init, i, k) && initMap[k] == init[i].content.value
                   && forall j :: i < j < |init| ==> !RecordsKey(init, j, k);
          assert RecordsKey(ms, i, k);
        }
      }
    }
  }

  // ----- Links, images, tables -----

  /** `soup.find_all('a', href=True)` keeps the anchors that carry an href attribute. */
  function HrefFilter(a: Anchor): Option<Anchor> {
    if a.href.Some? then Some(a) else None
  }

  /** A kept link: href and text both non-empty; the text cut to 100 characters. */
  function LinkOf(base: string, join: (string, string) -> string, a: Anchor): (r: Option<Link>)
    ensures r.Some? <==> a.href.Some? && a.href.value != "" && a.text != ""
    ensures r.Some? ==> r.value.url == join(base, a.href.value) && r.value.text == Take(a.text, MaxText)
  {
    if a.href.Some? && a.href.value != "" && a.text != "" then
      Some(Link(join(base, a.href.value), Take(a.text, MaxText)))
    else None
  }

  /** A kept image: a non-empty src; `alt` defaults to '' and is cut to 100 characters. */
  function ImageOf(base: string, join: (string, string) -> string, img: Img): (r: Option<Image>)
    ensures r.Some? <==> img.src.Some? && img.src.value != ""
    ensures r.Some? ==> r.value.url == join(base, img.src.value) && r.value.alt == Take(img.alt.GetOr(""), MaxText)
  {
    if img.src.Some? && img.src.value != "" then
      Some(Image(join(base, img.src.value), Take(img.alt.GetOr(""), MaxText)))
    else None
  }

  /** `if row_data:` keeps a row with at least one cell. */
  function RowFilter(row: Row): Option<Row> {
    if row != [] then Some(row) else None
  }

  /** The first ten rows with their empty rows dropped; None when nothing is left. */
  function TableOf(t: Table): (r: Option<Table>)
    ensures r.Some? ==> 1 <= |r.value| <= MaxRows && forall row :: row in r.value ==> row != []
    ensures r.Some? ==> forall row :: row in r.value ==> row in Take(t, MaxRows)
    ensures r.Some? ==> forall row :: row in Take(t, MaxRows) && row != [] ==> row in r.value
    ensures r.None? <==> forall row :: row in Take(t, MaxRows) ==> row == []
  {
    var rows := FilterMap(Take(t, MaxRows), RowFilter);
    FilterMapMembers(Take(t, MaxRows), RowFilter);
    if rows == [] then None
    else
      assert rows[0] in rows;
      Some(rows)
  }

  function Links(candidates: seq<Anchor>, base: string, join: (string, string) -> string): seq<Link> {
    FilterMap(candidates, a => LinkOf(base, join, a))
  }

  function Images(candidates: seq<Img>, base: string, join: (string, string) -> string): seq<Image> {
    FilterMap(candidates, img => ImageOf(base, join, img))
  }

  /** The anchors the link pass visits: the first 50 that carry an href. */
  function LinkCandidates(p: Page): seq<Anchor> {
    Take(FilterMap(p.anchors, HrefFilter), MaxLinks)
  }

  /** What `_extract_structured_data` returns for page `p` fetched from `base`. */
  function StructuredDataOf(p: Page, base: string, join: (string, string) -> string): StructuredData {
    StructuredData(
      MetaTags(p.metas),
      Links(LinkCandidates(p), base, join),
      Images(Take(p.images, MaxImages), base, join),
      FilterMap(Take(p.tables, MaxTables), TableOf),
      [])
  }

  /** The caps and filters that bound every list of the structured data. */
  predicate Bounded(d: StructuredData) {
    && |d.links| <= MaxLinks
    && (forall l :: l in d.links ==> l.text != "" && |l.text| <= MaxText)
    && |d.images| <= MaxImages
    && (forall im :: im in d.images ==> |im.alt| <= MaxText)
    && |d.tables| <= MaxTables
    && (forall t :: t in d.tables ==> 1 <= |t| <= MaxRows && forall row :: row in t ==> row != [])
    && d.forms == []
  }

  lemma StructuredDataBounded(p: Page, base: string, join: (string, string) -> string)
    ensures Bounded(StructuredDataOf(p, base, join))
  {
    FilterMapMembers(LinkCandidates(p), a => LinkOf(base, join, a));
    FilterMapMembers(Take(p.images, MaxImages), img => ImageOf(base, join, img));
    FilterMapMembers(Take(p.tables, MaxTables), TableOf);
  }

  /**
   * Every link comes from one of the first 50 anchors with an href, and
   * every such anchor with a non-empty href and text gives one.
   */
  lemma LinksProvenance(p: Page, base: string, join: (string, string) -> string)
    ensures forall l :: l in StructuredDataOf(p, base, join).links ==>
      exists a :: a in LinkCandidates(p) && a.href.Some? && l == Link(join(base, a.href.value), Take(a.text, MaxText))
    ensures forall a :: a in LinkCandidates(p) && a.href.Some? && a.href.value != "" && a.text != "" ==>
      Link(join(base, a.href.value), Take(a.text, MaxText)) in StructuredDataOf(p, base, join).links
  {
    FilterMapMembers(LinkCandidates(p), a => LinkOf(base, join, a));
  }

  /** Links keep the document order: the links of a concatenation are concatenated. */
  lemma LinksInOrder(xs: seq<Anchor>, ys: seq<Anchor>, base: string, join: (string, string) -> string)
    ensures Links(xs + ys, base, join) == Links(xs, base, join) + Links(ys, base, join)
  {
    FilterMapAppend(xs, ys, a => LinkOf(base, join, a));
  }

  /** The meta-tag pass of `_extract_structured_data`: assign into the dictionary, later keys overwrite. */
  method ExtractMetaTags(metas: seq<Meta>) returns (metaTags: map<string, string>)
    ensures metaTags == MetaTags(metas)
    ensures forall k :: k in metaTags ==> k != "" && metaTags[k] != ""
  {
    metaTags := map[];
    var i := 0;
    while i < |metas|
      invariant 0 <= i <= |metas|
      invariant metaTags == MetaTags(metas[..i])
    {
      var meta := metas[i];
      var name := if meta.name.Some? && meta.name.value != "" then meta.name else meta.property;
      if name.Some? && name.value != "" && meta.content.Some? && meta.content.value != "" {
        metaTags := metaTags[name.value := meta.content.value];
      }
      assert metas[..i + 1][..i] == metas[..i];
      i := i + 1;
    }
    assert metas[..i] == metas;
  }

  /** The link pass: visit the first 50 anchors with an href, append the kept ones. */
  method ExtractLinks(allAnchors: seq<Anchor>, base: string, join: (string, string) -> string) returns (links: seq<Link>)
    ensures links == Links(Take(FilterMap(allAnchors, HrefFilter), MaxLinks), base, join)
    ensures |links| <= MaxLinks
  {
    var anchors := Take(FilterMap(allAnchors, HrefFilter), MaxLinks);
    links := [];
    var i := 0;
    while i < |anchors|
      invariant 0 <= i <= |anchors|
      invariant links == Links(anchors[..i], base, join)
    {
      var link := anchors[i];
      if link.href.Some? && link.href.value != "" && link.text != "" {
        links := links + [Link(join(base, link.href.value), Take(link.text, MaxText))];
      }
      assert anchors[..i + 1][..i] == anchors[..i];
      i := i + 1;
    }
    assert anchors[..i] == anchors;
  }

  /** The image pass: visit the first 20 images, append those with a src. */
  method ExtractImages(allImages: seq<Img>, base: string, join: (string, string) -> string) returns (images: seq<Image>)
    ensures images == Images(Take(allImages, MaxImages), base, join)
    ensures |images| <= MaxImages
  {
    var imgs := Take(allImages, MaxImages);
    images := [];
    var i := 0;
    while i < |imgs|
      invariant 0 <= i <= |imgs|
      invariant images == Images(imgs[..i], base, join)
    {
      var img := imgs[i];
      if img.src.Some? && img.src.value != "" {
        images := images + [Image(join(base, img.src.value), Take(img.alt.GetOr(""), MaxText))];
      }
      assert imgs[..i + 1][..i] == imgs[..i];
      i := i + 1;
    }
    assert imgs[..i] == imgs;
  }

  /** The rows pass over one table: the first 10 rows, the empty ones dropped. */
  method ExtractRows(table: Table) returns (tableData: Table)
    ensures tableData == FilterMap(Take(table, MaxRows), RowFilter)
    ensures |tableData| <= MaxRows
  {
    var rows := Take(table, MaxRows);
    tableData := [];
    var j := 0;
    while j < |rows|
      invariant 0 <= j <= |rows|
      invariant tableData == FilterMap(rows[..j], RowFilter)
    {
      var rowData := rows[j];
      if rowData != [] {
        tableData := tableData + [rowData];
      }
      assert rows[..j + 1][..j] == rows[..j];
      j := j + 1;
    }
    assert rows[..j] == rows;
  }

  /** One turn of the table pass: the rows kept decide whether the table is appended. */
  lemma KeepTableStep(tables: seq<Table>, i: int, tableData: Table)
    requires 0 <= i < |tables|
    requires tableData == FilterMap(Take(tables[i], MaxRows), RowFilter)
    ensures FilterMap(tables[..i + 1], TableOf) == FilterMap(tables[..i], TableOf) + (if tableData != [] then [tableData] else [])
  {
    assert tables[..i + 1] == tables[..i] + [tables[i]];
    FilterMapSnoc(tables[..i], tables[i], TableOf);
  }

  /** The table pass: visit the first 5 tables, append those with a row left. */
  method ExtractTables(allTables: seq<Table>) returns (kept: seq<Table>)
    ensures kept == FilterMap(Take(allTables, MaxTables), TableOf)
    ensures |kept| <= MaxTables
  {
    var tables := Take(allTables, MaxTables);
    kept := [];
    var i := 0;
    while i < |tables|
      invariant 0 <= i <= |tables|
      invariant kept == FilterMap(tables[..i], TableOf)
    {
      var tableData := ExtractRows(tables[i]);
      KeepTableStep(tables, i, tableData);
      if tableData != [] {
        kept := kept + [tableData];
      }
      i := i + 1;
    }
    assert tables[..i] == tables;
  }

  /** `_extract_structured_data`: the four passes in the source's order; `forms` stays empty. */
  method ExtractStructuredData(p: Page, base: string, join: (string, string) -> string) returns (d: StructuredData)
    ensures d == StructuredDataOf(p, base, join)
    ensures Bounded(d)
  {
    var metaTags := ExtractMetaTags(p.metas);
    var links := ExtractLinks(p.anchors, base, join);
    var images := ExtractImages(p.images, base, join);
    var tables := ExtractTables(p.tables);
    d := StructuredData(metaTags, links, images, tables, []);
    StructuredDataBounded(p, base, join);
  }

  // ----- scrape_url -----

  /** How the HTTP request ended. */
  datatype Fetch =
    | Timeout                    // requests.exceptions.Timeout
    | ConnectionError            // requests.exceptions.ConnectionError
    | Failed(error: string)      // any other exception of the request, as str(e)
    | Response(statusCode: nat, reason: string, page: Page, size: nat)

  /** The dictionary `scrape_url` returns; `response_time` is not modelled. */
  datatype ScrapeResult = ScrapeResult(
    url: string,
    taskId: int,
    success: bool,
    title: Option<string>,
    content: Option<string>,
    extractedData: Option<StructuredData>, // None stands for the initial empty dictionary
    errorMessage: Option<string>,
    statusCode: Option<nat>,
    contentSize: nat)

  /** The row `_store_scraped_data` inserts into `scraped_data`. */
  datatype StoredRow = StoredRow(
    taskId: int,
    url: string,
    title: Option<string>,
    content: Option<string>,
    extractedData: Option<StructuredData>,
    status: string,
    errorMessage: Option<string>)

  /** The row `_store_scraped_data` inserts into `scraping_stats`, without `response_time`. */
  datatype StatsRow = StatsRow(taskId: int, url: string, contentSize: nat, statusCode: Option<nat>)

  /** `str(e)` of the exception raised for a status other than 200: `HTTP <code>: <reason>`. */
  function HttpError(code: nat, reason: string): (r: string)
    ensures StartsWith(r, "HTTP ")
  {
    "HTTP " + DecimalString(code) + ": " + reason
  }

  /**
   * The `error_message` each failure path of `scrape_url` records: the two
   * named request errors, any other exception, and the exception raised
   * for a status other than 200.
   */
  function ErrorMessage(url: string, f: Fetch): (r: Option<string>)
    ensures r.None? <==> f.Response? && f.statusCode == 200
    ensures f.Timeout? ==> r == Some("Timeout error while scraping " + url)
    ensures f.ConnectionError? ==> r == Some("Connection error while scraping " + url)
    ensures f.Failed? || (f.Response? && f.statusCode != 200) ==> r.Some? && StartsWith(r.value, "Error scraping " + url + ": ")
  {
    match f
    case Timeout => Some("Timeout error while scraping " + url)
    case ConnectionError => Some("Connection error while scraping " + url)
    case Failed(e) => Some("Error scraping " + url + ": " + e)
    case Response(code, reason, _, _) =>
      if code == 200 then None
      else Some("Error scraping " + url + ": " + HttpError(code, reason))
  }

  /** `_store_scraped_data`: the `scraped_data` row, with status 'success' exactly when the scrape succeeded. */
  function StoredRowOf(r: ScrapeResult): (row: StoredRow)
    ensures row.status == "success" <==> r.success
    ensures row.status == "error" <==> !r.success
    ensures row.taskId == r.taskId && row.url == r.url && row.errorMessage == r.errorMessage
    ensures row.title == r.title && row.content == r.content && row.extractedData == r.extractedData
  {
    StoredRow(r.taskId, r.url, r.title, r.content, r.extractedData,
              if r.success then "success" else "error", r.errorMessage)
  }

  /** `_store_scraped_data`: the `scraping_stats` row. */
  function StatsRowOf(r: ScrapeResult): (row: StatsRow)
    ensures row.taskId == r.taskId && row.url == r.url
    ensures row.contentSize == r.contentSize && row.statusCode == r.statusCode
  {
    StatsRow(r.taskId, r.url, r.contentSize, r.statusCode)
  }

  /**
   * `scrape_url`: starts from a failed result, fills it in field by field,
   * and stores it on every path. `join` stands for `urljoin`.
   */
  method ScrapeUrl(url: string, taskId: int, fetch: Fetch, join: (string, string) -> string)
    returns (result: ScrapeResult, stored: StoredRow, stats: StatsRow)
    ensures result.url == url && result.taskId == taskId
    ensures result.success <==> fetch.Response? && fetch.statusCode == 200
    ensures result.errorMessage == ErrorMessage(url, fetch)
    ensures result.errorMessage.None? <==> result.success
    ensures result.statusCode == if fetch.Response? then Some(fetch.statusCode) else None
    ensures result.success ==>
      && result.title == ExtractTitle(fetch.page)
      && result.content == Some(MainContent(fetch.page))
      && result.extractedData == Some(StructuredDataOf(fetch.page, url, join))
      && result.contentSize == fetch.size
    ensures !result.success ==>
      result.title.None? && result.content.None? && result.extractedData.None? && result.contentSize == 0
    ensures stored == StoredRowOf(result) && stats == StatsRowOf(result)
    ensures stored.status == "success" <==> result.success
  {
    result := ScrapeResult(url, taskId, false, None, None, None, None, None, 0);
    match fetch {
      case Timeout =>
        result := result.(errorMessage := Some("Timeout error while scraping " + url));
      case ConnectionError =>
        result := result.(errorMessage := Some("Connection error while scraping " + url));
      case Failed(e) =>
        result := result.(errorMessage := Some("Error scraping " + url + ": " + e));
      case Response(code, reason, page, size) =>
        result := result.(statusCode := Some(code));
        if code != 200 {
          var e := HttpError(code, reason);
          result := result.(errorMessage := Some("Error scraping " + url + ": " + e));
        } else {
          var title := ExtractTitle(page);
          result := result.(title := title);
          var content := ExtractMainContent(page);
          result := result.(content := Some(content));
          var data := ExtractStructuredData(page, url, join);
          result := result.(extractedData := Some(data));
          result := result.(contentSize := size);
          result := result.(success := true);
        }
    }
    stored := StoredRowOf(result);
    stats := StatsRowOf(result);
  }
}
