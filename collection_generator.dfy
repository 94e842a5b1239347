/// `CollectionGenerator`: for every page a database fetches, derive the
/// destination path (with the date fallback of `date_for`), create the file
/// and log the page, in fetch order.
module Generators {
  import opened RubyValues
  import opened Decimal
  import opened Dates
  import opened Host
  import opened Resources

  /** Library code the generator calls, whose source is not part of this
      model: `Jekyll::Utils.slugify(title, mode: "latin")`,
      `Time.parse(value).to_date` (a date, or the exception it raises),
      `NotionToMd::Converter.new(page_id:).convert(frontmatter: true)` (the
      Markdown of the page, or the exception it raises), and Ruby's
      `inspect`, which interpolation uses for arrays and hashes. */
  datatype Library = Library(
    slugify: string -> string,
    parseDate: Json -> Result<Date, RubyError>,
    convert: string -> Result<string, RubyError>,
    inspect: Json -> string)

  /** The exceptions `date_for` rescues. */
  predicate Rescued(e: RubyError) {
    e == TypeError || e == NoMethodError
  }

  /** `date_for(page)`: the page's "date" property if it parses; if parsing
      it raises `TypeError` or `NoMethodError`, the page's `created_time`;
      any other exception propagates. */
  function DateFor(page: Page, lib: Library): Result<Date, RubyError> {
    match lib.parseDate(page.Prop("date"))
    case Ok(d) => Ok(d)
    case Err(e) => if Rescued(e) then lib.parseDate(page.CreatedTime()) else Err(e)
  }

  /** The created time is consulted exactly when parsing the "date" property
      raised a rescued exception; otherwise the outcome of that parse stands. */
  lemma DateFallback(page: Page, lib: Library)
    ensures var own := lib.parseDate(page.Prop("date"));
      && (own.Err? && Rescued(own.error) ==> DateFor(page, lib) == lib.parseDate(page.CreatedTime()))
      && (own.Ok? || !Rescued(own.error) ==> DateFor(page, lib) == own)
  {
  }

  function Slug(page: Page, lib: Library): string {
    lib.slugify(page.Title())
  }

  /** `YYYY-MM-DD-<slug>.md`. */
  function PostFilename(date: Date, slug: string): string {
    Strftime(date) + "-" + slug + ".md"
  }

  /** Splits a post filename back into its date and slug. */
  function DecodePostFilename(name: string): Option<(Date, string)> {
    if |name| >= 14 && name[10] == '-' && name[|name| - 3..] == ".md" then
      match ParseYmd(name[..10])
      case Some(date) => Some((date, name[11..|name| - 3]))
      case None => None
    else None
  }

  /** The date and the slug can be read back from a post filename whose
      year has four digits: distinct (date, slug) pairs get distinct names. */
  lemma PostFilenameRoundTrip(date: Date, slug: string)
    requires 0 <= date.year < 10000
    ensures DecodePostFilename(PostFilename(date, slug)) == Some((date, slug))
  {
    StrftimeShape(date);
    ParseStrftime(date);
    var name := PostFilename(date, slug);
    assert name[..10] == Strftime(date);
    assert name[11..|name| - 3] == slug;
    assert name[|name| - 3..] == ".md";
  }

  /** The shape the plugin's test asks of post paths: `\d{4}-\d{2}-\d{2}-.*\.md`. */
  predicate LooksLikePost(name: string) {
    |name| >= 14 && IsYmd(name[..10]) && name[10] == '-' && name[|name| - 3..] == ".md"
  }

  lemma PostFilenameShape(date: Date, slug: string)
    requires 0 <= date.year < 10000
    ensures LooksLikePost(PostFilename(date, slug))
  {
    StrftimeShape(date);
    var name := PostFilename(date, slug);
    assert name[..10] == Strftime(date);
    assert name[|name| - 3..] == ".md";
  }

  lemma PostFilenameReadable(date: Date, slug: string)
    ensures 0 <= date.year < 10000 ==>
      LooksLikePost(PostFilename(date, slug)) && DecodePostFilename(PostFilename(date, slug)) == Some((date, slug))
  {
    if 0 <= date.year < 10000 {
      PostFilenameShape(date, slug);
      PostFilenameRoundTrip(date, slug);
    }
  }

  /** `make_filename(page)`. */
  function MakeFilename(collection: Json, page: Page, lib: Library): Result<string, RubyError> {
    if collection == Str("posts") then
      match DateFor(page, lib)
      case Ok(date) => Ok(PostFilename(date, Slug(page, lib)))
      case Err(e) => Err(e)
    else Ok(Slug(page, lib) + ".md")
  }

  /** Outside "posts" the name is the slug with ".md"; in "posts" the name
      exists exactly when the page has a date, carries that date's error
      otherwise, and (for four-digit years) has the post shape and reads
      back as that date and the slug. */
  lemma FilenameByCollection(collection: Json, page: Page, lib: Library)
    ensures var r := MakeFilename(collection, page, lib);
      && (collection != Str("posts") ==> r == Ok(Slug(page, lib) + ".md"))
      && (collection == Str("posts") ==> (r.Ok? <==> DateFor(page, lib).Ok?))
      && (collection == Str("posts") && r.Err? ==> r.error == DateFor(page, lib).error)
      && (collection == Str("posts") && r.Ok? && 0 <= DateFor(page, lib).value.year < 10000 ==>
        && LooksLikePost(r.value)
        && DecodePostFilename(r.value) == Some((DateFor(page, lib).value, Slug(page, lib))))
  {
    if collection == Str("posts") && DateFor(page, lib).Ok? {
      PostFilenameReadable(DateFor(page, lib).value, Slug(page, lib));
    }
  }

  /** The directory of a collection: `<source>/_<collection>/`. */
  function CollectionDir(source: string, collection: Json, lib: Library): string {
    source + "/_" + ToS(collection, lib.inspect) + "/"
  }

  /** `make_path(page)`: `<source>/_<collection>/<filename>`. */
  function MakePath(source: string, collection: Json, page: Page, lib: Library): Result<string, RubyError> {
    match MakeFilename(collection, page, lib)
    case Ok(name) => Ok(CollectionDir(source, collection, lib) + name)
    case Err(e) => Err(e)
  }

  /** The path exists exactly when the filename does, and is then the
      collection's directory under the source followed by the filename. */
  lemma PathLayout(source: string, collection: Json, page: Page, lib: Library)
    ensures var r := MakePath(source, collection, page, lib);
      && (r.Ok? <==> MakeFilename(collection, page, lib).Ok?)
      && (r.Err? ==> r.error == MakeFilename(collection, page, lib).error)
      && (r.Ok? ==>
        var dir := source + "/_" + ToS(collection, lib.inspect) + "/";
        && |dir| <= |r.value|
        && r.value[..|dir|] == dir
        && r.value[|dir|..] == MakeFilename(collection, page, lib).value)
  {
    var r := MakePath(source, collection, page, lib);
    if r.Ok? {
      var dir := CollectionDir(source, collection, lib);
      var name := MakeFilename(collection, page, lib).value;
      assert r.value == dir + name;
      assert (dir + name)[..|dir|] == dir;
      assert (dir + name)[|dir|..] == name;
    }
  }

  /** A post without a "date" property (so `Time.parse(nil)` raises
      `TypeError`) created on 2022-09-17 and titled so that it slugifies to
      "tables" is written as `2022-09-17-tables.md`. */
  lemma CreatedTimeNamesPost(page: Page, lib: Library)
    requires lib.parseDate(page.Prop("date")) == Err(TypeError)
    requires lib.parseDate(page.CreatedTime()) == Ok(Date(2022, 9, 17))
    requires lib.slugify(page.Title()) == "tables"
    ensures MakeFilename(Str("posts"), page, lib) == Ok("2022-09-17-tables.md")
  {
    assert ZeroPad(2022, 4) == "2022" by {
      assert ZeroPad(2, 1) == "2";
      assert ZeroPad(20, 2) == "20";
      assert ZeroPad(202, 3) == "202";
    }
    assert ZeroPad(9, 2) == "09" by {
      assert ZeroPad(0, 1) == "0";
    }
    assert ZeroPad(17, 2) == "17" by {
      assert ZeroPad(1, 1) == "1";
    }
    var date := Date(2022, 9, 17);
    assert DateFor(page, lib) == Ok(date);
    assert Strftime(date) == "2022-09-17";
    assert PostFilename(date, "tables") == "2022-09-17-tables.md";
  }

  /** The path depends on the page only through its title and its date:
      two pages that agree on both collide. */
  lemma PathDependsOnTitleAndDate(source: string, collection: Json, p1: Page, p2: Page, lib: Library)
    requires p1.Title() == p2.Title()
    requires DateFor(p1, lib) == DateFor(p2, lib)
    ensures MakePath(source, collection, p1, lib) == MakePath(source, collection, p2, lib)
  {
  }

  /** Outside "posts" no date is consulted: the path is the same whatever
      the page's dates are and however they parse. */
  lemma OtherCollectionsIgnoreDates(source: string, collection: Json, page: Page, lib: Library,
                                    parseDate: Json -> Result<Date, RubyError>)
    requires collection != Str("posts")
    ensures MakePath(source, collection, page, lib)
         == MakePath(source, collection, page, lib.(parseDate := parseDate))
    ensures MakePath(source, collection, page, lib).Ok?
  {
  }

  /** What handling one page does: `make_doc` (path, then content, then
      `create!`) and then `log_new_page`; or the exception that `make_path`
      or, after it, `make_md` raised, with nothing created. */
  function PageRun(source: string, collection: Json, page: Page, lib: Library): Run {
    match MakePath(source, collection, page, lib)
    case Err(e) => Run([], Raised(e))
    case Ok(path) =>
      match lib.convert(page.Id())
      case Err(e) => Run([], Raised(e))
      case Ok(content) => Run([CreateFile(path, content), Info(LogTopic, "Page => " + page.Title())], Done)
  }

  function PageStep(source: string, collection: Json, lib: Library): Page -> Run {
    page => PageRun(source, collection, page, lib)
  }

  /** The `each` loop of `generate` over already fetched pages. */
  function RunPages(source: string, collection: Json, pages: seq<Page>, lib: Library): Run {
    RunAll(pages, PageStep(source, collection, lib))
  }

  /** Positions `2k` and `2k + 1` of a trace hold the file creation at the
      page's path, with the page's Markdown, and the log line for the page. */
  predicate WrotePageAt(effects: seq<Effect>, k: nat, source: string, collection: Json, page: Page, lib: Library) {
    && MakePath(source, collection, page, lib).Ok?
    && lib.convert(page.Id()).Ok?
    && 2 * k + 1 < |effects|
    && effects[2 * k] == CreateFile(MakePath(source, collection, page, lib).value, lib.convert(page.Id()).value)
    && effects[2 * k + 1] == Info(LogTopic, "Page => " + page.Title())
  }

  lemma WrotePageAtExtends(a: seq<Effect>, b: seq<Effect>, k: nat, source: string, collection: Json,
                           page: Page, lib: Library)
    requires WrotePageAt(a, k, source, collection, page, lib)
    ensures WrotePageAt(a + b, k, source, collection, page, lib)
  {
    assert (a + b)[2 * k] == a[2 * k] && (a + b)[2 * k + 1] == a[2 * k + 1];
  }

  /** A completed loop did, for each page in fetch order, exactly one file
      creation at the page's path followed by exactly one log line. */
  lemma {:induction false} CompletedRunShape(source: string, collection: Json, pages: seq<Page>, lib: Library)
    requires RunPages(source, collection, pages, lib).outcome == Done
    ensures |RunPages(source, collection, pages, lib).effects| == 2 * |pages|
    ensures forall i :: 0 <= i < |pages| ==>
      WrotePageAt(RunPages(source, collection, pages, lib).effects, i, source, collection, pages[i], lib)
    decreases |pages|
  {
    if pages != [] {
      var n := |pages| - 1;
      var step := PageStep(source, collection, lib);
      var previous := RunAll(pages[..n], step);
      assert previous.outcome == Done;
      CompletedRunShape(source, collection, pages[..n], lib);
      var last := step(pages[n]);
      assert last.outcome == Done;
      assert RunPages(source, collection, pages, lib).effects == previous.effects + last.effects;
      forall i | 0 <= i < n
        ensures WrotePageAt(previous.effects + last.effects, i, source, collection, pages[i], lib)
      {
        assert pages[..n][i] == pages[i];
        WrotePageAtExtends(previous.effects, last.effects, i, source, collection, pages[i], lib);
      }
      assert WrotePageAt(previous.effects + last.effects, n, source, collection, pages[n], lib);
    }
  }

  /** Outside "posts" no date is parsed, so the loop completes exactly when
      every page converts, and an exception it ends with is one the
      converter raised for one of the pages. */
  lemma {:induction false} OtherCollectionsRaiseOnlyInConvert(source: string, collection: Json, pages: seq<Page>,
                                                              lib: Library)
    requires collection != Str("posts")
    ensures RunPages(source, collection, pages, lib).outcome.Done?
        <==> forall i :: 0 <= i < |pages| ==> lib.convert(pages[i].Id()).Ok?
    ensures RunPages(source, collection, pages, lib).outcome.Raised? ==>
      exists i :: 0 <= i < |pages| && lib.convert(pages[i].Id()) == Err(RunPages(source, collection, pages, lib).outcome.error)
    decreases |pages|
  {
    if pages != [] {
      var n := |pages| - 1;
      var step := PageStep(source, collection, lib);
      OtherCollectionsRaiseOnlyInConvert(source, collection, pages[..n], lib);
      var previous := RunAll(pages[..n], step);
      assert forall i :: 0 <= i < n ==> pages[..n][i] == pages[i];
      if previous.outcome.Raised? {
        var i :| 0 <= i < n && lib.convert(pages[..n][i].Id()) == Err(previous.outcome.error);
        assert lib.convert(pages[i].Id()).Err?;
      } else {
        assert step(pages[n]) == PageRun(source, collection, pages[n], lib);
        if lib.convert(pages[n].Id()).Err? {
          assert RunPages(source, collection, pages, lib).outcome == Raised(lib.convert(pages[n].Id()).error);
        }
      }
    }
  }

  /** A date property whose parse raises anything but `TypeError` or
      `NoMethodError` stops `generate` at that page: nothing is written
      for it or after it. */
  lemma UnrescuedErrorStopsGenerate(source: string, pages: seq<Page>, k: nat, lib: Library)
    requires k < |pages|
    requires RunPages(source, Str("posts"), pages[..k], lib).outcome == Done
    requires lib.parseDate(pages[k].Prop("date")).Err?
    requires !Rescued(lib.parseDate(pages[k].Prop("date")).error)
    ensures RunPages(source, Str("posts"), pages, lib)
         == Run(RunPages(source, Str("posts"), pages[..k], lib).effects,
                Raised(lib.parseDate(pages[k].Prop("date")).error))
  {
    var step := PageStep(source, Str("posts"), lib);
    RunAllExtend(pages, step, k);
    assert RunAll(pages[..k + 1], step).effects == RunAll(pages[..k], step).effects + [];
    RunAllStops(pages, step, k + 1);
  }

  /** `generate` on a database whose memo is `cache`: fetch, then the loop. */
  function GenerateRun(source: string, config: Hash, backend: Backend, lib: Library,
                       cache: Option<seq<Page>>): Run
  {
    var fetched := FetchStep(config, backend, cache);
    match fetched.result
    case Err(e) => Run(fetched.effects, Raised(e))
    case Ok(pages) =>
      var r := RunPages(source, CollectionName(config), pages, lib);
      Run(fetched.effects + r.effects, r.outcome)
  }

  /** Writing pages issues no Notion query: a generate queries at most once. */
  lemma GenerateQueriesAtMostOnce(source: string, config: Hash, backend: Backend, lib: Library,
                                  cache: Option<seq<Page>>)
    ensures QueryCount(GenerateRun(source, config, backend, lib, cache).effects)
         == QueryCount(FetchStep(config, backend, cache).effects)
    ensures QueryCount(GenerateRun(source, config, backend, lib, cache).effects) <= 1
  {
    var fetched := FetchStep(config, backend, cache);
    FetchStepCases(config, backend, cache);
    if fetched.result.Ok? {
      var step := PageStep(source, CollectionName(config), lib);
      forall page: Page ensures QueryCount(step(page).effects) == 0 {
        NoQueryKeepsCount(step(page).effects);
      }
      RunAllQueryFree(fetched.result.value, step);
      QueryCountAppend(fetched.effects, RunPages(source, CollectionName(config), fetched.result.value, lib).effects);
    }
  }

  /** `CollectionGenerator`: a database to fetch from, the (unused) plugin,
      and the site configuration whose "source" roots the paths. */
  class CollectionGenerator {
    const resource: NotionDatabase
    const plugin: Json
    const config: SiteConfig

    constructor(resource: NotionDatabase, plugin: Json, config: SiteConfig)
      ensures this.resource == resource && this.plugin == plugin && this.config == config
    {
      this.resource := resource;
      this.plugin := plugin;
      this.config := config;
    }

    /** `generate`. */
    method Generate(lib: Library) returns (outcome: Outcome)
      requires resource.Valid()
      modifies resource, resource.world
      ensures resource.Valid()
      ensures resource.cache == FetchStep(resource.config, resource.backend, old(resource.cache)).cache
      ensures outcome == GenerateRun(config.source, resource.config, resource.backend, lib, old(resource.cache)).outcome
      ensures resource.world.trace
           == old(resource.world.trace) + GenerateRun(config.source, resource.config, resource.backend, lib, old(resource.cache)).effects
      ensures resource.world.files
           == Replay(resource.world.write, old(resource.world.files),
                     GenerateRun(config.source, resource.config, resource.backend, lib, old(resource.cache)).effects)
    {
      var world := resource.world;
      ghost var fetchEffects := FetchStep(resource.config, resource.backend, old(resource.cache)).effects;
      var fetched := resource.Fetch();
      FetchLeavesFiles(world.write, old(world.files), resource.config, resource.backend, old(resource.cache));
      if fetched.Err? {
        return Raised(fetched.error);
      }
      outcome := GeneratePages(fetched.value, lib);
      ghost var pageEffects := RunPages(config.source, CollectionName(resource.config), fetched.value, lib).effects;
      ReplayAppend(world.write, old(world.files), fetchEffects, pageEffects);
      AppendAssoc(old(world.trace), fetchEffects, pageEffects);
    }

    /** The `each` loop of `generate` over the fetched pages. */
    method GeneratePages(pages: seq<Page>, lib: Library) returns (outcome: Outcome)
      modifies resource.world
      ensures outcome == RunPages(config.source, CollectionName(resource.config), pages, lib).outcome
      ensures resource.world.trace
           == old(resource.world.trace) + RunPages(config.source, CollectionName(resource.config), pages, lib).effects
      ensures resource.world.files
           == Replay(resource.world.write, old(resource.world.files),
                     RunPages(config.source, CollectionName(resource.config), pages, lib).effects)
    {
      var world := resource.world;
      var collection := CollectionName(resource.config);
      ghost var step := PageStep(config.source, collection, lib);
      var i := 0;
      while i < |pages|
        invariant 0 <= i <= |pages|
        invariant RunAll(pages[..i], step).outcome == Done
        invariant world.trace == old(world.trace) + RunAll(pages[..i], step).effects
        invariant world.files == Replay(world.write, old(world.files), RunAll(pages[..i], step).effects)
      {
        ghost var before := RunAll(pages[..i], step).effects;
        RunAllExtend(pages, step, i);
        var o := HandlePage(pages[i], lib);
        ReplayAppend(world.write, old(world.files), before, step(pages[i]).effects);
        AppendAssoc(old(world.trace), before, step(pages[i]).effects);
        if o.Raised? {
          RunAllStops(pages, step, i + 1);
          return o;
        }
        i := i + 1;
      }
      assert pages[..i] == pages;
      outcome := Done;
    }

    /** `make_doc(page)` followed by `log_new_page(page)`. */
    method HandlePage(page: Page, lib: Library) returns (outcome: Outcome)
      modifies resource.world
      ensures outcome == PageRun(config.source, CollectionName(resource.config), page, lib).outcome
      ensures resource.world.trace
           == old(resource.world.trace) + PageRun(config.source, CollectionName(resource.config), page, lib).effects
      ensures resource.world.files
           == Replay(resource.world.write, old(resource.world.files),
                     PageRun(config.source, CollectionName(resource.config), page, lib).effects)
    {
      var world := resource.world;
      var path := MakePath(config.source, CollectionName(resource.config), page, lib);
      if path.Err? {
        return Raised(path.error);
      }
      var content := lib.convert(page.Id());
      if content.Err? {
        return Raised(content.error);
      }
      world.Perform(CreateFile(path.value, content.value));
      world.Perform(Info(LogTopic, "Page => " + page.Title()));
      ghost var done := [CreateFile(path.value, content.value), Info(LogTopic, "Page => " + page.Title())];
      ghost var created := Apply(world.write, old(world.files), done[0]);
      assert Replay(world.write, old(world.files), done) == Replay(world.write, created, done[1..]);
      assert done[1..][1..] == [];
      assert Replay(world.write, created, done[1..]) == Replay(world.write, created, []);
      outcome := Done;
    }
  }

  /** Fetching touches no file. */
  lemma FetchLeavesFiles(write: Writer, files: Files, config: Hash, backend: Backend, cache: Option<seq<Page>>)
    ensures Replay(write, files, FetchStep(config, backend, cache).effects) == files
  {
    FetchCreatesNoFile(config, backend, cache);
    NoCreationKeepsFiles(write, files, FetchStep(config, backend, cache).effects);
  }

  /** Fetching only queries and reads blocks: it creates no file. */
  lemma FetchCreatesNoFile(config: Hash, backend: Backend, cache: Option<seq<Page>>)
    ensures var effects := FetchStep(config, backend, cache).effects;
      forall i :: 0 <= i < |effects| ==> !effects[i].CreateFile?
  {
    var effects := FetchStep(config, backend, cache).effects;
    if backend.idPresent(Id(config)) && cache.None? && backend.databaseQuery(QueryFor(config)).Ok? {
      var records := backend.databaseQuery(QueryFor(config)).value;
      BuildEffects(records, backend);
      assert effects == [DatabaseQuery(QueryFor(config))] + Build(records, backend).effects;
    }
  }

  /** Every file an effect sequence creates lies under the directory `dir`. */
  predicate CreatesUnder(effects: seq<Effect>, dir: string) {
    forall i :: 0 <= i < |effects| && effects[i].CreateFile? ==> dir <= effects[i].path
  }

  lemma CreatesUnderAppend(a: seq<Effect>, b: seq<Effect>, dir: string)
    requires CreatesUnder(a, dir) && CreatesUnder(b, dir)
    ensures CreatesUnder(a + b, dir)
  {
    forall i | 0 <= i < |a + b| && (a + b)[i].CreateFile?
      ensures dir <= (a + b)[i].path
    {
      if i >= |a| {
        assert (a + b)[i] == b[i - |a|];
      }
    }
  }

  /** The loop over the pages creates files only under `_<collection>/` of
      the site's source directory. */
  lemma {:induction false} RunPagesCreatesUnder(source: string, collection: Json, pages: seq<Page>, lib: Library)
    ensures CreatesUnder(RunPages(source, collection, pages, lib).effects, CollectionDir(source, collection, lib))
    decreases |pages|
  {
    if pages != [] {
      var n := |pages| - 1;
      var dir := CollectionDir(source, collection, lib);
      RunPagesCreatesUnder(source, collection, pages[..n], lib);
      var previous := RunPages(source, collection, pages[..n], lib);
      if previous.outcome.Done? {
        var last := PageStep(source, collection, lib)(pages[n]);
        assert last == PageRun(source, collection, pages[n], lib);
        if last.effects != [] {
          PathLayout(source, collection, pages[n], lib);
          assert dir <= last.effects[0].path;
        }
        CreatesUnderAppend(previous.effects, last.effects, dir);
      }
    }
  }

  /** A generator creates files only in its own collection's directory,
      `<source>/_<collection>/`. */
  lemma GenerateCreatesUnder(source: string, config: Hash, backend: Backend, lib: Library, cache: Option<seq<Page>>)
    ensures CreatesUnder(GenerateRun(source, config, backend, lib, cache).effects,
                         CollectionDir(source, CollectionName(config), lib))
  {
    var dir := CollectionDir(source, CollectionName(config), lib);
    var fetched := FetchStep(config, backend, cache);
    FetchCreatesNoFile(config, backend, cache);
    if fetched.result.Ok? {
      RunPagesCreatesUnder(source, CollectionName(config), fetched.result.value, lib);
      CreatesUnderAppend(fetched.effects, RunPages(source, CollectionName(config), fetched.result.value, lib).effects, dir);
    }
  }

  lemma {:induction false} NoCreationKeepsFiles(write: Writer, files: Files, effects: seq<Effect>)
    requires forall i :: 0 <= i < |effects| ==> !effects[i].CreateFile?
    ensures Replay(write, files, effects) == files
    decreases |effects|
  {
    if effects != [] {
      NoCreationKeepsFiles(write, files, effects[1..]);
    }
  }

  lemma {:induction false} NoQueryKeepsCount(effects: seq<Effect>)
    requires forall i :: 0 <= i < |effects| ==> !effects[i].DatabaseQuery?
    ensures QueryCount(effects) == 0
    decreases |effects|
  {
    if effects != [] {
      NoQueryKeepsCount(effects[1..]);
    }
  }
}
