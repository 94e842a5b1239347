/// One configured Notion database (`NotionDatabase`): the lookups into its
/// configuration entry, the query it sends, and its memoized `fetch`.
module Resources {
  import opened RubyValues
  import opened Host

  /** A result row of `database_query`, reduced to what the plugin reads from it. */
  datatype RawPage = RawPage(id: string, title: string, props: Hash, createdTime: Json)

  /** `NotionToMd::Page.new(page:, blocks:)`: a result row with its content blocks. */
  datatype Page = Page(record: RawPage, blocks: seq<Json>) {
    function Id(): string { record.id }
    function Title(): string { record.title }
    function Prop(name: string): Json { Lookup(record.props, name) }
    function CreatedTime(): Json { record.createdTime }
  }

  /** What `AbstractNotionResource` and its Notion client provide; their
      source is not part of this model. `idPresent` is `id?`, applied to the
      entry's `id`; `databaseQuery` answers `@notion.database_query(query)[:results]`
      or raises; `buildBlocks` is `build_blocks(page_id)`, which may raise too. */
  datatype Backend = Backend(
    idPresent: Json -> bool,
    databaseQuery: Query -> Result<seq<RawPage>, RubyError>,
    buildBlocks: string -> Result<seq<Json>, RubyError>)

  /** `id`: the entry's "id" key. */
  function Id(config: Hash): Json {
    Lookup(config, "id")
  }

  function Filter(config: Hash): Json {
    Lookup(config, "filter")
  }

  function Sorts(config: Hash): Json {
    Lookup(config, "sorts")
  }

  /** `config["collection"] || "posts"`. */
  function CollectionName(config: Hash): (name: Json)
    ensures Truthy(name)
    ensures Truthy(Lookup(config, "collection")) ==> name == Lookup(config, "collection")
    ensures !Truthy(Lookup(config, "collection")) ==> name == Str("posts")
  {
    var configured := Lookup(config, "collection");
    if Truthy(configured) then configured else Str("posts")
  }

  /** `config["data"]`, verbatim and possibly `nil`. */
  function DataName(config: Hash): (name: Json)
    ensures "data" in config ==> name == config["data"]
    ensures "data" !in config ==> name == Null
  {
    Lookup(config, "data")
  }

  /** `Hash#compact`: the entries whose value is not `nil`. */
  function Compact<K(!new)>(m: map<K, Json>): (r: map<K, Json>)
    ensures forall k :: k in r <==> k in m && m[k] != Null
    ensures forall k :: k in r ==> r[k] == m[k]
  {
    map k | k in m && m[k] != Null :: m[k]
  }

  /** `{database_id: id, filter: filter, sorts: sorts}.compact`. */
  function QueryFor(config: Hash): (q: Query)
    ensures DatabaseIdKey in q <==> Id(config) != Null
    ensures FilterKey in q <==> Filter(config) != Null
    ensures SortsKey in q <==> Sorts(config) != Null
    ensures DatabaseIdKey in q ==> q[DatabaseIdKey] == Id(config)
    ensures FilterKey in q ==> q[FilterKey] == Filter(config)
    ensures SortsKey in q ==> q[SortsKey] == Sorts(config)
    ensures forall k :: k in q ==> q[k] != Null
  {
    Compact(map[DatabaseIdKey := Id(config), FilterKey := Filter(config), SortsKey := Sorts(config)])
  }

  /** What the `.map` over the result rows yields (the pages, or the first
      exception `build_blocks` raised) and the calls it made. */
  datatype Built = Built(pages: Result<seq<Page>, RubyError>, effects: seq<Effect>)

  /** The `.map` over the result rows: one `build_blocks` call per row, in
      order, stopping at the first that raises. */
  function Build(records: seq<RawPage>, backend: Backend): Built
    decreases |records|
  {
    if records == [] then Built(Ok([]), [])
    else
      var n := |records| - 1;
      var front := Build(records[..n], backend);
      if front.pages.Err? then front
      else
        var effects := front.effects + [BlockFetch(records[n].id)];
        match backend.buildBlocks(records[n].id)
        case Err(e) => Built(Err(e), effects)
        case Ok(blocks) => Built(Ok(front.pages.value + [Page(records[n], blocks)]), effects)
  }

  /** Every row's `build_blocks` call returns. */
  predicate AllBlocksFetched(records: seq<RawPage>, backend: Backend) {
    forall i :: 0 <= i < |records| ==> backend.buildBlocks(records[i].id).Ok?
  }

  /** The map succeeds exactly when every row's blocks can be fetched; it then
      holds one page per row, in order, with that row and its blocks, after
      one call per row. */
  lemma BuildSucceeds(records: seq<RawPage>, backend: Backend)
    ensures Build(records, backend).pages.Ok? <==> AllBlocksFetched(records, backend)
    ensures Build(records, backend).pages.Ok? ==>
      && Build(records, backend).effects == BlockFetches(records)
      && |Build(records, backend).pages.value| == |records|
      && forall i :: 0 <= i < |records| ==>
        Build(records, backend).pages.value[i] == Page(records[i], backend.buildBlocks(records[i].id).value)
  {
    BuildOkExactly(records, backend);
    if AllBlocksFetched(records, backend) {
      BuildAllPages(records, backend);
    }
  }

  lemma {:induction false} BuildOkExactly(records: seq<RawPage>, backend: Backend)
    ensures Build(records, backend).pages.Ok? <==> AllBlocksFetched(records, backend)
    decreases |records|
  {
    if records != [] {
      var n := |records| - 1;
      BuildOkExactly(records[..n], backend);
      assert AllBlocksFetched(records, backend)
         <==> AllBlocksFetched(records[..n], backend) && backend.buildBlocks(records[n].id).Ok?
      by {
        assert forall i :: 0 <= i < n ==> records[..n][i] == records[i];
      }
    }
  }

  lemma {:induction false} BuildAllPages(records: seq<RawPage>, backend: Backend)
    requires AllBlocksFetched(records, backend)
    ensures Build(records, backend).pages.Ok?
    ensures Build(records, backend).effects == BlockFetches(records)
    ensures |Build(records, backend).pages.value| == |records|
    ensures forall i :: 0 <= i < |records| ==>
      Build(records, backend).pages.value[i] == Page(records[i], backend.buildBlocks(records[i].id).value)
    decreases |records|
  {
    if records != [] {
      var n := |records| - 1;
      var front := Build(records[..n], backend);
      assert AllBlocksFetched(records[..n], backend) by {
        forall i | 0 <= i < n ensures backend.buildBlocks(records[..n][i].id).Ok? {
          assert records[..n][i] == records[i];
        }
      }
      BuildAllPages(records[..n], backend);
      var blocks := backend.buildBlocks(records[n].id).value;
      var pages := front.pages.value + [Page(records[n], blocks)];
      assert Build(records, backend) == Built(Ok(pages), front.effects + [BlockFetch(records[n].id)]);
      assert BlockFetches(records) == BlockFetches(records[..n]) + [BlockFetch(records[n].id)];
      forall i | 0 <= i < n
        ensures pages[i] == Page(records[i], backend.buildBlocks(records[i].id).value)
      {
        assert pages[i] == front.pages.value[i];
        assert records[..n][i] == records[i];
      }
    }
  }

  /** A failed map stopped at the first row whose `build_blocks` raised, with
      that exception, after the calls for the rows up to and including it. */
  lemma {:induction false} BuildFails(records: seq<RawPage>, backend: Backend)
    requires Build(records, backend).pages.Err?
    ensures var b := Build(records, backend);
      var k := |b.effects| - 1;
      && 0 <= k < |records|
      && b.effects == BlockFetches(records[..k + 1])
      && backend.buildBlocks(records[k].id) == Err(b.pages.error)
      && forall j :: 0 <= j < k ==> backend.buildBlocks(records[j].id).Ok?
    decreases |records|
  {
    var n := |records| - 1;
    var front := Build(records[..n], backend);
    if front.pages.Err? {
      BuildFails(records[..n], backend);
      var k := |front.effects| - 1;
      assert records[..n][..k + 1] == records[..k + 1];
      forall j | 0 <= j < k ensures backend.buildBlocks(records[j].id).Ok? {
        assert records[..n][j] == records[j];
      }
    } else {
      BuildSucceeds(records[..n], backend);
      assert records[..n + 1] == records;
      assert BlockFetches(records) == BlockFetches(records[..n]) + [BlockFetch(records[n].id)];
      forall j | 0 <= j < n ensures backend.buildBlocks(records[j].id).Ok? {
        assert records[..n][j] == records[j];
      }
    }
  }

  /** Whatever its outcome, the map's calls are those for a prefix of the rows. */
  lemma BuildEffects(records: seq<RawPage>, backend: Backend)
    ensures |Build(records, backend).effects| <= |records|
    ensures Build(records, backend).effects == BlockFetches(records[..|Build(records, backend).effects|])
  {
    if Build(records, backend).pages.Err? {
      BuildFails(records, backend);
    } else {
      BuildSucceeds(records, backend);
      assert records[..|records|] == records;
    }
  }

  /** Once a row raised, the later rows are never fetched. */
  lemma {:induction false} BuildStops(records: seq<RawPage>, backend: Backend, k: nat)
    requires k <= |records|
    requires Build(records[..k], backend).pages.Err?
    ensures Build(records, backend) == Build(records[..k], backend)
    decreases |records|
  {
    if k == |records| {
      assert records[..k] == records;
    } else {
      var shorter := records[..|records| - 1];
      assert shorter[..k] == records[..k];
      BuildStops(shorter, backend, k);
    }
  }

  /** The `build_blocks` calls `fetch` makes for the query's result rows. */
  function BlockFetches(records: seq<RawPage>): (effects: seq<Effect>)
    ensures |effects| == |records|
    ensures forall i :: 0 <= i < |records| ==> effects[i] == BlockFetch(records[i].id)
    ensures QueryCount(effects) == 0
    decreases |records|
  {
    if records == [] then []
    else
      var n := |records| - 1;
      var front := BlockFetches(records[..n]);
      QueryCountAppend(front, [BlockFetch(records[n].id)]);
      front + [BlockFetch(records[n].id)]
  }

  /** What one call of `fetch` returns, the memo it leaves, and what it did. */
  datatype FetchResult = FetchResult(
    result: Result<seq<Page>, RubyError>,
    cache: Option<seq<Page>>,
    effects: seq<Effect>)

  /** `fetch` on an entry whose memo (`@fetch`) is `cache`. An exception from
      the query or from `build_blocks` leaves the memo as it was (`nil`). */
  function FetchStep(config: Hash, backend: Backend, cache: Option<seq<Page>>): FetchResult {
    if !backend.idPresent(Id(config)) then FetchResult(Ok([]), cache, [])
    else if cache.Some? then FetchResult(Ok(cache.value), cache, [])
    else
      var query := QueryFor(config);
      match backend.databaseQuery(query)
      case Err(e) => FetchResult(Err(e), None, [DatabaseQuery(query)])
      case Ok(records) =>
        var built := Build(records, backend);
        match built.pages
        case Err(e) => FetchResult(Err(e), None, [DatabaseQuery(query)] + built.effects)
        case Ok(pages) => FetchResult(Ok(pages), Some(pages), [DatabaseQuery(query)] + built.effects)
  }

  /** Without an id `fetch` returns no pages and does nothing; with a memo it
      returns the memo and does nothing; otherwise it sends exactly one query,
      first, succeeds exactly when the query and every row's `build_blocks`
      do, then has one page per result row, and memoizes only a success. */
  lemma FetchStepCases(config: Hash, backend: Backend, cache: Option<seq<Page>>)
    ensures var f := FetchStep(config, backend, cache);
      && (!backend.idPresent(Id(config)) ==> f == FetchResult(Ok([]), cache, []))
      && (backend.idPresent(Id(config)) && cache.Some? ==> f == FetchResult(Ok(cache.value), cache, []))
      && (backend.idPresent(Id(config)) && cache.None? ==>
        var answer := backend.databaseQuery(QueryFor(config));
        && QueryCount(f.effects) == 1
        && f.effects[0] == DatabaseQuery(QueryFor(config))
        && (f.result.Ok? <==> answer.Ok? && AllBlocksFetched(answer.value, backend))
        && (f.result.Ok? ==> |f.result.value| == |answer.value|)
        && f.cache == (if f.result.Ok? then Some(f.result.value) else None))
  {
    if backend.idPresent(Id(config)) && cache.None? {
      var query := QueryFor(config);
      var answer := backend.databaseQuery(query);
      if answer.Ok? {
        var built := Build(answer.value, backend);
        BuildSucceeds(answer.value, backend);
        BuildEffects(answer.value, backend);
        QueryCountAppend([DatabaseQuery(query)], built.effects);
      } else {
        assert QueryCount([DatabaseQuery(query)]) == 1 + QueryCount([DatabaseQuery(query)][1..]);
      }
    }
  }

  /** A fetch that raised memoizes nothing: the next fetch sends the query
      again and does everything the first did. */
  lemma FailedFetchRetries(config: Hash, backend: Backend)
    ensures
      var first := FetchStep(config, backend, None);
      first.result.Err? ==>
        && first.cache == None
        && FetchStep(config, backend, first.cache) == first
        && QueryCount(FetchStep(config, backend, first.cache).effects) == 1
  {
    FetchStepCases(config, backend, None);
  }

  /** Memoization: once a fetch has succeeded, the next returns the same
      pages and does nothing, so the two together query Notion at most once. */
  lemma FetchMemoized(config: Hash, backend: Backend)
    ensures
      var first := FetchStep(config, backend, None);
      var second := FetchStep(config, backend, first.cache);
      first.result.Ok? ==>
        && second.result == first.result
        && second.effects == []
        && QueryCount(first.effects + second.effects) <= 1
  {
    var first := FetchStep(config, backend, None);
    var second := FetchStep(config, backend, first.cache);
    FetchStepCases(config, backend, None);
    if first.result.Ok? {
      assert first.effects + second.effects == first.effects;
    }
  }

  /** With an entry whose id is `nil`, and an `id?` that rejects `nil`,
      `fetch` returns no pages and does not contact Notion. */
  lemma NilIdFetchesNothing(config: Hash, backend: Backend, cache: Option<seq<Page>>)
    requires !backend.idPresent(Null)
    requires "id" !in config || config["id"] == Null
    ensures FetchStep(config, backend, cache).result == Ok([])
    ensures FetchStep(config, backend, cache).effects == []
  {
  }

  /** The query of an entry whose id is present always names the database. */
  lemma QueryNamesDatabase(config: Hash)
    requires Id(config) != Null
    ensures QueryFor(config)[DatabaseIdKey] == Id(config)
  {
  }

  /** A first fetch for an entry with an id starts with a `database_query`
      that carries the entry's configured filter and sort order unchanged. */
  lemma FilterAndSortsSent(config: Hash, backend: Backend)
    requires backend.idPresent(Id(config))
    ensures var effects := FetchStep(config, backend, None).effects;
      && |effects| > 0 && effects[0].DatabaseQuery?
      && (Filter(config) != Null ==>
        FilterKey in effects[0].query && effects[0].query[FilterKey] == config["filter"])
      && (Sorts(config) != Null ==>
        SortsKey in effects[0].query && effects[0].query[SortsKey] == config["sorts"])
  {
    FetchStepCases(config, backend, None);
  }

  /** `NotionDatabase`: one entry of the configuration, the client it queries
      through, and the memo of its first successful fetch. */
  class NotionDatabase {
    const config: Hash
    const backend: Backend
    const world: World
    var cache: Option<seq<Page>>

    /** The memo only ever holds what a first fetch stores. */
    ghost predicate Valid()
      reads this
    {
      cache.Some? ==> cache == FetchStep(config, backend, None).cache
    }

    constructor(config: Hash, backend: Backend, world: World)
      ensures Valid()
      ensures this.config == config && this.backend == backend && this.world == world
      ensures cache == None
    {
      this.config := config;
      this.backend := backend;
      this.world := world;
      cache := None;
    }

    method Fetch() returns (r: Result<seq<Page>, RubyError>)
      requires Valid()
      modifies this, world
      ensures Valid()
      ensures r == FetchStep(config, backend, old(cache)).result
      ensures cache == FetchStep(config, backend, old(cache)).cache
      ensures world.trace == old(world.trace) + FetchStep(config, backend, old(cache)).effects
      ensures world.files == old(world.files)
      ensures old(cache).Some? ==> r == FetchStep(config, backend, None).result
    {
      FetchStepCases(config, backend, None);
      if !backend.idPresent(Id(config)) {
        return Ok([]);
      }
      if cache.Some? {
        return Ok(cache.value);
      }
      var query := QueryFor(config);
      world.Perform(DatabaseQuery(query));
      var answer := backend.databaseQuery(query);
      if answer.Err? {
        return Err(answer.error);
      }
      var built := BuildPages(answer.value);
      ghost var effects := Build(answer.value, backend).effects;
      AppendAssoc(old(world.trace), [DatabaseQuery(query)], effects);
      if built.Err? {
        assert FetchStep(config, backend, None)
            == FetchResult(Err(built.error), None, [DatabaseQuery(query)] + effects);
        return Err(built.error);
      }
      assert FetchStep(config, backend, None)
          == FetchResult(Ok(built.value), Some(built.value), [DatabaseQuery(query)] + effects);
      cache := Some(built.value);
      r := Ok(built.value);
    }

    /** The `.map` over the result rows: one `build_blocks` call and one page
        per row, in order, until a call raises. */
    method BuildPages(records: seq<RawPage>) returns (r: Result<seq<Page>, RubyError>)
      modifies world
      ensures r == Build(records, backend).pages
      ensures world.trace == old(world.trace) + Build(records, backend).effects
      ensures world.files == old(world.files)
    {
      var pages := [];
      var i := 0;
      while i < |records|
        invariant 0 <= i <= |records|
        invariant Build(records[..i], backend).pages == Ok(pages)
        invariant world.trace == old(world.trace) + Build(records[..i], backend).effects
        invariant world.files == old(world.files)
      {
        ghost var before := Build(records[..i], backend).effects;
        var blocks := backend.buildBlocks(records[i].id);
        world.Perform(BlockFetch(records[i].id));
        assert records[..i + 1][..i] == records[..i];
        AppendAssoc(old(world.trace), before, [BlockFetch(records[i].id)]);
        if blocks.Err? {
          BuildStops(records, backend, i + 1);
          return Err(blocks.error);
        }
        pages := pages + [Page(records[i], blocks.value)];
        i := i + 1;
      }
      assert records[..i] == records;
      r := Ok(pages);
    }
  }
}
