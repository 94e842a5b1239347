/// `FetchCommand.process`: the `jekyll fetch_notion` command. It checks for
/// a Notion token, then runs one collection generator per configured
/// database, in configuration order, each to completion before the next.
module Commands {
  import opened RubyValues
  import opened Host
  import opened Resources
  import opened Generators

  const TokenMissing: string := "NOTION_TOKEN not provided. Cannot read from Notion."

  /** `ENV["NOTION_TOKEN"]` is set and not empty. */
  predicate TokenPresent(token: Option<string>) {
    token.Some? && token.value != ""
  }

  /** `notion_token?`: true when there is a token; otherwise one warning is
      logged and the answer is false. */
  method NotionToken(token: Option<string>, world: World) returns (present: bool)
    modifies world
    ensures present <==> token.Some? && token.value != ""
    ensures present ==> world.trace == old(world.trace)
    ensures !present ==> world.trace == old(world.trace) + [Warn(LogTopic, TokenMissing)]
    ensures world.files == old(world.files)
  {
    if token.None? || token.value == "" {
      world.Perform(Warn(LogTopic, TokenMissing));
      return false;
    }
    return true;
  }

  /** `config_databases`: `@config["notion"]["databases"] || []`. Without a
      "notion" section the first lookup is on `nil` and raises. */
  function ConfigDatabases(site: SiteConfig): (r: Result<seq<Hash>, RubyError>)
    ensures site.notion.None? ==> r == Err(NoMethodError)
    ensures site.notion.Some? && site.notion.value.databases.Some? ==> r == Ok(site.notion.value.databases.value)
    ensures site.notion.Some? && site.notion.value.databases.None? ==> r == Ok([])
  {
    match site.notion
    case None => Err(NoMethodError)
    case Some(section) =>
      match section.databases
      case Some(entries) => Ok(entries)
      case None => Ok([])
  }

  /** One iteration of `process`: a fresh `NotionDatabase` for the entry and
      a `CollectionGenerator` over it, generated to the end. */
  function DatabaseStep(site: SiteConfig, backend: Backend, lib: Library): Hash -> Run {
    entry => GenerateRun(site.source, entry, backend, lib, None)
  }

  /** Everything `process` does, and how it ends. */
  function ProcessRun(site: SiteConfig, token: Option<string>, backend: Backend, lib: Library): Run {
    if !TokenPresent(token) then Run([Warn(LogTopic, TokenMissing)], Done)
    else
      match ConfigDatabases(site)
      case Err(e) => Run([], Raised(e))
      case Ok(entries) => RunAll(entries, DatabaseStep(site, backend, lib))
  }

  /** `FetchCommand.process`. The class-level `@config` it assigns is only
      read during the call, so it is the parameter `site` here. */
  method Process(site: SiteConfig, token: Option<string>, backend: Backend, lib: Library, world: World)
    returns (outcome: Outcome)
    modifies world
    ensures outcome == ProcessRun(site, token, backend, lib).outcome
    ensures world.trace == old(world.trace) + ProcessRun(site, token, backend, lib).effects
    ensures world.files == Replay(world.write, old(world.files), ProcessRun(site, token, backend, lib).effects)
  {
    var present := NotionToken(token, world);
    if !present {
      assert Replay(world.write, old(world.files), [Warn(LogTopic, TokenMissing)])
          == Replay(world.write, old(world.files), []);
      return Done;
    }
    var databases := ConfigDatabases(site);
    if databases.Err? {
      return Raised(databases.error);
    }
    outcome := RunEntries(site, databases.value, backend, lib, world);
  }

  /** The `each` loop of `process` over the configured entries. */
  method RunEntries(site: SiteConfig, entries: seq<Hash>, backend: Backend, lib: Library, world: World)
    returns (outcome: Outcome)
    modifies world
    ensures outcome == RunAll(entries, DatabaseStep(site, backend, lib)).outcome
    ensures world.trace == old(world.trace) + RunAll(entries, DatabaseStep(site, backend, lib)).effects
    ensures world.files == Replay(world.write, old(world.files), RunAll(entries, DatabaseStep(site, backend, lib)).effects)
  {
    ghost var step := DatabaseStep(site, backend, lib);
    var i := 0;
    while i < |entries|
      invariant 0 <= i <= |entries|
      invariant RunAll(entries[..i], step).outcome == Done
      invariant world.trace == old(world.trace) + RunAll(entries[..i], step).effects
      invariant world.files == Replay(world.write, old(world.files), RunAll(entries[..i], step).effects)
    {
      ghost var before := RunAll(entries[..i], step).effects;
      RunAllExtend(entries, step, i);
      var o := RunEntry(site, entries[i], backend, lib, world);
      ReplayAppend(world.write, old(world.files), before, step(entries[i]).effects);
      AppendAssoc(old(world.trace), before, step(entries[i]).effects);
      if o.Raised? {
        RunAllStops(entries, step, i + 1);
        return o;
      }
      i := i + 1;
    }
    assert entries[..i] == entries;
    outcome := Done;
  }

  /** One configured entry: a fresh `NotionDatabase` and a `CollectionGenerator`
      over it, generated to the end. */
  method RunEntry(site: SiteConfig, entry: Hash, backend: Backend, lib: Library, world: World)
    returns (outcome: Outcome)
    modifies world
    ensures outcome == DatabaseStep(site, backend, lib)(entry).outcome
    ensures world.trace == old(world.trace) + DatabaseStep(site, backend, lib)(entry).effects
    ensures world.files == Replay(world.write, old(world.files), DatabaseStep(site, backend, lib)(entry).effects)
  {
    var database := new NotionDatabase(entry, backend, world);
    var generator := new CollectionGenerator(database, Null, site);
    outcome := generator.Generate(lib);
  }

  /** Without a token, `process` logs the warning and does nothing else:
      no query, no file. */
  lemma NoTokenOnlyWarns(site: SiteConfig, token: Option<string>, backend: Backend, lib: Library)
    requires !TokenPresent(token)
    ensures ProcessRun(site, token, backend, lib) == Run([Warn(LogTopic, TokenMissing)], Done)
  {
  }

  /** `databases: nil` is an empty list: no work and no error. */
  lemma NilDatabasesDoNothing(site: SiteConfig, token: Option<string>, backend: Backend, lib: Library)
    requires TokenPresent(token)
    requires site.notion == Some(NotionSection(None))
    ensures ProcessRun(site, token, backend, lib) == Run([], Done)
  {
  }

  /** The entries `id?` accepts. */
  function EntriesWithId(entries: seq<Hash>, backend: Backend): nat
    decreases |entries|
  {
    if entries == [] then 0
    else
      var n := |entries| - 1;
      EntriesWithId(entries[..n], backend) + (if backend.idPresent(Id(entries[n])) then 1 else 0)
  }

  /** A completed run of the entries queries Notion exactly once per entry
      with an id: each entry gets its own database object and its own query. */
  lemma {:induction false} OneQueryPerEntry(site: SiteConfig, entries: seq<Hash>, backend: Backend, lib: Library)
    requires RunAll(entries, DatabaseStep(site, backend, lib)).outcome == Done
    ensures QueryCount(RunAll(entries, DatabaseStep(site, backend, lib)).effects) == EntriesWithId(entries, backend)
    decreases |entries|
  {
    if entries != [] {
      var n := |entries| - 1;
      var step := DatabaseStep(site, backend, lib);
      var previous := RunAll(entries[..n], step);
      assert previous.outcome == Done;
      OneQueryPerEntry(site, entries[..n], backend, lib);
      GenerateQueriesAtMostOnce(site.source, entries[n], backend, lib, None);
      QueryCountAppend(previous.effects, step(entries[n]).effects);
    }
  }

  /** Two entries naming the same database are fetched separately: a
      completed process queries twice, runs the two entries one after the
      other, and each run creates its files only under its own collection's
      directory. */
  lemma DuplicateEntriesQueryTwice(site: SiteConfig, token: Option<string>, e1: Hash, e2: Hash,
                                   backend: Backend, lib: Library)
    requires TokenPresent(token)
    requires site.notion == Some(NotionSection(Some([e1, e2])))
    requires Id(e1) == Id(e2) && backend.idPresent(Id(e1))
    requires ProcessRun(site, token, backend, lib).outcome == Done
    ensures QueryCount(ProcessRun(site, token, backend, lib).effects) == 2
    ensures ProcessRun(site, token, backend, lib).effects
         == GenerateRun(site.source, e1, backend, lib, None).effects
          + GenerateRun(site.source, e2, backend, lib, None).effects
    ensures CreatesUnder(GenerateRun(site.source, e1, backend, lib, None).effects,
                         CollectionDir(site.source, CollectionName(e1), lib))
    ensures CreatesUnder(GenerateRun(site.source, e2, backend, lib, None).effects,
                         CollectionDir(site.source, CollectionName(e2), lib))
  {
    var entries := [e1, e2];
    var step := DatabaseStep(site, backend, lib);
    OneQueryPerEntry(site, entries, backend, lib);
    assert entries[..1] == [e1];
    assert [e1][..0] == [];
    assert EntriesWithId([e1], backend) == 1;
    assert RunAll([e1], step) == Run(step(e1).effects, step(e1).outcome);
    GenerateCreatesUnder(site.source, e1, backend, lib, None);
    GenerateCreatesUnder(site.source, e2, backend, lib, None);
  }

  /** `process` builds a collection generator whatever the entry's "data"
      key says: the key does not change what an entry's run does. */
  lemma DataKeyIgnored(site: SiteConfig, entry: Hash, data: Json, backend: Backend, lib: Library)
    ensures DatabaseStep(site, backend, lib)(entry["data" := data])
         == DatabaseStep(site, backend, lib)(entry)
  {
    var changed := entry["data" := data];
    assert Id(changed) == Id(entry);
    assert QueryFor(changed) == QueryFor(entry);
    assert CollectionName(changed) == CollectionName(entry);
  }

  /** With a writer that skips existing files, every file present before
      `process` is still there afterwards with its content. */
  lemma LocalFilesKept(site: SiteConfig, token: Option<string>, backend: Backend, lib: Library, files: Files)
    ensures var after := Replay(SkipIfExists, files, ProcessRun(site, token, backend, lib).effects);
      forall p :: p in files ==> p in after && after[p] == files[p]
  {
    var effects := ProcessRun(site, token, backend, lib).effects;
    forall p | p in files
      ensures p in Replay(SkipIfExists, files, effects)
      ensures Replay(SkipIfExists, files, effects)[p] == files[p]
    {
      ExistingFilesSurvive(files, effects, p);
    }
  }
}
