/// What the plugin acts upon outside itself: the Jekyll site configuration,
/// the source directory (a map from path to content), Jekyll's logger and
/// the Notion API. Every outward action is recorded, in order, in one trace
/// of effects, so that order and counts can be stated about runs.
module Host {
  import opened RubyValues

  type Files = map<string, string>

  /** `FileCreator.new(path, content).create!`, whose source is not part of
      this model: a function from the directory contents before to those after. */
  type Writer = (Files, string, string) -> Files

  /** The keys of the Notion `database_query` request. */
  datatype QueryKey = DatabaseIdKey | FilterKey | SortsKey

  type Query = map<QueryKey, Json>

  /** The topic every log line of the plugin is filed under. */
  const LogTopic: string := "Jekyll Notion:"

  datatype Effect =
    | DatabaseQuery(query: Query)                 // `@notion.database_query(query)`
    | BlockFetch(pageId: string)                  // `build_blocks(page.id)`
    | CreateFile(path: string, content: string)   // `FileCreator#create!`
    | Info(topic: string, message: string)        // `Jekyll.logger.info`
    | Warn(topic: string, message: string)        // `Jekyll.logger.warn`

  /** The `notion` section of the site configuration. */
  datatype NotionSection = NotionSection(databases: Option<seq<Hash>>)

  /** The site configuration, reduced to the keys the plugin reads. */
  datatype SiteConfig = SiteConfig(source: string, notion: Option<NotionSection>)

  /** The effects a run performed, and how it ended. */
  datatype Run = Run(effects: seq<Effect>, outcome: Outcome)

  /** The directory contents after one effect: only file creations touch it. */
  function Apply(write: Writer, files: Files, e: Effect): Files {
    if e.CreateFile? then write(files, e.path, e.content) else files
  }

  /** The directory contents after a sequence of effects. */
  function Replay(write: Writer, files: Files, effects: seq<Effect>): Files
    decreases |effects|
  {
    if effects == [] then files else Replay(write, Apply(write, files, effects[0]), effects[1..])
  }

  lemma {:induction false} ReplayAppend(write: Writer, files: Files, a: seq<Effect>, b: seq<Effect>)
    ensures Replay(write, files, a + b) == Replay(write, Replay(write, files, a), b)
    decreases |a|
  {
    if a != [] {
      assert (a + b)[1..] == a[1..] + b;
      ReplayAppend(write, Apply(write, files, a[0]), a[1..], b);
    } else {
      assert a + b == b;
    }
  }

  lemma AppendAssoc(a: seq<Effect>, b: seq<Effect>, c: seq<Effect>)
    ensures a + (b + c) == (a + b) + c
  {
  }

  /** The number of `database_query` calls in a trace. */
  function QueryCount(effects: seq<Effect>): nat
    decreases |effects|
  {
    if effects == [] then 0
    else (if effects[0].DatabaseQuery? then 1 else 0) + QueryCount(effects[1..])
  }

  lemma {:induction false} QueryCountAppend(a: seq<Effect>, b: seq<Effect>)
    ensures QueryCount(a + b) == QueryCount(a) + QueryCount(b)
    decreases |a|
  {
    if a != [] {
      assert (a + b)[1..] == a[1..] + b;
      QueryCountAppend(a[1..], b);
    } else {
      assert a + b == b;
    }
  }

  /** The paths a trace asks the writer to create. */
  function Targets(effects: seq<Effect>): set<string>
    decreases |effects|
  {
    if effects == [] then {}
    else (if effects[0].CreateFile? then {effects[0].path} else {}) + Targets(effects[1..])
  }

  /** The only frame condition assumed of the writer: paths other than the
      one it is asked to create keep their presence and their content. */
  ghost predicate KeepsOtherPaths(write: Writer) {
    forall files: Files, path: string, content: string, other: string
      | other != path ::
      && (other in write(files, path, content) <==> other in files)
      && (other in files ==> write(files, path, content)[other] == files[other])
  }

  /** A path the trace never creates is left as it was, by any writer that
      keeps other paths. */
  lemma {:induction false} UntargetedPathsKept(write: Writer, files: Files, effects: seq<Effect>, p: string)
    requires KeepsOtherPaths(write)
    requires p !in Targets(effects)
    ensures p in Replay(write, files, effects) <==> p in files
    ensures p in files ==> Replay(write, files, effects)[p] == files[p]
    decreases |effects|
  {
    if effects != [] {
      var next := Apply(write, files, effects[0]);
      assert p in next <==> p in files;
      assert p in files ==> next[p] == files[p];
      UntargetedPathsKept(write, next, effects[1..], p);
    }
  }

  /** A writer that skips existing files: a file already in the directory is
      never overwritten; otherwise the content is written as given. This is
      an assumed policy for `FileCreator#create!`, whose code is not part of
      this model. */
  function SkipIfExists(files: Files, path: string, content: string): Files {
    if path in files then files else files[path := content]
  }

  lemma SkipIfExistsKeepsOtherPaths()
    ensures KeepsOtherPaths(SkipIfExists)
  {
  }

  /** Under that policy every file present before a run is still there, with
      its content, after it: local posts survive a fetch. */
  lemma {:induction false} ExistingFilesSurvive(files: Files, effects: seq<Effect>, p: string)
    requires p in files
    ensures p in Replay(SkipIfExists, files, effects)
    ensures Replay(SkipIfExists, files, effects)[p] == files[p]
    decreases |effects|
  {
    if effects != [] {
      ExistingFilesSurvive(Apply(SkipIfExists, files, effects[0]), effects[1..], p);
    }
  }

  /** Under that policy, when several creations target a path that did not
      exist, the first one decides its content. */
  lemma {:induction false} FirstWriterWins(files: Files, effects: seq<Effect>, k: nat)
    requires k < |effects| && effects[k].CreateFile?
    requires effects[k].path !in files
    requires effects[k].path !in Targets(effects[..k])
    ensures effects[k].path in Replay(SkipIfExists, files, effects)
    ensures Replay(SkipIfExists, files, effects)[effects[k].path] == effects[k].content
  {
    var p := effects[k].path;
    assert effects == effects[..k] + effects[k..];
    ReplayAppend(SkipIfExists, files, effects[..k], effects[k..]);
    SkipIfExistsKeepsOtherPaths();
    UntargetedPathsKept(SkipIfExists, files, effects[..k], p);
    var before := Replay(SkipIfExists, files, effects[..k]);
    assert effects[k..][1..] == effects[k + 1..];
    ExistingFilesSurvive(Apply(SkipIfExists, before, effects[k]), effects[k + 1..], p);
  }

  /** Runs an action over items in order, stopping at the first one that
      raises; the effects of that last item are kept. */
  function RunAll<T>(items: seq<T>, step: T -> Run): Run
    decreases |items|
  {
    if items == [] then Run([], Done)
    else
      var previous := RunAll(items[..|items| - 1], step);
      if previous.outcome.Raised? then previous
      else
        var last := step(items[|items| - 1]);
        Run(previous.effects + last.effects, last.outcome)
  }

  /** One more item after a prefix that completed. */
  lemma RunAllExtend<T>(items: seq<T>, step: T -> Run, k: nat)
    requires k < |items|
    requires RunAll(items[..k], step).outcome == Done
    ensures RunAll(items[..k + 1], step)
         == Run(RunAll(items[..k], step).effects + step(items[k]).effects, step(items[k]).outcome)
  {
    assert items[..k + 1][..k] == items[..k];
  }

  /** Once an item raised, the later items are never run. */
  lemma {:induction false} RunAllStops<T>(items: seq<T>, step: T -> Run, k: nat)
    requires k <= |items|
    requires RunAll(items[..k], step).outcome.Raised?
    ensures RunAll(items, step) == RunAll(items[..k], step)
    decreases |items|
  {
    if k == |items| {
      assert items[..k] == items;
    } else {
      var shorter := items[..|items| - 1];
      assert shorter[..k] == items[..k];
      RunAllStops(shorter, step, k);
    }
  }

  /** If no single item queries Notion, neither does the whole run. */
  lemma {:induction false} RunAllQueryFree<T>(items: seq<T>, step: T -> Run)
    requires forall x :: QueryCount(step(x).effects) == 0
    ensures QueryCount(RunAll(items, step).effects) == 0
    decreases |items|
  {
    if items != [] {
      var previous := RunAll(items[..|items| - 1], step);
      RunAllQueryFree(items[..|items| - 1], step);
      if previous.outcome.Done? {
        QueryCountAppend(previous.effects, step(items[|items| - 1]).effects);
      }
    }
  }

  /** The world the plugin runs in: the source directory, written through
      the writer, and the trace of everything done so far. */
  class World {
    const write: Writer
    var files: Files
    var trace: seq<Effect>

    constructor(write: Writer, files: Files)
      ensures this.write == write && this.files == files && trace == []
    {
      this.write := write;
      this.files := files;
      trace := [];
    }

    /** Performs one outward action. */
    method Perform(e: Effect)
      modifies this
      ensures trace == old(trace) + [e]
      ensures files == Apply(write, old(files), e)
    {
      files := Apply(write, files, e);
      trace := trace + [e];
    }
  }
}
