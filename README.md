# jekyll-fetch-notion, modelled in Dafny

This project models the core of the Jekyll plugin `jekyll-fetch-notion`: the
`jekyll fetch_notion` command, which reads the `notion.databases` entries of
the site configuration and, for each entry, queries the Notion database it
names, builds one page per result row, derives a destination path
(`<source>/_<collection>/<file>`, where posts are named
`YYYY-MM-DD-<slug>.md` and the date comes from the page's "date" property or
else its creation time), writes the converted page there and logs it.

The model is organised as the plugin is:

- `ruby_values.dfy` (`RubyValues`): configuration values with `nil`, Ruby
  truthiness, string interpolation, the exceptions the code distinguishes.
- `decimal.dfy` (`Decimal`) and `dates.dfy` (`Dates`): zero-padded decimal
  printing and `strftime("%Y-%m-%d")`, with a parser proved to invert it.
- `host.dfy` (`Host`): what the plugin acts on. Every outward action (a
  Notion query, a block fetch, a file creation, a log line) is an `Effect`
  appended to one trace held by the `World` object, whose `files` map is the
  source directory. `Replay` gives the directory after a trace; `RunAll` is
  the specification of an `each` loop that stops at the first exception.
- `notion_database.dfy` (`Resources`): `NotionDatabase`, a class whose
  mutable field is the `@fetch` memo; its query, its lookups and `fetch`.
- `collection_generator.dfy` (`Generators`): `CollectionGenerator` with
  `generate`, `make_path`, `make_filename` and `date_for`.
- `database_factory.dfy` (`Factories`): `DatabaseFactory.for`.
- `fetch_notion.dfy` (`Commands`): `FetchCommand.process`, `notion_token?`
  and `config_databases`.

Code whose source is not part of this model is a parameter: the Notion
client, `id?` and `build_blocks` (`Resources.Backend`); `slugify`,
`Time.parse(..).to_date`, the Markdown converter and `inspect`
(`Generators.Library`); and `FileCreator#create!` (`World.write`). Each
imperative operation is a method proved against a specification function of
its inputs and the old state (`FetchStep`, `RunPages`, `GenerateRun`,
`ProcessRun`); the properties are proved as lemmas about those functions.

Two behaviours of the code are kept as written, although one might expect
otherwise:

- `date_for` rescues only `TypeError` and `NoMethodError`
  (lib/jekyll-fetch-notion/generators/collection_generator.rb:54). Any other
  exception from parsing the "date" property propagates and stops the run; it
  does not fall back to the creation time
  (`Generators.UnrescuedErrorStopsGenerate`).
- `process` builds a `CollectionGenerator` for every entry, whatever its
  "data" key says; only `DatabaseFactory.for` looks at that key
  (`Commands.DataKeyIgnored`).

## Model

| member | source | states |
|---|---|---|
| Decimal.ZeroPadDenotes | lib/jekyll-fetch-notion/generators/collection_generator.rb:34 | the padded form of a number is all digits and denotes that number |
| Decimal.ZeroPadWidth | lib/jekyll-fetch-notion/generators/collection_generator.rb:34 | a number below 10^w is printed in exactly w characters |
| Decimal.ValueBelowPow10 | lib/jekyll-fetch-notion/generators/collection_generator.rb:34 | a string of k digits denotes a number below 10^k |
| Decimal.ZeroPadOfDigits | lib/jekyll-fetch-notion/generators/collection_generator.rb:34 | a digit string is the padding of its own value to its own length |
| Dates.StrftimeShape | lib/jekyll-fetch-notion/generators/collection_generator.rb:34 | for years 0 to 9999 the date prints as `\d{4}-\d{2}-\d{2}`, with the padded year, month and day in their places |
| Dates.ParseStrftime | lib/jekyll-fetch-notion/generators/collection_generator.rb:34 | parsing the printed date gives back the date |
| Dates.StrftimeParse | lib/jekyll-fetch-notion/generators/collection_generator.rb:34 | every string the parser accepts is the printed form of the date it yields |
| Host.UntargetedPathsKept | lib/jekyll-fetch-notion/generators/collection_generator.rb:24-26 | with a writer that leaves other paths alone, a path no creation targets keeps its presence and content |
| Host.SkipIfExistsKeepsOtherPaths | lib/jekyll-fetch-notion/generators/collection_generator.rb:25 | the skip-if-exists writer leaves other paths alone |
| Host.ExistingFilesSurvive | spec/jekyll-fetch-notion_spec.rb:198-204 | under skip-if-exists, every file present before a trace is present afterwards with its content |
| Host.FirstWriterWins | lib/jekyll-fetch-notion/generators/collection_generator.rb:24-26 | under skip-if-exists, the first creation of a new path decides its content; later ones to that path change nothing |
| Host.RunAllExtend | lib/jekyll-fetch-notion/generators/collection_generator.rb:16-19 | after a prefix of the loop completed, one more item appends its effects and its outcome |
| Host.RunAllStops | lib/jekyll-fetch-notion/generators/collection_generator.rb:16-19 | once an item raised, later items are never run |
| Host.RunAllQueryFree | lib/jekyll-fetch-notion/generators/collection_generator.rb:16-19 | a loop whose items never query Notion issues no query |
| Host.World.Perform | lib/jekyll-fetch-notion/generators/collection_generator.rb:25 | an action is appended to the trace and only a file creation changes the directory, through the writer |
| Resources.CollectionName | lib/jekyll-fetch-notion/notion_database.rb:25-27 | the configured collection when it is truthy, otherwise "posts"; never falsy |
| Resources.DataName | lib/jekyll-fetch-notion/notion_database.rb:29-31 | the "data" value when present, `nil` otherwise |
| Resources.Compact | lib/jekyll-fetch-notion/notion_database.rb:40 | exactly the keys whose value is not `nil`, with their values |
| Resources.QueryFor | lib/jekyll-fetch-notion/notion_database.rb:35-41 | the query has the database id, filter and sorts keys exactly when those are not `nil`, with the configured values, and never a `nil` value |
| Resources.QueryNamesDatabase | lib/jekyll-fetch-notion/notion_database.rb:37 | when the id is not `nil`, the query names it as the database id |
| Resources.FilterAndSortsSent | spec/jekyll-fetch-notion_spec.rb:119-157 | a first fetch for an entry with an id starts with a query carrying the configured filter and sort order unchanged |
| Resources.BuildSucceeds | lib/jekyll-fetch-notion/notion_database.rb:9-14 | the map over the rows succeeds exactly when every row's `build_blocks` returns; it then holds one page per row, in order, with that row and its blocks, after one block fetch per row |
| Resources.BuildFails | lib/jekyll-fetch-notion/notion_database.rb:9-14 | a failed map stopped at the first row whose `build_blocks` raised, with that exception, after the block fetches for the rows up to and including it |
| Resources.BuildEffects | lib/jekyll-fetch-notion/notion_database.rb:12 | whatever its outcome, the map fetched the blocks of a prefix of the rows, in order |
| Resources.BuildStops | lib/jekyll-fetch-notion/notion_database.rb:9-14 | once a row's `build_blocks` raised, later rows are not visited |
| Resources.BlockFetches | lib/jekyll-fetch-notion/notion_database.rb:12 | one block fetch per result row, in order, and no query |
| Resources.FetchStepCases | lib/jekyll-fetch-notion/notion_database.rb:6-15 | without an id: no pages, no action; with a memo: the memo, no action; otherwise exactly one query, sent first; success exactly when the query succeeds and every row's blocks are fetched; one page per row; only a success is memoized |
| Resources.FailedFetchRetries | lib/jekyll-fetch-notion/notion_database.rb:9 | a fetch that raised stores no memo, so the next fetch repeats it, query included |
| Resources.FetchMemoized | lib/jekyll-fetch-notion/notion_database.rb:9 | after a successful fetch the next returns the same pages and does nothing: at most one query in all |
| Resources.NilIdFetchesNothing | spec/jekyll-fetch-notion_spec.rb:68-76 | an entry whose id is `nil` returns no pages and sends no query |
| Resources.NotionDatabase.Fetch | lib/jekyll-fetch-notion/notion_database.rb:6-15 | result, new memo and actions are those of `FetchStep` on the old memo; no file changes; the memo stays one a first fetch stores, so a memoized fetch returns what the first fetch returned |
| Resources.NotionDatabase.BuildPages | lib/jekyll-fetch-notion/notion_database.rb:9-14 | the pages or the exception are those of `Build` over the rows, and its block fetches are performed, in order |
| Generators.DateFallback | lib/jekyll-fetch-notion/generators/collection_generator.rb:50-58 | the creation time is parsed exactly when parsing the "date" property raised `TypeError` or `NoMethodError`; otherwise that parse's outcome stands |
| Generators.PostFilenameRoundTrip | lib/jekyll-fetch-notion/generators/collection_generator.rb:34 | a post filename with a four-digit year reads back as its date and slug |
| Generators.PostFilenameShape | spec/jekyll-fetch-notion_spec.rb:97-100 | a post filename with a four-digit year matches `\d{4}-\d{2}-\d{2}-.*\.md` |
| Generators.FilenameByCollection | lib/jekyll-fetch-notion/generators/collection_generator.rb:32-38 | outside "posts" the name is the slug plus ".md"; in "posts" a name exists exactly when the page has a date, carries that date's error otherwise, and has the post shape and reads back as date and slug |
| Generators.PathLayout | lib/jekyll-fetch-notion/generators/collection_generator.rb:28-30 | a path exists exactly when the filename does, and is `<source>/_<collection>/` followed by the filename |
| Generators.CreatedTimeNamesPost | spec/jekyll-fetch-notion_spec.rb:252-254 | a post without a date property created on 2022-09-17 and slugged "tables" is named `2022-09-17-tables.md` |
| Generators.PathDependsOnTitleAndDate | lib/jekyll-fetch-notion/generators/collection_generator.rb:28-38 | two pages with the same title and date get the same path |
| Generators.OtherCollectionsIgnoreDates | lib/jekyll-fetch-notion/generators/collection_generator.rb:35-37 | outside "posts" the path exists and does not depend on how dates parse |
| Generators.CompletedRunShape | lib/jekyll-fetch-notion/generators/collection_generator.rb:15-20 | a completed loop performed, per page in fetch order, one creation at the page's path with its converted content and then one log line |
| Generators.OtherCollectionsRaiseOnlyInConvert | lib/jekyll-fetch-notion/generators/collection_generator.rb:15-20 | outside "posts" the loop completes exactly when every page converts, and an exception it ends with is the converter's for one of the pages |
| Generators.RunPagesCreatesUnder | lib/jekyll-fetch-notion/generators/collection_generator.rb:28-30 | the loop creates files only under `<source>/_<collection>/` |
| Generators.GenerateCreatesUnder | lib/jekyll-fetch-notion/generators/collection_generator.rb:15-20 | `generate` creates files only in its own collection's directory |
| Generators.UnrescuedErrorStopsGenerate | lib/jekyll-fetch-notion/generators/collection_generator.rb:50-58 | a date parse raising another exception stops the loop at that page, writing nothing for it or after it |
| Generators.GenerateQueriesAtMostOnce | lib/jekyll-fetch-notion/generators/collection_generator.rb:15-20 | `generate` queries exactly as often as its fetch, at most once |
| Generators.FetchLeavesFiles | lib/jekyll-fetch-notion/notion_database.rb:6-15 | fetching changes no file |
| Generators.FetchCreatesNoFile | lib/jekyll-fetch-notion/notion_database.rb:6-15 | fetching performs no file creation |
| Generators.CollectionGenerator.constructor | lib/jekyll-fetch-notion/generators/collection_generator.rb:7-13 | the generator keeps the resource, the plugin and the configuration |
| Generators.CollectionGenerator.Generate | lib/jekyll-fetch-notion/generators/collection_generator.rb:15-20 | outcome, actions, files and memo are those of `GenerateRun` on the old memo |
| Generators.CollectionGenerator.GeneratePages | lib/jekyll-fetch-notion/generators/collection_generator.rb:16-19 | outcome, actions and files are those of `RunPages` over the fetched pages |
| Generators.CollectionGenerator.HandlePage | lib/jekyll-fetch-notion/generators/collection_generator.rb:17-18 | `make_doc` then `log_new_page`: the creation with the converted content then the log line, or the exception `make_path` or else `make_md` raised, with nothing done |
| Factories.For | lib/jekyll-fetch-notion/factories/database_factory.rb:5-20 | a collection generator exactly when `data_name` is `nil`, a data generator otherwise, with the arguments passed through |
| Commands.NotionToken | lib/jekyll-fetch-notion/commands/fetch_notion.rb:33-39 | true exactly when the token is set and not empty; otherwise the one warning is logged |
| Commands.ConfigDatabases | lib/jekyll-fetch-notion/commands/fetch_notion.rb:41-43 | the configured entries, `[]` for `nil`, `NoMethodError` without a "notion" section |
| Commands.Process | lib/jekyll-fetch-notion/commands/fetch_notion.rb:14-31 | outcome, actions and files are those of `ProcessRun` |
| Commands.RunEntries | lib/jekyll-fetch-notion/commands/fetch_notion.rb:23-30 | the loop's outcome, actions and files are those of `RunAll` over the entries |
| Commands.RunEntry | lib/jekyll-fetch-notion/commands/fetch_notion.rb:24-29 | a fresh database and generator per entry: the entry's run from an empty memo |
| Commands.NoTokenOnlyWarns | spec/support/notion_token.rb:20-23 | without a token the only action is the warning |
| Commands.NilDatabasesDoNothing | spec/jekyll-fetch-notion_spec.rb:58-66 | `databases: nil` does nothing and raises nothing |
| Commands.OneQueryPerEntry | lib/jekyll-fetch-notion/commands/fetch_notion.rb:23-30 | a completed run sends one query per entry with an id |
| Commands.DuplicateEntriesQueryTwice | spec/jekyll-fetch-notion_spec.rb:159-178 | two entries with the same database id, whatever their other keys, are queried twice; the run is the first entry's run followed by the second's, and each creates files only under its own collection's directory |
| Commands.DataKeyIgnored | lib/jekyll-fetch-notion/commands/fetch_notion.rb:24-29 | an entry's run does not depend on its "data" key |
| Commands.LocalFilesKept | spec/jekyll-fetch-notion_spec.rb:198-204 | under skip-if-exists, files present before `process` are kept with their content |

## Left out

- `configuration_from_options`, `init_with_program` and `Jekyll::Site.new(@config)`: Jekyll's own code, not part of this model. `Process` takes the configuration it would read.
- The environment variable `NOTION_TOKEN` is a parameter of `Process`. `Notion.configure` and the creation of the Notion client are not modelled.
- `AbstractNotionResource` is not part of this model: `id?`, `build_blocks` and `database_query` are fields of `Resources.Backend`. `Resources.NilIdFetchesNothing` assumes that `id?` rejects `nil`.
- `id?` is assumed to log nothing and to depend only on the entry's "id" value; it is `Backend.idPresent` of that value.
- `AbstractGenerator#resource_id` is not used by the core and is not modelled.
- `FileCreator` is not part of this model. The writer is any function of the directory. The lemmas about keeping local files assume a writer that skips existing files (`Host.SkipIfExists`), and `Host.UntargetedPathsKept` uses only "other paths are untouched".
- Generators.CollectionGenerator.HandlePage: an exception raised by `create!` itself (a file system error) is not modelled; the writer is a total function of the directory. Exceptions from `make_path` and from the converter (`make_md`) are.
- The converter's own calls to Notion when it builds a page's content are not recorded in the trace. Only its result, the file content, is.
- Creating parent directories and releasing file handles are not modelled.
- `DatabaseFactory.for` passes `site:` to `CollectionGenerator.new`, which takes no such keyword, and names a `DataGenerator` that is not part of this model. `Factories.For` models only the choice and the arguments.
- Ruby's `inspect` format for arrays and hashes used as collection names is a parameter (`Library.inspect`).
- Configuration shapes other than a hash of entries are not modelled: a "databases" value that is not a list, a non-string "source". A "collection" of any other kind is interpolated through `RubyValues.ToS`. Only a missing "notion" section is modelled, as the `NoMethodError` it raises.
- Dates.ParseStrftime, Dates.StrftimeParse and Generators.PostFilenameRoundTrip: the round trip is stated only for years 0 to 9999. Other years print with more digits or a sign, and the `YYYY-MM-DD` reading no longer applies.
- Generators.FilenameByCollection: the post shape and the read-back are stated for four-digit years only, for the same reason.
