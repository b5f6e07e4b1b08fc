# regex-data-generator, modelled in Dafny

This project models the sample-to-output pipeline of `RegexDataGenerator` and the pattern selection of
its command line (`scripts/generate.js`):

- **Sampler set-up** (`set dataSource`): one sampler per pattern key, each with a repetition bound
  `floor(random * (max - min)) + min`, which with `min: 1, max: 100` lies in `[1, 99]`.
- **Draw loop** (`generateFromRegex`): `numSamples` draws per pattern id, in key order. A falsy count
  (missing or 0) becomes 100. Each draw is pushed onto `out[id]` and handed to the callback.
- **Per-sample serialisation** (`generatePatternsWithFormat`):
  - The pattern key is sanitised to its `[a-zA-Z0-9]+` runs joined by `_`.
  - The trimmed, upper-cased format token picks JSON (also the fallback), XML (with the CDATA rule),
    YAML or PLAIN/TEXT/FLAT.
  - Each sample is serialised once per format, in array order, before the next draw.
- **File extensions** (`getFileExtForFormat`): case-insensitive, `.json` by default.
- **Output layout** (`generateAsFiles`):
  - Selector expansion rewrites the same configuration object once per key.
  - One-sample-per-file mode uses one counter across all formats.
  - Aggregated mode opens one stream per upper-cased format token. The framing cases compare against
    lower-case `'json'`, so they are never taken: no `[`, `,` or `]` is written, only `fragment + "\n"`.
- **Command line** (`validateConfig`, `printMessage`): index range check, `ALL` in any case, unknown
  selectors with substring suggestions, and the announcement text.

Modules, leaves first:

- `Outcomes` — Option, Result, and the reasons a call throws.
- `Text` — JavaScript `trim`, `toUpperCase`, `includes`, `split`/`join` and number printing.
- `Json` — `JSON.stringify` of a one-key object, with a reader for its output.
- `Serializer` — key sanitising, the XML rule, format dispatch and file extensions.
- `Runtime` — the host: the libraries not modelled (an `Oracle`), and the file system as a `Host`
  object holding directories, files and open streams.
- `Emission` — the callback chain as functions: draw loop, sample callback, the two file layouts.
- `Generator` — the `RegexDataGenerator` object and `generatePatternsWithFormat`. The methods are
  proved equal to the `Emission` functions.
- `Files` — `generateAsFiles`.
- `Cli` — `scripts/generate.js`.

Promises are modelled as sequential calls whose result is a `Result`. The `randexp` library and
`Math.random` are synchronous. A callback that throws inside `generateFromRegex` only rejects that
key's promise. The loop over keys goes on, and the outer promise settles as the last key's promise did.
The model keeps this behaviour.

The file system is reached through Node streams (`createWriteStream`, `write`, `end`), which buffer and
flush asynchronously. The model applies each write to the file at once. The `.then` that ends the
aggregated streams (lib/RegexDataGenerator.js:301-309) runs as a microtask. During the expansion into
one run per key, the loop over keys finishes before any of those callbacks runs. The model ends each
run's streams as soon as that run finishes. The final files are the same either way, because each key
writes only under its own directory and base path, and distinct keys never share a stream.

Some facts about the code that a reader might not expect:

- No bracket or comma framing is written around JSON output. The header, separator and footer branches
  compare the format against lower-case `json`, but the streams are keyed by upper-case tokens, so those
  branches are never taken.
- A falsy count, 0 included, is replaced by 100 (lib/RegexDataGenerator.js:125).
- Aggregated files are written to `outputDir/<sanitised selector>/<selector><ext>`. A missing selector
  throws before any name is built.

## Model

| member | source | states |
|---|---|---|
| `Runtime.BoundInRange` | lib/RegexDataGenerator.js:164 | the repetition bound `floor(r*(max-min))+min` lies in `[min, max-1]` when `min < max`, and is `min` when they are equal |
| `Runtime.DefaultBound` | lib/RegexDataGenerator.js:20-23 | with `min: 1, max: 100` every bound is in `[1, 99]` |
| `Runtime.Host.MakeDirectory` | lib/RegexDataGenerator.js:231 | the directory is added; the call reports failure when it was already there |
| `Runtime.Host.CreateWriteStream` | lib/RegexDataGenerator.js:268 | flag `w`: the file is created or truncated to nothing and its stream is open |
| `Runtime.Host.Write` | lib/RegexDataGenerator.js:252 | the string is appended to the file and no other file changes |
| `Runtime.Host.End` | lib/RegexDataGenerator.js:253 | the stream is no longer open and nothing is written |
| `Text.TrimIsSlice` | lib/RegexDataGenerator.js:65 | `trim` keeps a contiguous slice and removes only white space at both ends |
| `Text.TrimHasNoEdgeSpace` | lib/RegexDataGenerator.js:65 | a trimmed token has no white space at either end |
| `Text.JoinSplit` | lib/RegexDataGenerator.js:236 | joining the pieces of `split(",")` with `,` gives the string back |
| `Text.SplitJoin` | lib/RegexDataGenerator.js:236 | splitting a join of comma-free pieces gives back the pieces |
| `Text.NatToStringInjective` | lib/RegexDataGenerator.js:251 | distinct counters print as distinct decimal strings |
| `Text.ParseIntToString` | scripts/generate.js:79 | `'' + count` on an integer of magnitude below 10^21, negative included, is decimal text with an optional leading minus that reads back as that integer |
| `Json.EntryRoundTrip` | lib/RegexDataGenerator.js:75 | the JSON fragment `{"key":"sample"}` parses back to exactly its key and its sample |
| `Json.EntryIsOneLine` | lib/RegexDataGenerator.js:75 | a JSON fragment contains no line feed and no carriage return, whatever the sample holds |
| `Serializer.SanitizeKey` | lib/RegexDataGenerator.js:68 | fails exactly when the name has no alphanumeric character (`match` gives null); otherwise the key is non-empty, only `[a-zA-Z0-9_]`, and every `_` sits between two alphanumerics (none leads, trails or doubles) |
| `Serializer.RunsCoverAlnums` | lib/RegexDataGenerator.js:68 | the runs found by `match` hold every alphanumeric character of the name, in order, and nothing else |
| `Serializer.SanitizeKeepsAlnums` | lib/RegexDataGenerator.js:68 | the sanitised key keeps exactly the alphanumeric characters of the name, in order |
| `Serializer.SanitizeSplits` | lib/RegexDataGenerator.js:68 | splitting the sanitised key on `_` gives back the maximal runs |
| `Serializer.SanitizeIdempotent` | lib/RegexDataGenerator.js:68 | a sanitised key sanitises to itself |
| `Serializer.SanitizeExamples` | lib/RegexDataGenerator.js:68 | `ip v4` becomes `ip_v4`; `--` has no run and fails |
| `Serializer.HasMarkupIff` | lib/RegexDataGenerator.js:82 | the scan finds markup exactly when `<`, `>`, `&` or `--` occurs at some position |
| `Serializer.XmlCDataIff` | lib/RegexDataGenerator.js:79-88 | the fragment is `<k><![CDATA[s]]></k>` exactly when the sample holds `<`, `>`, `&` or `--`, and otherwise `<k>s</k>` |
| `Serializer.XmlRoundTrip` | lib/RegexDataGenerator.js:79-88 | the sample is recovered verbatim from its XML fragment, in both shapes |
| `Serializer.PlainXmlIsCharData` | lib/RegexDataGenerator.js:82-86 | a sample written without CDATA holds no `<`, `&` or `>` |
| `Serializer.CDataTerminatorNotEscaped` | lib/RegexDataGenerator.js:82-83 | `]]>` inside a sample is not escaped: its fragment holds the CDATA terminator twice |
| `Serializer.SerializeRecovers` | lib/RegexDataGenerator.js:70-99 | the plain fragment is the sample; the JSON one parses to key and sample; the XML one reads back to the sample |
| `Serializer.FormatCaseInsensitive` | lib/RegexDataGenerator.js:65 | dispatch ignores the case of the token |
| `Serializer.ExtCaseInsensitive` | lib/RegexDataGenerator.js:173 | the extension mapping ignores the case of the token |
| `Serializer.ExtAgreesWithDispatch` | lib/RegexDataGenerator.js:170-196 | the token handed to the callback maps to `.xml`, `.txt`, `.yaml` or `.json` exactly as the dispatch maps it to XML, PLAIN/TEXT/FLAT, YAML or JSON (the fallback) |
| `Serializer.ExtOfTrimmedToken` | lib/RegexDataGenerator.js:170-196 | an untrimmed token with no surrounding white space gets the extension of the format it dispatches to |
| `Serializer.UntrimmedTokenMisnamed` | lib/RegexDataGenerator.js:263-268 | the token ` xml` dispatches to XML but its stream key and extension come from the untrimmed ` XML` (`.json`) |
| `Emission.DrawsAt` | lib/RegexDataGenerator.js:133-136 | the `j`-th draw is the sampler's output at random state `t + j` |
| `Emission.OnFormatsAccepted` | lib/RegexDataGenerator.js:63-102 | the sample callback serialises the sample once per format, in array order, and hands each fragment to the layout callback |
| `Emission.OnFormatsOkIff` | lib/RegexDataGenerator.js:63-102 | the sample callback throws exactly when there is a format and either the key has no alphanumeric run or the layout callback rejects a token |
| `Emission.DrawLoopOutcome` | lib/RegexDataGenerator.js:133-143 | a pattern's loop finishes all `n` draws exactly when nothing throws, and otherwise stops right after the first draw |
| `Emission.DrawLoopTrace` | lib/RegexDataGenerator.js:133-143 | each draw is recorded, then the fragments made from it, before the next draw |
| `Emission.DrawLoopDisk` | lib/RegexDataGenerator.js:133-143 | the files are what the layout callback makes of the pattern's calls, sample after sample |
| `Emission.KeyTraceDraws` | lib/RegexDataGenerator.js:138-141 | the callback's `{ pattern, sample }` arguments are exactly the samples, in order, tagged with the pattern id |
| `Emission.KeyTraceCalls` | lib/RegexDataGenerator.js:59-104 | the layout calls recorded for a key are exactly its planned calls |
| `Emission.KeyCallsLength` | lib/RegexDataGenerator.js:59-104 | a key makes one layout call per sample and format |
| `Emission.FileNamesDistinct` | lib/RegexDataGenerator.js:251 | file names `base + ' ' + i + ext` with different counters differ, whatever the formats |
| `Emission.PerFileWritten` | lib/RegexDataGenerator.js:248-256 | in one-sample-per-file mode, fragment `j` is the whole content `fragment + "\n"` of file `base (i+j) ext`, whose stream is ended |
| `Emission.PerFileUntouched` | lib/RegexDataGenerator.js:248-256 | a path that is none of the run's file names keeps its content and its open state |
| `Emission.AggregatedFile` | lib/RegexDataGenerator.js:283-299 | in aggregated mode each file gets exactly the fragments routed to it appended, each followed by `"\n"`, and no bracket or comma |
| `Emission.AggregatedKeepsOpen` | lib/RegexDataGenerator.js:283-299 | writing fragments ends no stream and leaves the per-file counter alone |
| `Emission.RoutedByFormat` | lib/RegexDataGenerator.js:263-299 | when streams sit at distinct paths, the stream of token `t` receives exactly the fragments whose token is `t` |
| `Generator.StringFormatIsSingleton` | lib/RegexDataGenerator.js:53-54 | a string format runs exactly as the one-element array holding it: same files, same result, same random state |
| `Generator.OtherFormatThrows` | lib/RegexDataGenerator.js:55-56 | a format that is neither an array nor a string, truthy or falsy, throws `invalid format specified` and leaves the sink, the trace and the random state as they were, whatever the patterns |
| `Generator.InvalidFormatIff` | lib/RegexDataGenerator.js:51-57 | the run settles to the invalid-format error if and only if the format is neither an array nor a string; no draw and no compile failure produces that error |
| `Generator.Selection` | lib/RegexDataGenerator.js:112-121 | selecting keeps a well-formed pattern object well-formed |
| `Generator.SelectionNarrows` | lib/RegexDataGenerator.js:112-121 | a truthy selector narrows the patterns to exactly `{selector: patterns[selector]}`; otherwise they are unchanged |
| `Generator.SelectionIdempotent` | lib/RegexDataGenerator.js:112-121 | selecting twice with one selector is selecting once |
| `Generator.CompileFailsIff` | lib/RegexDataGenerator.js:162-166 | setting the data source fails exactly when some pattern is undefined or refused by the regex engine |
| `Generator.CompiledSamplers` | lib/RegexDataGenerator.js:158-166 | after the setter every id has a sampler for its own pattern with a bound in `[1, 99]`, and one random number was drawn per id |
| `Generator.IdsRunAccepted` | lib/RegexDataGenerator.js:123-148 | when nothing throws, `generateFromRegex` runs every id's loop to the end in key order and uses `n` draws per id |
| `Generator.AfterIdsDraws` | lib/RegexDataGenerator.js:130-143 | the callback is called once per draw, in id order, with the sample just drawn |
| `Generator.IdsOutFills` | lib/RegexDataGenerator.js:128-146 | the returned `out[id]` holds exactly the `n` samples drawn for that id |
| `Generator.IdsOutKeeps` | lib/RegexDataGenerator.js:128-146 | entries of `out` for other keys are untouched |
| `Generator.GpwfExtends` | lib/RegexDataGenerator.js:38-110 | `generatePatternsWithFormat` only appends to the record of callback calls, and the files are what the layout callback made of exactly those calls |
| `Generator.RegexDataGenerator.constructor` | lib/RegexDataGenerator.js:25-27 | the pattern table, id list and sampler map start empty |
| `Generator.RegexDataGenerator.SetDataSource` | lib/RegexDataGenerator.js:150-168 | a falsy source clears the table and the ids; otherwise the table and its keys are stored and a sampler is built per key, as `Compile` states |
| `Generator.RegexDataGenerator.GenerateFromRegex` | lib/RegexDataGenerator.js:123-148 | the loop over ids follows `RegexRun`: a falsy count becomes 100, `out[id]` is reset and filled, the first throw stops the loop |
| `Generator.DrawSamples` | lib/RegexDataGenerator.js:133-143 | the inner loop follows `DrawLoop`, and when it finishes `out[id]` holds the `n` draws |
| `Generator.DrawOne` | lib/RegexDataGenerator.js:135-141 | one draw advances the random state once and hands the sample to the sample callback |
| `Generator.Writer.Emit` | lib/RegexDataGenerator.js:248-299 | the layout callback: one fresh ended file per fragment, or an append of `fragment + "\n"` to the token's stream (a TypeError when the token has none) |
| `Generator.Writer.OnSample` | lib/RegexDataGenerator.js:61-104 | the sample callback's `forEach` over the formats follows `OnFormats` |
| `Generator.GeneratePatternsWithFormat` | lib/RegexDataGenerator.js:38-110 | follows `Gpwf`: select, normalise the format argument, build one generator per key and run its draw loop |
| `Files.SplitFormatsJoins` | lib/RegexDataGenerator.js:234-240 | a string format becomes an array that joins back to the string; only a leading comma keeps the string whole |
| `Files.SplitFormatsIdempotent` | lib/RegexDataGenerator.js:234-240 | rewriting the format twice is rewriting it once |
| `Files.SelectedRunDoesNotExpand` | lib/RegexDataGenerator.js:207-221 | a run with a selector never expands and notifies nobody |
| `Files.ExpansionNotifiesEachKey` | lib/RegexDataGenerator.js:207-221 | with no selector and `separateFiles`, the callback sees each key in order, once, with `separateFiles` off, and the call resolves |
| `Files.MissingSelectorWritesNothing` | lib/RegexDataGenerator.js:225-243 | with no selector and no `separateFiles`, `selector.match` throws before any directory or file is made, so the `'All'` name is never used |
| `Files.DirectoryMadeOnlyWhenAbsent` | lib/RegexDataGenerator.js:228-232 | the directory `outputDir/<sanitised selector>` is created only when nothing is at its path, and no other directory is created |
| `Files.WriteFilesKeepsDirs` | lib/RegexDataGenerator.js:244-310 | laying the samples out creates and removes no directory |
| `Files.OneSamplePerFileLayout` | lib/RegexDataGenerator.js:244-256 | the `j`-th fragment of the whole run is the only content of file `base + ' ' + j + ext`, shared counter across formats; every other file is left as it was |
| `Files.AggregatedLayout` | lib/RegexDataGenerator.js:258-299 | each file gets exactly its routed fragments, each followed by `"\n"`, and the streams stay open during generation |
| `Files.OpenStreamsFresh` | lib/RegexDataGenerator.js:263-280 | each upper-cased token gets a stream at `base + ext`, created empty and open, and no other token gets one |
| `Files.EndStreamsOnlyCloses` | lib/RegexDataGenerator.js:301-309 | the `.then` ends exactly the streams of the format array and writes nothing |
| `Files.AggregatedRunOutput` | lib/RegexDataGenerator.js:258-309 | each stream ends up holding exactly its routed fragments and nothing else; all streams are ended when generation resolves and stay open when it rejects |
| `Files.OpenWriteStreams` | lib/RegexDataGenerator.js:263-280 | the `forEach` follows `OpenStreams` |
| `Files.EndWriteStreams` | lib/RegexDataGenerator.js:303-306 | the closing loop follows `EndStreams` |
| `Files.PrepareOutput` | lib/RegexDataGenerator.js:225-243 | keeps the last output directory, creates the key directory if absent, splits a string format, and returns the base path |
| `Files.WriteOneSamplePerFile` | lib/RegexDataGenerator.js:244-256 | the one-sample-per-file branch follows `PerFileRun` |
| `Files.WriteAggregated` | lib/RegexDataGenerator.js:258-310 | the aggregated branch follows `AggregatedRun` |
| `Files.ExpandKeys` | lib/RegexDataGenerator.js:207-221 | the expansion loop follows `Expand` |
| `Files.GenerateAsFiles` | lib/RegexDataGenerator.js:198-312 | follows `AsFiles` for the host, the rewritten configuration, the notifications and the result |
| `Cli.ValidateConfig` | scripts/generate.js:10-71 | the method with its suggestion loop computes exactly `Validate` |
| `Cli.HelpExits` | scripts/generate.js:22-37 | `--help` logs the usage and exits with 0, whatever else is given |
| `Cli.IndexSelects` | scripts/generate.js:39-46 | an index in `[0, len)` selects that key and overrides `--selector`; any other index exits with 1 and the message naming `0-(len-1)` |
| `Cli.AllMeansEvery` | scripts/generate.js:48-50 | with no index, `ALL` in any case becomes no selector (every pattern) |
| `Cli.SelectorChecked` | scripts/generate.js:52-68 | a known selector is kept; an unknown one exits with 1, and suggestions are logged exactly when some key contains it |
| `Cli.SuggestionsExact` | scripts/generate.js:56-61 | a suggestion is exactly a key that contains the selector |
| `Cli.SuggestionsInKeyOrder` | scripts/generate.js:56-61 | suggestions keep the key order |
| `Cli.ValidSelectorIsKey` | scripts/generate.js:39-70 | a configuration that passes names a key or no key |
| `Cli.ValidateOnlySetsSelector` | scripts/generate.js:39-70 | validation changes nothing but the selector |
| `Cli.PrintMessage` | scripts/generate.js:73-87 | nothing is produced exactly when `silent` is true |
| `Cli.MessageShowsCount` | scripts/generate.js:79 | the count shown, yellow, is decimal text that reads back as the count given, for every integer of magnitude below 10^21 including negative ones, or as `SampleCount` (10) when none is given |
| `Cli.MessageShowsSelector` | scripts/generate.js:80 | the quoted selector is the one given, and `All` when there is none |
| `Cli.MessageShowsFormat` | scripts/generate.js:81-84 | the cyan `JSON` is shown exactly for a falsy format (missing or empty) or `JSON` itself; a plain `undefined` is shown exactly for an array format or a truthy value that is not a string |
| `Cli.MessageText` | scripts/generate.js:83-84 | the message reads `Generating <count> samples of <selector> as <format>` |
| `Cli.AnnouncementsNameAKey` | lib/RegexDataGenerator.js:207-221 | every configuration `generateAsFiles` hands to the callback has a selector that is a pattern key, and is announced with that key quoted, so the `All` branch of `printMessage` is never reached from the script |
| `Cli.ExpansionAnnouncesEachKey` | scripts/generate.js:89-94 | with every pattern in its own directory, the `i`-th announcement names the `i`-th key |

## Left out

- `randexp` is not modelled. `new RandExp(source)` is `Oracle.compiles`, and `gen()` is
  `Oracle.gen(sampler, state)`. That samples match their regex is not stated, since it depends on
  that library.
- `Math.random()` is `Oracle.uniform(state)`, a value in `[0, 1)`. Every draw and every random number
  advances one counter of random state.
- `json-to-pretty-yaml` is `Oracle.yaml(key, sample)`, an uninterpreted function of the one-key object.
- `JSON.stringify` is modelled only for the one-key object with a string value that the source builds.
- `jsontoxml` is imported but never used. The same holds for `#debug`, `defaultFormat`, the
  `outputAsJSON` flag and the `index` parameter of `generateAsFiles`.
- The file system is a map from path to the strings written, plus a set of directories and a set of
  open streams. Buffering, flushing, write errors and permissions are not modelled. Nor is the failure
  of `fs.mkdirSync(filePath)` (lib/RegexDataGenerator.js:231), which has no `recursive` option and throws
  `ENOENT` when the output directory itself does not exist: the model always creates the directory.
- Whenever two format tokens of one run resolve to the same file, the model keeps a single stream for
  that path and appends their fragments in call order. This happens when two tokens share an extension
  (`TEXT`, `PLAIN` and `FLAT`), when an unrecognised token (such as `CSV`) falls back to `.json` next to `JSON`,
  and when a token is repeated (`xml,XML`). The source instead opens one Node stream per
  `createWriteStream` call (lib/RegexDataGenerator.js:268), and each writes from offset 0. A repeated
  token replaces its entry in `writeStreams`, so the first stream is never ended
  (lib/RegexDataGenerator.js:304).
- `path.resolve(dir, name)` is `dir + "/" + name`. There is no normalisation and no resolution
  against the working directory.
- Promises are sequential calls. The nested runs of the expansion (lib/RegexDataGenerator.js:218) are
  not awaited, and a rejected one is left unhandled. Node 15 and later then end the process with exit
  code 1 once the pending microtasks have run, before the queued writes of the other keys reach disk.
  This happens, for example, for a pattern key with no alphanumeric character, or for every key under
  the command line's default `outputDir: null`, since both throw at lib/RegexDataGenerator.js:229. The
  model runs the nested runs in order, ignores their results, and does not model that exit.
- Runtime.BoundInRange: the repetition bound `Math.floor(r * (max - min)) + min` is computed in exact
  reals, not in IEEE doubles. A given `r` may round differently, but the bounds that can occur are the
  same.
- Writes go to the file at once, and the aggregated streams of each nested run are ended when that run
  finishes. In the source the ends run as microtasks after the whole loop over keys, and the streams
  flush asynchronously. Since distinct keys write to distinct paths, the final contents agree.
- The sample count is modelled as an unbounded integer (`Option<int>`), while the source's count is a
  JavaScript number. So two behaviours are not captured. First, `'' + count` prints a count of
  magnitude 10^21 or more in exponent form (`1e+21`); `Text.ParseIntToString` and
  `Cli.MessageShowsCount` state the decimal form, which is what JavaScript prints only below that
  bound. Second, a fractional count such as `--count 2.5` makes `j < numSamples`
  (lib/RegexDataGenerator.js:133) draw the count rounded up, 3 samples per id.
- `process.argv` parsing is not modelled. `parseInt` is the `ParsedIndex` value, `NaN` included.
  `process.exit` is the `Exit` verdict, `console.log` a `Line`, and the `colors` styling a `Segment` tag.
- Text.Upper: `toUpperCase` is modelled on the ASCII letters only. Other letters are left as they are,
  so full Unicode case mapping (such as `ß` to `SS`) is not captured.
- JavaScript strings are UTF-16 code units, while Dafny's `string` holds Unicode scalar values, so
  lone surrogates cannot occur in the model.
