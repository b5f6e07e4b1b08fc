/** `RegexDataGenerator.generateAsFiles`: the configuration object it rewrites, the expansion of a
    missing selector into one run per pattern key, the output directory, and the two file layouts. */
module Files {
  import opened Outcomes
  import opened Text
  import opened Serializer
  import opened Runtime
  import opened Emission
  import opened Generator

  /** `config.outputDir`: a path, an array of paths (the last one is used), or anything else. */
  datatype DirArg = Dir(path: string) | Dirs(paths: seq<string>) | NoDir

  /** The fields of a configuration object that `generateAsFiles` reads or rewrites. */
  datatype Options = Options(selector: Option<string>, separateFiles: bool, oneSamplePerFile: bool,
                             outputDir: DirArg, format: FormatArg, count: Option<int>)

  /** The host as `generateAsFiles` leaves it: directories, files, streams not yet ended, random state. */
  datatype World = World(dirs: set<string>, files: map<string, seq<string>>, open: set<string>, tick: nat)

  function Observe(h: Host): World
    reads h
  {
    World(h.dirs, h.files, h.open, h.tick)
  }

  /** `path.resolve(dir, name)`, for a `name` that is a plain file or directory name. */
  function Resolve(dir: string, name: string): string {
    dir + "/" + name
  }

  /** `if (config.outputDir instanceof Array) config.outputDir = config.outputDir[length - 1]`: an
      empty array leaves `undefined`. */
  function LastDir(d: DirArg): DirArg {
    match d
    case Dirs(ps) => if ps == [] then NoDir else Dir(ps[|ps| - 1])
    case _ => d
  }

  /** `config.format.indexOf(",") ? config.format.split(",") : [config.format]` on a string format:
      `indexOf` is falsy only when the string starts with a comma. Other values are kept. */
  function SplitFormats(f: FormatArg): FormatArg {
    match f
    case FormatString(s) => if s != [] && s[0] == ',' then FormatList([s]) else FormatList(Split(s, ','))
    case _ => f
  }

  /** The `forEach` that opens one stream per format: the token is upper-cased (not trimmed), its
      stream is created (or truncated) at `base + ext` and recorded under the upper-cased token. */
  function OpenStreams(w: World, base: string, formats: seq<string>, streams: map<string, string>)
    : (r: (World, map<string, string>))
    ensures forall u :: u in streams ==> u in r.1
    ensures forall i :: 0 <= i < |formats| ==> Upper(formats[i]) in r.1
    decreases |formats|
  {
    if formats == [] then (w, streams)
    else
      var u := Upper(formats[0]);
      var p := base + FileExt(u);
      OpenStreams(w.(files := w.files[p := []], open := w.open + {p}), base, formats[1..], streams[u := p])
  }

  /** The `.then` that ends the stream of each format, in the order of the array. */
  function EndStreams(w: World, streams: map<string, string>, formats: seq<string>): World
    requires forall i :: 0 <= i < |formats| ==> Upper(formats[i]) in streams
    decreases |formats|
  {
    if formats == [] then w
    else EndStreams(w.(open := w.open - {streams[Upper(formats[0])]}), streams, formats[1..])
  }

  /** `generateAsFiles` on a configuration it does not expand: the options as rewritten, the host
      after, and what the returned promise settles to (`Ok(None)`: `undefined`). The selector is
      read before the output directory, so a missing selector throws before anything is created. */
  function WriteSelection(w: World, o: Options, patterns: Table, oracle: Oracle)
    : (World, Options, Result<Option<map<string, seq<string>>>>)
  {
    var (w1, o1, b) := Prepare(w, o);
    if b.Err? then (w1, o1, Err(b.error))
    else
      var (w2, r) := WriteFiles(w1, o1, b.value, patterns, oracle);
      (w2, o1, r)
  }

  /** What `generateAsFiles` does before generating: the last of several output directories is
      kept, the key-named directory is created unless something already sits at its path, and a
      string format is split; the result is the path every file name starts with. */
  function Prepare(w: World, o: Options): (World, Options, Result<string>)
  {
    var o1 := o.(outputDir := LastDir(o.outputDir));
    if o1.selector.None? then (w, o1, Err(TypeError("selector.match")))
    else if SanitizeKey(o1.selector.value).None? then (w, o1, Err(TypeError("match.join")))
    else if !o1.outputDir.Dir? then (w, o1, Err(TypeError("path.resolve")))
    else
      var dir := Resolve(o1.outputDir.path, SanitizeKey(o1.selector.value).value);
      var w1 := if dir in w.dirs || dir in w.files then w else w.(dirs := w.dirs + {dir});
      var o2 := o1.(format := SplitFormats(o1.format));
      (w1, o2, Ok(Resolve(dir, o2.selector.value)))
  }

  /** The two ways of laying the samples out on disk. */
  function WriteFiles(w: World, o: Options, base: string, patterns: Table, oracle: Oracle)
    : (World, Result<Option<map<string, seq<string>>>>)
  {
    if o.oneSamplePerFile then PerFileRun(w, o, base, patterns, oracle)
    else AggregatedRun(w, o, base, patterns, oracle)
  }

  /** The one-sample-per-file branch: a fresh counter `i`, one file per fragment. */
  function PerFileRun(w: World, o: Options, base: string, patterns: Table, oracle: Oracle)
    : (World, Result<Option<map<string, seq<string>>>>)
  {
    var (s, r, t) := Gpwf(Sink(Disk(w.files, w.open, 0), []), PerFile(base), SampleCodec(oracle.yaml),
                          patterns, o.count, o.format, o.selector, oracle, w.tick);
    (World(w.dirs, s.disk.files, s.disk.open, t), r)
  }

  /** The aggregated branch: one stream per upper-cased token, opened before generation and ended
      only when generation resolves; a format that is not an array has no `forEach`. */
  function AggregatedRun(w: World, o: Options, base: string, patterns: Table, oracle: Oracle)
    : (World, Result<Option<map<string, seq<string>>>>)
  {
    if !o.format.FormatList? then (w, Err(TypeError("format.forEach")))
    else
      var (w1, streams) := OpenStreams(w, base, o.format.tokens, map[]);
      var (s, r, t) := Gpwf(Sink(Disk(w1.files, w1.open, 0), []), Aggregated(streams), SampleCodec(oracle.yaml),
                            patterns, o.count, o.format, o.selector, oracle, w1.tick);
      var w2 := World(w1.dirs, s.disk.files, s.disk.open, t);
      if r.Err? then (w2, r) else (EndStreams(w2, streams, o.format.tokens), Ok(None))
  }

  /** Whether `generateAsFiles` expands the configuration into one run per key. */
  function Expands(o: Options): nat {
    if o.selector.None? && o.separateFiles then 1 else 0
  }

  /** `generateAsFiles(config, patterns, callback)`: the host after, the options as rewritten, the
      configurations handed to `callback` (in order), and what the promise settles to. */
  function AsFiles(w: World, o: Options, patterns: Table, oracle: Oracle)
    : (World, Options, seq<Options>, Result<Option<map<string, seq<string>>>>)
    decreases Expands(o), 0
  {
    if o.selector.None? && o.separateFiles then
      var (w1, o1, notices) := Expand(w, o.(separateFiles := false), patterns.keys, patterns, oracle);
      (w1, o1, notices, Ok(None))
    else
      var (w1, o1, r) := WriteSelection(w, o, patterns, oracle);
      (w1, o1, [], r)
  }

  /** The expansion loop: the same options object gets each key as its selector, is handed to the
      callback, and is run again; the nested run's promise is not awaited, so its failure is ignored. */
  function Expand(w: World, o: Options, keys: seq<string>, patterns: Table, oracle: Oracle)
    : (World, Options, seq<Options>)
    decreases 0, |keys|
  {
    if keys == [] then (w, o, [])
    else
      var o1 := o.(selector := Some(keys[0]));
      var (w1, o2, nested, _) := AsFiles(w, o1, patterns, oracle);
      var (w2, o3, rest) := Expand(w1, o2, keys[1..], patterns, oracle);
      (w2, o3, [o1] + nested + rest)
  }

  /** One turn of the expansion loop, stated on the states around the nested run so that the loop
      only has to match them up. */
  lemma ExpandStep(w0: World, o0: Options, keys: seq<string>, patterns: Table, oracle: Oracle,
                   w1: World, o2: Options, nested: seq<Options>, notices: seq<Options>,
                   goal: (World, Options, seq<Options>))
    requires keys != [] && !o0.separateFiles
    requires var a := AsFiles(w0, o0.(selector := Some(keys[0])), patterns, oracle);
             (w1, o2, nested) == (a.0, a.1, a.2)
    requires var e := Expand(w0, o0, keys, patterns, oracle);
             e.0 == goal.0 && e.1 == goal.1 && notices + e.2 == goal.2
    ensures !o2.separateFiles
    ensures var e := Expand(w1, o2, keys[1..], patterns, oracle);
            e.0 == goal.0 && e.1 == goal.1 && notices + [o0.(selector := Some(keys[0]))] + nested + e.2 == goal.2
  {
    KeepsSeparateFiles(w0, o0.(selector := Some(keys[0])), patterns, oracle);
  }

  /** A run that does not expand leaves `separateFiles` off. */
  lemma KeepsSeparateFiles(w: World, o: Options, patterns: Table, oracle: Oracle)
    requires !o.separateFiles
    ensures !AsFiles(w, o, patterns, oracle).1.separateFiles
  {
  }

  // ------------------------------------------------------------------ configuration rewrites

  /** A string format becomes an array whose entries, joined with commas, give the string back; apart
      from a string that starts with a comma, no entry holds a comma. Other formats are kept. */
  lemma SplitFormatsJoins(f: FormatArg)
    ensures f.FormatString? ==> SplitFormats(f).FormatList? && Join(SplitFormats(f).tokens, ',') == f.token
    ensures f.FormatString? && (f.token == [] || f.token[0] != ',') ==>
              forall i :: 0 <= i < |SplitFormats(f).tokens| ==> ',' !in SplitFormats(f).tokens[i]
    ensures !f.FormatString? ==> SplitFormats(f) == f
  {
    if f.FormatString? && !(f.token != [] && f.token[0] == ',') {
      JoinSplit(f.token, ',');
    }
  }

  /** Rewriting the format twice is rewriting it once. */
  lemma SplitFormatsIdempotent(f: FormatArg)
    ensures SplitFormats(SplitFormats(f)) == SplitFormats(f)
  {
  }

  /** The nested run of the expansion never expands again, hands nothing to the callback, and leaves
      `separateFiles` as it was. */
  lemma SelectedRunDoesNotExpand(w: World, o: Options, patterns: Table, oracle: Oracle)
    requires o.selector.Some?
    ensures AsFiles(w, o, patterns, oracle).2 == []
    ensures AsFiles(w, o, patterns, oracle).1.separateFiles == o.separateFiles
    ensures AsFiles(w, o, patterns, oracle).1.selector == o.selector
  {
  }

  lemma {:induction false} ExpandNotices(w: World, o: Options, keys: seq<string>, patterns: Table, oracle: Oracle)
    requires !o.separateFiles
    ensures var (_, o1, notices) := Expand(w, o, keys, patterns, oracle);
            |notices| == |keys| && !o1.separateFiles &&
            forall i :: 0 <= i < |keys| ==> notices[i].selector == Some(keys[i]) && !notices[i].separateFiles
    decreases |keys|
  {
    if keys != [] {
      var o1 := o.(selector := Some(keys[0]));
      SelectedRunDoesNotExpand(w, o1, patterns, oracle);
      var (w1, o2, nested, _) := AsFiles(w, o1, patterns, oracle);
      ExpandNotices(w1, o2, keys[1..], patterns, oracle);
      var (w2, o3, rest) := Expand(w1, o2, keys[1..], patterns, oracle);
      assert Expand(w, o, keys, patterns, oracle).2 == [o1] + rest;
    }
  }

  /** With no selector and `separateFiles`, the callback is told of each pattern key in order, once,
      with `separateFiles` off; the call itself resolves, whatever the nested runs do. */
  lemma ExpansionNotifiesEachKey(w: World, o: Options, patterns: Table, oracle: Oracle)
    requires o.selector.None? && o.separateFiles
    ensures var (_, o1, notices, r) := AsFiles(w, o, patterns, oracle);
            r == Ok(None) && !o1.separateFiles && |notices| == |patterns.keys| &&
            forall i :: 0 <= i < |notices| ==>
              notices[i].selector == Some(patterns.keys[i]) && !notices[i].separateFiles
  {
    ExpandNotices(w, o.(separateFiles := false), patterns.keys, patterns, oracle);
  }

  /** With no selector and no `separateFiles`, `config.selector.match` throws before any directory or
      file is made (so the `'All'` file name is never used). */
  lemma MissingSelectorWritesNothing(w: World, o: Options, patterns: Table, oracle: Oracle)
    requires o.selector.None? && !o.separateFiles
    ensures var (w1, _, notices, r) := AsFiles(w, o, patterns, oracle);
            w1 == w && notices == [] && r.Err?
  {
  }

  // ------------------------------------------------------------------ the output directory

  lemma {:induction false} OpenStreamsKeepsDirs(w: World, base: string, formats: seq<string>, streams: map<string, string>)
    ensures OpenStreams(w, base, formats, streams).0.dirs == w.dirs
    decreases |formats|
  {
    if formats != [] {
      var u := Upper(formats[0]);
      var p := base + FileExt(u);
      OpenStreamsKeepsDirs(w.(files := w.files[p := []], open := w.open + {p}), base, formats[1..], streams[u := p]);
    }
  }

  lemma {:induction false} EndStreamsOnlyCloses(w: World, streams: map<string, string>, formats: seq<string>)
    requires forall i :: 0 <= i < |formats| ==> Upper(formats[i]) in streams
    ensures var w1 := EndStreams(w, streams, formats);
            w1.dirs == w.dirs && w1.files == w.files && w1.tick == w.tick &&
            w1.open == w.open - set i | 0 <= i < |formats| :: streams[Upper(formats[i])]
    decreases |formats|
  {
    if formats != [] {
      var w0 := w.(open := w.open - {streams[Upper(formats[0])]});
      EndStreamsOnlyCloses(w0, streams, formats[1..]);
      var all := set i | 0 <= i < |formats| :: streams[Upper(formats[i])];
      var rest := set i | 0 <= i < |formats[1..]| :: streams[Upper(formats[1..][i])];
      assert all == {streams[Upper(formats[0])]} + rest by {
        forall p | p in all ensures p in {streams[Upper(formats[0])]} + rest {
          var i :| 0 <= i < |formats| && p == streams[Upper(formats[i])];
          if i > 0 {
            assert formats[1..][i - 1] == formats[i];
          }
        }
        forall p | p in rest ensures p in all {
          var i :| 0 <= i < |formats[1..]| && p == streams[Upper(formats[1..][i])];
          assert formats[1..][i] == formats[i + 1];
        }
      }
    }
  }

  /** The output directory `outputDir/<sanitised selector>` is created only when neither a directory
      nor a file is there already, and no other directory is ever created. */
  lemma DirectoryMadeOnlyWhenAbsent(w: World, o: Options, patterns: Table, oracle: Oracle,
                                    sel: string, k: string, d: string)
    requires o.selector == Some(sel) && SanitizeKey(sel) == Some(k) && LastDir(o.outputDir) == Dir(d)
    ensures var w1 := AsFiles(w, o, patterns, oracle).0;
            w1.dirs == if Resolve(d, k) in w.dirs || Resolve(d, k) in w.files then w.dirs
                       else w.dirs + {Resolve(d, k)}
  {
    var (w1, o1, b) := Prepare(w, o);
    WriteFilesKeepsDirs(w1, o1, b.value, patterns, oracle);
  }

  /** Laying the samples out creates no directory and removes none. */
  lemma WriteFilesKeepsDirs(w: World, o: Options, base: string, patterns: Table, oracle: Oracle)
    ensures WriteFiles(w, o, base, patterns, oracle).0.dirs == w.dirs
  {
    if !o.oneSamplePerFile && o.format.FormatList? {
      var fs := o.format.tokens;
      OpenStreamsKeepsDirs(w, base, fs, map[]);
      var (w2, streams) := OpenStreams(w, base, fs, map[]);
      var (s, r, t) := Gpwf(Sink(Disk(w2.files, w2.open, 0), []), Aggregated(streams), SampleCodec(oracle.yaml),
                            patterns, o.count, o.format, o.selector, oracle, w2.tick);
      EndStreamsOnlyCloses(World(w2.dirs, s.disk.files, s.disk.open, t), streams, fs);
    }
  }

  // ------------------------------------------------------------------ layouts

  /** One sample per file: the `j`-th fragment handed to the callback is the whole content of file
      `base + ' ' + j + ext`, whose stream is ended; distinct fragments get distinct files, and a file
      with any other name is left as it was. */
  lemma OneSamplePerFileLayout(files: map<string, seq<string>>, open: set<string>, base: string, codec: Codec,
                               patterns: Table, count: Option<int>, format: FormatArg, selector: Option<string>,
                               oracle: Oracle, t: nat)
    ensures var s := Gpwf(Sink(Disk(files, open, 0), []), PerFile(base), codec, patterns, count, format, selector, oracle, t).0;
            var cs := CallsOf(s.trace);
            (forall j :: 0 <= j < |cs| ==>
               FileName(base, j, cs[j].format) in s.disk.files &&
               s.disk.files[FileName(base, j, cs[j].format)] == [cs[j].data + "\n"] &&
               FileName(base, j, cs[j].format) !in s.disk.open) &&
            (forall p :: (forall j :: 0 <= j < |cs| ==> p != FileName(base, j, cs[j].format)) ==>
               Get(s.disk.files, p) == Get(files, p) && (p in s.disk.open <==> p in open))
  {
    var d := Disk(files, open, 0);
    var s0 := Sink(d, []);
    var s := Gpwf(s0, PerFile(base), codec, patterns, count, format, selector, oracle, t).0;
    GpwfExtends(s0, PerFile(base), codec, patterns, count, format, selector, oracle, t);
    assert s.trace[|s0.trace|..] == s.trace;
    var cs := CallsOf(s.trace);
    forall j | 0 <= j < |cs|
      ensures FileName(base, j, cs[j].format) in s.disk.files
      ensures s.disk.files[FileName(base, j, cs[j].format)] == [cs[j].data + "\n"]
      ensures FileName(base, j, cs[j].format) !in s.disk.open
    {
      PerFileWritten(d, base, cs, j);
    }
    forall p | forall j :: 0 <= j < |cs| ==> p != FileName(base, j, cs[j].format)
      ensures Get(s.disk.files, p) == Get(files, p) && (p in s.disk.open <==> p in open)
    {
      PerFileUntouched(d, base, cs, p);
    }
  }

  /** Aggregated files: each file gets exactly the fragments whose token has its stream there,
      in order, each followed by a line break, after what it held before; nothing else is written
      (no bracket, comma or header), and the streams stay open. */
  lemma AggregatedLayout(files: map<string, seq<string>>, open: set<string>, streams: map<string, string>,
                         codec: Codec, patterns: Table, count: Option<int>, format: FormatArg,
                         selector: Option<string>, oracle: Oracle, t: nat)
    ensures var s := Gpwf(Sink(Disk(files, open, 0), []), Aggregated(streams), codec, patterns, count, format, selector, oracle, t).0;
            (forall p :: Get(s.disk.files, p) == Get(files, p) + Routed(streams, CallsOf(s.trace), p)) &&
            s.disk.open == open
  {
    var d := Disk(files, open, 0);
    var s0 := Sink(d, []);
    var s := Gpwf(s0, Aggregated(streams), codec, patterns, count, format, selector, oracle, t).0;
    GpwfExtends(s0, Aggregated(streams), codec, patterns, count, format, selector, oracle, t);
    assert s.trace[|s0.trace|..] == s.trace;
    forall p ensures Get(s.disk.files, p) == Get(files, p) + Routed(streams, CallsOf(s.trace), p) {
      AggregatedFile(d, streams, CallsOf(s.trace), p);
    }
    AggregatedKeepsOpen(d, streams, CallsOf(s.trace));
  }

  /** Each upper-cased token gets a stream at `base + ext`, created empty and open; a token that is
      not in the array gets none. */
  lemma {:induction false} OpenStreamsFresh(w: World, base: string, formats: seq<string>, streams: map<string, string>)
    requires forall u :: u in streams ==> streams[u] == base + FileExt(u) && streams[u] in w.files &&
                                           w.files[streams[u]] == [] && streams[u] in w.open
    ensures var (w1, st) := OpenStreams(w, base, formats, streams);
            (forall u :: u in st <==> u in streams || exists i :: 0 <= i < |formats| && u == Upper(formats[i])) &&
            (forall u :: u in st ==> st[u] == base + FileExt(u) && st[u] in w1.files &&
                                     w1.files[st[u]] == [] && st[u] in w1.open) &&
            w1.tick == w.tick
    decreases |formats|
  {
    if formats != [] {
      var u := Upper(formats[0]);
      var p := base + FileExt(u);
      var w0 := w.(files := w.files[p := []], open := w.open + {p});
      OpenStreamsFresh(w0, base, formats[1..], streams[u := p]);
      var (w1, st) := OpenStreams(w0, base, formats[1..], streams[u := p]);
      forall v ensures v in st <==> v in streams || exists i :: 0 <= i < |formats| && v == Upper(formats[i]) {
        if exists i :: 0 <= i < |formats[1..]| && v == Upper(formats[1..][i]) {
          var i :| 0 <= i < |formats[1..]| && v == Upper(formats[1..][i]);
          assert v == Upper(formats[i + 1]);
        }
        if exists i :: 0 <= i < |formats| && v == Upper(formats[i]) {
          var i :| 0 <= i < |formats| && v == Upper(formats[i]);
          if i > 0 {
            assert v == Upper(formats[1..][i - 1]);
          }
        }
      }
    }
  }

  /** The aggregated branch as a whole: each stream, opened empty at `base + ext` under its
      upper-cased token, ends up holding exactly the fragments routed to it, each followed by a line
      break (no bracket, comma or header); the streams are ended when generation resolves and left
      open when it rejects. */
  lemma AggregatedRunOutput(w: World, o: Options, base: string, patterns: Table, oracle: Oracle)
    requires o.format.FormatList?
    ensures var (w1, streams) := OpenStreams(w, base, o.format.tokens, map[]);
            var s := Gpwf(Sink(Disk(w1.files, w1.open, 0), []), Aggregated(streams), SampleCodec(oracle.yaml),
                          patterns, o.count, o.format, o.selector, oracle, w1.tick).0;
            var (w2, r) := AggregatedRun(w, o, base, patterns, oracle);
            (forall u :: u in streams <==> exists i :: 0 <= i < |o.format.tokens| && u == Upper(o.format.tokens[i])) &&
            (forall u :: u in streams ==> streams[u] == base + FileExt(u) &&
                                          Get(w2.files, streams[u]) == Routed(streams, CallsOf(s.trace), streams[u])) &&
            (r.Ok? ==> forall u :: u in streams ==> streams[u] !in w2.open) &&
            (r.Err? ==> forall u :: u in streams ==> streams[u] in w2.open)
  {
    OpenStreamsFresh(w, base, o.format.tokens, map[]);
    AggregatedRunFiles(w, o, base, patterns, oracle);
    AggregatedRunEnds(w, o, base, patterns, oracle);
  }

  /** The contents part of `AggregatedRunOutput`. */
  lemma AggregatedRunFiles(w: World, o: Options, base: string, patterns: Table, oracle: Oracle)
    requires o.format.FormatList?
    ensures var (w1, streams) := OpenStreams(w, base, o.format.tokens, map[]);
            var s := Gpwf(Sink(Disk(w1.files, w1.open, 0), []), Aggregated(streams), SampleCodec(oracle.yaml),
                          patterns, o.count, o.format, o.selector, oracle, w1.tick).0;
            forall u :: u in streams ==>
              Get(AggregatedRun(w, o, base, patterns, oracle).0.files, streams[u]) == Routed(streams, CallsOf(s.trace), streams[u])
  {
    var fs := o.format.tokens;
    OpenStreamsFresh(w, base, fs, map[]);
    var (w1, streams) := OpenStreams(w, base, fs, map[]);
    var (s, r, t) := Gpwf(Sink(Disk(w1.files, w1.open, 0), []), Aggregated(streams), SampleCodec(oracle.yaml),
                          patterns, o.count, o.format, o.selector, oracle, w1.tick);
    AggregatedLayout(w1.files, w1.open, streams, SampleCodec(oracle.yaml), patterns, o.count, o.format, o.selector, oracle, w1.tick);
    var wg := World(w1.dirs, s.disk.files, s.disk.open, t);
    if r.Ok? {
      EndStreamsOnlyCloses(wg, streams, fs);
    }
    forall u | u in streams ensures Get(wg.files, streams[u]) == Routed(streams, CallsOf(s.trace), streams[u]) {
      assert Get(w1.files, streams[u]) == [];
    }
  }

  /** The streams part of `AggregatedRunOutput`. */
  lemma AggregatedRunEnds(w: World, o: Options, base: string, patterns: Table, oracle: Oracle)
    requires o.format.FormatList?
    ensures var streams := OpenStreams(w, base, o.format.tokens, map[]).1;
            var (w2, r) := AggregatedRun(w, o, base, patterns, oracle);
            (r.Ok? ==> forall u :: u in streams ==> streams[u] !in w2.open) &&
            (r.Err? ==> forall u :: u in streams ==> streams[u] in w2.open)
  {
    var fs := o.format.tokens;
    OpenStreamsFresh(w, base, fs, map[]);
    var (w1, streams) := OpenStreams(w, base, fs, map[]);
    var (s, r, t) := Gpwf(Sink(Disk(w1.files, w1.open, 0), []), Aggregated(streams), SampleCodec(oracle.yaml),
                          patterns, o.count, o.format, o.selector, oracle, w1.tick);
    AggregatedLayout(w1.files, w1.open, streams, SampleCodec(oracle.yaml), patterns, o.count, o.format, o.selector, oracle, w1.tick);
    var wg := World(w1.dirs, s.disk.files, s.disk.open, t);
    if r.Ok? {
      EndStreamsOnlyCloses(wg, streams, fs);
      forall u | u in streams ensures streams[u] !in AggregatedRun(w, o, base, patterns, oracle).0.open {
        var i :| 0 <= i < |fs| && u == Upper(fs[i]);
      }
    }
  }

  // ------------------------------------------------------------------ objects

  /** A configuration object. */
  class Config {
    var selector: Option<string>
    var separateFiles: bool
    var oneSamplePerFile: bool
    var outputDir: DirArg
    var format: FormatArg
    var count: Option<int>

    constructor (o: Options)
      ensures Value() == o
    {
      selector := o.selector;
      separateFiles := o.separateFiles;
      oneSamplePerFile := o.oneSamplePerFile;
      outputDir := o.outputDir;
      format := o.format;
      count := o.count;
    }

    function Value(): Options
      reads this
    {
      Options(selector, separateFiles, oneSamplePerFile, outputDir, format, count)
    }
  }

  /** The `forEach` over the formats that opens the aggregated streams. */
  method OpenWriteStreams(host: Host, base: string, formats: seq<string>) returns (streams: map<string, string>)
    modifies host`files, host`open
    ensures (Observe(host), streams) == OpenStreams(old(Observe(host)), base, formats, map[])
  {
    streams := map[];
    ghost var goal := OpenStreams(Observe(host), base, formats, map[]);
    var i := 0;
    while i < |formats|
      invariant 0 <= i <= |formats|
      invariant OpenStreams(Observe(host), base, formats[i..], streams) == goal
    {
      assert formats[i..][1..] == formats[i + 1..];
      var u := Upper(formats[i]);
      var p := base + FileExt(u);
      host.CreateWriteStream(p);
      streams := streams[u := p];
      i := i + 1;
    }
    assert formats[i..] == [];
  }

  /** The loop of the `.then` that ends each format's stream. */
  method EndWriteStreams(host: Host, streams: map<string, string>, formats: seq<string>)
    requires forall i :: 0 <= i < |formats| ==> Upper(formats[i]) in streams
    modifies host`open
    ensures Observe(host) == EndStreams(old(Observe(host)), streams, formats)
  {
    ghost var goal := EndStreams(Observe(host), streams, formats);
    var i := 0;
    while i < |formats|
      invariant 0 <= i <= |formats|
      invariant EndStreams(Observe(host), streams, formats[i..]) == goal
    {
      assert formats[i..][1..] == formats[i + 1..];
      host.End(streams[Upper(formats[i])]);
      i := i + 1;
    }
    assert formats[i..] == [];
  }

  /** `RegexDataGenerator.generateAsFiles(config, patterns, callback)`; `notices` are the option
      values `callback(options, patterns)` is given. */
  method GenerateAsFiles(host: Host, config: Config, patterns: Table)
    returns (r: Result<Option<map<string, seq<string>>>>, notices: seq<Options>)
    modifies host`dirs, host`files, host`open, host`tick, config
    ensures (Observe(host), config.Value(), notices, r) ==
            AsFiles(old(Observe(host)), old(config.Value()), patterns, host.oracle)
    decreases Expands(config.Value()), 0
  {
    if config.selector.None? && config.separateFiles {
      config.separateFiles := false;
      notices := ExpandKeys(host, config, patterns.keys, patterns);
      return Ok(None), notices;
    }
    notices := [];
    r := WriteConfigured(host, config, patterns);
  }

  /** The expansion loop of `generateAsFiles`: each key in turn becomes the selector of the same
      options object, which is handed to the callback and run again. */
  method ExpandKeys(host: Host, options: Config, keys: seq<string>, patterns: Table) returns (notices: seq<Options>)
    requires !options.separateFiles
    modifies host`dirs, host`files, host`open, host`tick, options
    ensures (Observe(host), options.Value(), notices) ==
            Expand(old(Observe(host)), old(options.Value()), keys, patterns, host.oracle)
    decreases Expands(options.Value()), 1
  {
    ghost var goal := Expand(Observe(host), options.Value(), keys, patterns, host.oracle);
    assert keys[0..] == keys;
    notices := [];
    var i := 0;
    while i < |keys|
      invariant 0 <= i <= |keys|
      invariant !options.separateFiles
      invariant var e := Expand(Observe(host), options.Value(), keys[i..], patterns, host.oracle);
                e.0 == goal.0 && e.1 == goal.1 && notices + e.2 == goal.2
    {
      ghost var w0, o0, n0 := Observe(host), options.Value(), notices;
      options.selector := Some(keys[i]);
      assert options.Value() == o0.(selector := Some(keys[i]));
      notices := notices + [options.Value()];
      var _, nested := GenerateAsFiles(host, options, patterns);
      ExpandStep(w0, o0, keys[i..], patterns, host.oracle, Observe(host), options.Value(), nested, n0, goal);
      assert keys[i..][1..] == keys[i + 1..];
      notices := notices + nested;
      i := i + 1;
    }
    assert keys[i..] == [];
    ghost var e := Expand(Observe(host), options.Value(), keys[i..], patterns, host.oracle);
    assert e == (Observe(host), options.Value(), []);
    assert notices + e.2 == notices;
  }

  /** The rest of `generateAsFiles`, once the configuration is not expanded. */
  method WriteConfigured(host: Host, config: Config, patterns: Table) returns (r: Result<Option<map<string, seq<string>>>>)
    modifies host`dirs, host`files, host`open, host`tick, config
    ensures (Observe(host), config.Value(), r) == WriteSelection(old(Observe(host)), old(config.Value()), patterns, host.oracle)
  {
    var b := PrepareOutput(host, config);
    if b.Err? {
      return Err(b.error);
    }
    r := WriteFilesTo(host, config.Value(), b.value, patterns);
  }

  /** Rewrites the options and creates the output directory; returns the base path of the files. */
  method PrepareOutput(host: Host, config: Config) returns (b: Result<string>)
    modifies host`dirs, config
    ensures (Observe(host), config.Value(), b) == Prepare(old(Observe(host)), old(config.Value()))
  {
    if config.outputDir.Dirs? {
      var ps := config.outputDir.paths;
      config.outputDir := if ps == [] then NoDir else Dir(ps[|ps| - 1]);
    }
    if config.selector.None? {
      return Err(TypeError("selector.match"));
    }
    var k := SanitizeKey(config.selector.value);
    if k.None? {
      return Err(TypeError("match.join"));
    }
    if !config.outputDir.Dir? {
      return Err(TypeError("path.resolve"));
    }
    var dir := Resolve(config.outputDir.path, k.value);
    if !host.Exists(dir) {
      var made := host.MakeDirectory(dir);
    }
    if config.format.FormatString? {
      var f := config.format.token;
      if f != [] && f[0] == ',' {
        config.format := FormatList([f]);
      } else {
        config.format := FormatList(Split(f, ','));
      }
    }
    b := Ok(Resolve(dir, config.selector.value));
  }

  /** Lays the samples out in one of the two ways. */
  method WriteFilesTo(host: Host, o: Options, base: string, patterns: Table)
    returns (r: Result<Option<map<string, seq<string>>>>)
    modifies host`files, host`open, host`tick
    ensures (Observe(host), r) == WriteFiles(old(Observe(host)), o, base, patterns, host.oracle)
  {
    if o.oneSamplePerFile {
      r := WriteOneSamplePerFile(host, o, base, patterns);
    } else {
      r := WriteAggregated(host, o, base, patterns);
    }
  }

  /** The one-sample-per-file branch, with its own layout callback. */
  method WriteOneSamplePerFile(host: Host, o: Options, base: string, patterns: Table)
    returns (r: Result<Option<map<string, seq<string>>>>)
    modifies host`files, host`open, host`tick
    ensures (Observe(host), r) == PerFileRun(old(Observe(host)), o, base, patterns, host.oracle)
  {
    var writer := new Writer(host, PerFile(base));
    r := GeneratePatternsWithFormat(host, patterns, o.count, o.format, writer, o.selector);
  }

  /** The aggregated branch: open the streams, generate, and end the streams once generation resolves. */
  method WriteAggregated(host: Host, o: Options, base: string, patterns: Table)
    returns (r: Result<Option<map<string, seq<string>>>>)
    modifies host`files, host`open, host`tick
    ensures (Observe(host), r) == AggregatedRun(old(Observe(host)), o, base, patterns, host.oracle)
  {
    if !o.format.FormatList? {
      return Err(TypeError("format.forEach"));
    }
    var formats := o.format.tokens;
    var streams := OpenWriteStreams(host, base, formats);
    var writer := new Writer(host, Aggregated(streams));
    r := GeneratePatternsWithFormat(host, patterns, o.count, o.format, writer, o.selector);
    ghost var w2 := Observe(host);
    assert w2 == World(w2.dirs, writer.Snapshot().disk.files, writer.Snapshot().disk.open, host.tick);
    if r.Ok? {
      EndWriteStreams(host, streams, formats);
      r := Ok(None);
    }
  }
}
