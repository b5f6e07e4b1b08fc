/** The callback chain of `generatePatternsWithFormat` and `generateAsFiles`, as functions: what one
    draw, one sample and one fragment do to the files and to the record of callback calls. The methods
    of the `Generator` module are proved to follow these functions. */
module Emission {
  import opened Outcomes
  import opened Text
  import opened Serializer
  import opened Runtime

  /** The arguments of one `callback(data, format)` call: a fragment and the trimmed, upper-cased token. */
  datatype Call = Call(data: string, format: string)

  /** How the sample callback turns one entry of the format array into a layout call: `token` gives
      the format argument, `data` the fragment for a sanitised key and a sample. The loops below are
      stated for any such rule; `SampleCodec` is the one `generatePatternsWithFormat` uses. */
  datatype Codec = Codec(token: string -> string, data: (string, string, string) -> string)
  {
    function Encode(format: string, key: string, sample: string): Call {
      Call(data(format, key, sample), token(format))
    }
  }

  /** The sample callback's rule: trim and upper-case the token, and serialise by the format it names. */
  function SampleCodec(yaml: (string, string) -> string): (c: Codec)
    ensures forall f :: c.token(f) == Canon(f)
    ensures forall f, k, x :: c.data(f, k, x) == Serialize(FormatOf(f), k, x, yaml)
  {
    Codec(f => Canon(f), (f, k, x) => Serialize(FormatOf(f), k, x, yaml))
  }

  /** What happened, in order: a draw handed to the sample callback (`{ pattern, sample }`), or a
      fragment accepted by the layout callback. */
  datatype Event = Drawn(pattern: string, sample: string) | Emitted(call: Call)

  /** Which callback receives the fragments: a caller's own (`Record`, which only observes), the
      one-sample-per-file writer of `generateAsFiles` (`PerFile`, with the base path), or its
      aggregated writer (`Aggregated`, with the path of the stream opened for each upper-cased token). */
  datatype Layout = Record | PerFile(base: string) | Aggregated(streams: map<string, string>)

  /** The files, the streams not yet ended, and the per-file counter `i`. */
  datatype Disk = Disk(files: map<string, seq<string>>, open: set<string>, counter: nat)

  datatype Sink = Sink(disk: Disk, trace: seq<Event>)

  /** `base + ' ' + i + ext`. */
  function FileName(base: string, i: nat, format: string): string {
    base + " " + NatToString(i) + FileExt(format)
  }

  /** Whether the layout callback returns normally: the aggregated writer throws a TypeError when no
      stream was opened under the token it is given. */
  predicate Accepts(layout: Layout, format: string) {
    !layout.Aggregated? || format in layout.streams
  }

  /** What the layout callback writes for one accepted fragment. */
  function Put(d: Disk, layout: Layout, c: Call): Disk {
    match layout
    case Record => d
    case PerFile(base) =>
      var p := FileName(base, d.counter, c.format);
      Disk(d.files[p := [c.data + "\n"]], d.open - {p}, d.counter + 1)
    case Aggregated(streams) =>
      if c.format in streams then
        var p := streams[c.format];
        d.(files := d.files[p := Get(d.files, p) + [c.data + "\n"]])
      else d
  }

  /** The layout callback: `false` where it throws. */
  function Deliver(s: Sink, layout: Layout, c: Call): (Sink, bool) {
    if Accepts(layout, c.format) then (Sink(Put(s.disk, layout, c), s.trace + [Emitted(c)]), true)
    else (s, false)
  }

  /** The calls the sample callback makes for one sample: one per format, in the order of the array. */
  function SampleCalls(key: string, formats: seq<string>, sample: string, codec: Codec): (r: seq<Call>)
    ensures |r| == |formats|
  {
    if formats == [] then []
    else [codec.Encode(formats[0], key, sample)]
         + SampleCalls(key, formats[1..], sample, codec)
  }

  /** The `forEach` over the formats inside the sample callback; `false` where it throws (the key has
      no alphanumeric run, or the layout callback threw). The key is sanitised again for every format;
      that gives the same result each time, so it is done once here. */
  function OnFormats(s: Sink, layout: Layout, key: string, formats: seq<string>, sample: string,
                     codec: Codec): (Sink, bool)
  {
    if formats == [] then (s, true)
    else
      match SanitizeKey(key)
      case None => (s, false)
      case Some(k) => Fragments(s, layout, k, formats, sample, codec)
  }

  /** The formats loop once the key is sanitised to `k`: one fragment per format, stopping at the
      first one the layout callback throws on. */
  function Fragments(s: Sink, layout: Layout, k: string, formats: seq<string>, sample: string,
                     codec: Codec): (Sink, bool)
    decreases |formats|
  {
    if formats == [] then (s, true)
    else
      var (s1, ok) := Deliver(s, layout, codec.Encode(formats[0], k, sample));
      if !ok then (s1, false) else Fragments(s1, layout, k, formats[1..], sample, codec)
  }

  /** The inner loop of `generateFromRegex` for one pattern id: `n` more draws starting at random
      state `t`; gives the sink, whether no callback threw, and the random state after. */
  function DrawLoop(s: Sink, layout: Layout, codec: Codec, id: string, key: string, formats: seq<string>,
                    sampler: Sampler, oracle: Oracle, t: nat, n: nat): (Sink, bool, nat)
    decreases n
  {
    if n == 0 then (s, true, t)
    else
      var x := oracle.gen(sampler, t);
      var (s1, ok) := OnFormats(s.(trace := s.trace + [Drawn(id, x)]), layout, key, formats, x, codec);
      if !ok then (s1, false, t + 1) else DrawLoop(s1, layout, codec, id, key, formats, sampler, oracle, t + 1, n - 1)
  }

  /** `numSamples ? numSamples : this.#numSamples` as a loop bound: 0 and a missing count become 100,
      a negative count draws nothing. */
  function NumSamples(count: Option<int>): nat {
    match count
    case None => 100
    case Some(c) => if c == 0 then 100 else if c < 0 then 0 else c
  }

  /** The strings a sampler draws from random state `t` on. */
  function Draws(sampler: Sampler, oracle: Oracle, t: nat, n: nat): (r: seq<string>)
    ensures |r| == n
    decreases n
  {
    if n == 0 then [] else [oracle.gen(sampler, t)] + Draws(sampler, oracle, t + 1, n - 1)
  }

  /** The `j`-th sample drawn is the one the sampler gives at random state `t + j`. */
  lemma {:induction false} DrawsAt(sampler: Sampler, oracle: Oracle, t: nat, n: nat)
    ensures forall j :: 0 <= j < n ==> Draws(sampler, oracle, t, n)[j] == oracle.gen(sampler, t + j)
    decreases n
  {
    if n > 0 {
      DrawsAt(sampler, oracle, t + 1, n - 1);
    }
  }

  /** The calls and the events for a sequence of samples of one key, sample after sample. */
  function KeyCalls(key: string, formats: seq<string>, samples: seq<string>, codec: Codec): seq<Call>
  {
    if samples == [] then [] else SampleCalls(key, formats, samples[0], codec) + KeyCalls(key, formats, samples[1..], codec)
  }

  function Emissions(cs: seq<Call>): (r: seq<Event>)
    ensures |r| == |cs|
  {
    if cs == [] then [] else [Emitted(cs[0])] + Emissions(cs[1..])
  }

  function KeyTrace(id: string, key: string, formats: seq<string>, samples: seq<string>,
                    codec: Codec): seq<Event>
  {
    if samples == [] then []
    else [Drawn(id, samples[0])] + Emissions(SampleCalls(key, formats, samples[0], codec))
         + KeyTrace(id, key, formats, samples[1..], codec)
  }

  /** The layout callback applied to a sequence of accepted calls. */
  function DiskAfter(d: Disk, layout: Layout, cs: seq<Call>): Disk
    decreases |cs|
  {
    if cs == [] then d else DiskAfter(Put(d, layout, cs[0]), layout, cs[1..])
  }

  predicate AllAccepted(layout: Layout, codec: Codec, formats: seq<string>) {
    forall i :: 0 <= i < |formats| ==> Accepts(layout, codec.token(formats[i]))
  }

  // ------------------------------------------------------------------ one sample

  lemma {:induction false} FragmentsAccepted(s: Sink, layout: Layout, k: string, formats: seq<string>,
                                              sample: string, codec: Codec)
    requires AllAccepted(layout, codec, formats)
    ensures Fragments(s, layout, k, formats, sample, codec) ==
            (Sink(DiskAfter(s.disk, layout, SampleCalls(k, formats, sample, codec)),
                  s.trace + Emissions(SampleCalls(k, formats, sample, codec))), true)
    decreases |formats|
  {
    var cs := SampleCalls(k, formats, sample, codec);
    if formats == [] {
      assert s.trace + [] == s.trace;
    } else {
      AllAcceptedCons(layout, codec, formats);
      var s1 := Sink(Put(s.disk, layout, cs[0]), s.trace + [Emitted(cs[0])]);
      FragmentsAccepted(s1, layout, k, formats[1..], sample, codec);
      assert s.trace + Emissions(cs) == s1.trace + Emissions(cs[1..]);
    }
  }

  /** The sample callback, when the key sanitises and every token is accepted: it serialises the
      sample once per format, in order, and hands each fragment to the layout callback. */
  lemma OnFormatsAccepted(s: Sink, layout: Layout, key: string, formats: seq<string>,
                          sample: string, codec: Codec)
    requires SanitizeKey(key).Some? && AllAccepted(layout, codec, formats)
    ensures OnFormats(s, layout, key, formats, sample, codec) ==
            (Sink(DiskAfter(s.disk, layout, SampleCalls(SanitizeKey(key).value, formats, sample, codec)),
                  s.trace + Emissions(SampleCalls(SanitizeKey(key).value, formats, sample, codec))), true)
  {
    FragmentsAccepted(s, layout, SanitizeKey(key).value, formats, sample, codec);
    if formats == [] {
      assert s.trace + [] == s.trace;
    }
  }

  lemma AllAcceptedCons(layout: Layout, codec: Codec, formats: seq<string>)
    requires formats != []
    ensures AllAccepted(layout, codec, formats) <==>
            Accepts(layout, codec.token(formats[0])) && AllAccepted(layout, codec, formats[1..])
  {
    if Accepts(layout, codec.token(formats[0])) && AllAccepted(layout, codec, formats[1..]) {
      forall i | 0 <= i < |formats| ensures Accepts(layout, codec.token(formats[i])) {
        if i > 0 { assert formats[i] == formats[1..][i - 1]; }
      }
    }
    if AllAccepted(layout, codec, formats) {
      forall i | 0 <= i < |formats[1..]| ensures Accepts(layout, codec.token(formats[1..][i])) {
        assert formats[1..][i] == formats[i + 1];
      }
    }
  }

  lemma {:induction false} FragmentsOkIff(s: Sink, layout: Layout, k: string, formats: seq<string>,
                                          sample: string, codec: Codec)
    ensures Fragments(s, layout, k, formats, sample, codec).1 <==> AllAccepted(layout, codec, formats)
    decreases |formats|
  {
    if formats != [] {
      var c := SampleCalls(k, formats, sample, codec)[0];
      AllAcceptedCons(layout, codec, formats);
      if Accepts(layout, c.format) {
        FragmentsOkIff(Deliver(s, layout, c).0, layout, k, formats[1..], sample, codec);
      }
    }
  }

  /** The sample callback throws exactly when there is a format to serialise and either the key has no
      alphanumeric run or some token has no stream. */
  lemma OnFormatsOkIff(s: Sink, layout: Layout, key: string, formats: seq<string>,
                       sample: string, codec: Codec)
    ensures OnFormats(s, layout, key, formats, sample, codec).1 <==>
            formats == [] || (SanitizeKey(key).Some? && AllAccepted(layout, codec, formats))
  {
    if formats != [] && SanitizeKey(key).Some? {
      FragmentsOkIff(s, layout, SanitizeKey(key).value, formats, sample, codec);
    }
  }

  // ------------------------------------------------------------------ layouts

  lemma {:induction false} DiskAfterAppend(d: Disk, layout: Layout, a: seq<Call>, b: seq<Call>)
    ensures DiskAfter(d, layout, a + b) == DiskAfter(DiskAfter(d, layout, a), layout, b)
    decreases |a|
  {
    if a == [] {
      assert a + b == b;
    } else {
      assert (a + b)[0] == a[0];
      assert (a + b)[1..] == a[1..] + b;
      DiskAfterAppend(Put(d, layout, a[0]), layout, a[1..], b);
    }
  }

  /** A run of digits followed by an extension that starts with '.' ends where the '.' is. */
  lemma DigitsBeforeDot(a: string, ea: string, b: string, eb: string)
    requires forall k :: 0 <= k < |a| ==> '0' <= a[k] <= '9'
    requires forall k :: 0 <= k < |b| ==> '0' <= b[k] <= '9'
    requires ea != [] && ea[0] == '.' && eb != [] && eb[0] == '.'
    ensures a + ea == b + eb ==> a == b
  {
    if |a| < |b| {
      assert (a + ea)[|a|] == '.' && (b + eb)[|a|] == b[|a|];
    } else if |b| < |a| {
      assert (b + eb)[|b|] == '.' && (a + ea)[|b|] == a[|b|];
    } else if a + ea == b + eb {
      assert a == (a + ea)[..|a|];
      assert b == (b + eb)[..|b|];
    }
  }

  /** Numbers that differ give file names that differ, whatever the formats. */
  lemma FileNamesDistinct(base: string, i: nat, j: nat, f: string, g: string)
    requires i != j
    ensures FileName(base, i, f) != FileName(base, j, g)
  {
    var a, b := NatToString(i), NatToString(j);
    var ea, eb := FileExt(f), FileExt(g);
    var pre := base + " ";
    assert FileName(base, i, f) == pre + (a + ea);
    assert FileName(base, j, g) == pre + (b + eb);
    assert (pre + (a + ea))[|pre|..] == a + ea;
    assert (pre + (b + eb))[|pre|..] == b + eb;
    DigitsBeforeDot(a, ea, b, eb);
    if a == b {
      NatToStringInjective(i, j);
    }
  }

  lemma {:induction false} PerFileCounter(d: Disk, base: string, cs: seq<Call>)
    ensures DiskAfter(d, PerFile(base), cs).counter == d.counter + |cs|
    decreases |cs|
  {
    if cs != [] {
      PerFileCounter(Put(d, PerFile(base), cs[0]), base, cs[1..]);
    }
  }

  /** One-sample-per-file, the files it does not name: a path that is none of the run's file names
      keeps its content and its open state. */
  lemma {:induction false} PerFileUntouched(d: Disk, base: string, cs: seq<Call>, p: string)
    requires forall j :: 0 <= j < |cs| ==> p != FileName(base, d.counter + j, cs[j].format)
    ensures p in DiskAfter(d, PerFile(base), cs).files <==> p in d.files
    ensures Get(DiskAfter(d, PerFile(base), cs).files, p) == Get(d.files, p)
    ensures p in DiskAfter(d, PerFile(base), cs).open <==> p in d.open
    decreases |cs|
  {
    if cs != [] {
      var d1 := Put(d, PerFile(base), cs[0]);
      assert p != FileName(base, d.counter + 0, cs[0].format);
      forall j | 0 <= j < |cs[1..]| ensures p != FileName(base, d1.counter + j, cs[1..][j].format) {
        assert cs[1..][j] == cs[j + 1];
        assert p != FileName(base, d.counter + (j + 1), cs[j + 1].format);
      }
      PerFileUntouched(d1, base, cs[1..], p);
    }
  }

  /** One-sample-per-file: fragment `j` of the run is the whole content of file `base (i+j) ext`,
      whose stream is ended. */
  lemma {:induction false} PerFileWritten(d: Disk, base: string, cs: seq<Call>, j: nat)
    requires j < |cs|
    ensures FileName(base, d.counter + j, cs[j].format) in DiskAfter(d, PerFile(base), cs).files
    ensures DiskAfter(d, PerFile(base), cs).files[FileName(base, d.counter + j, cs[j].format)] == [cs[j].data + "\n"]
    ensures FileName(base, d.counter + j, cs[j].format) !in DiskAfter(d, PerFile(base), cs).open
    decreases |cs|
  {
    var d1 := Put(d, PerFile(base), cs[0]);
    var p := FileName(base, d.counter + j, cs[j].format);
    if j == 0 {
      forall k | 0 <= k < |cs[1..]| ensures p != FileName(base, d1.counter + k, cs[1..][k].format) {
        FileNamesDistinct(base, d.counter, d1.counter + k, cs[0].format, cs[1..][k].format);
      }
      PerFileUntouched(d1, base, cs[1..], p);
    } else {
      assert cs[j] == cs[1..][j - 1];
      assert d.counter + j == d1.counter + (j - 1);
      PerFileWritten(d1, base, cs[1..], j - 1);
    }
  }

  /** The fragments an aggregated run writes to `path`: those whose token has its stream there, in
      order, each followed by a line break. */
  function Routed(streams: map<string, string>, cs: seq<Call>, path: string): seq<string> {
    if cs == [] then []
    else (if cs[0].format in streams && streams[cs[0].format] == path then [cs[0].data + "\n"] else [])
         + Routed(streams, cs[1..], path)
  }

  /** Aggregated layout: every file gets exactly the fragments routed to it appended (no bracket,
      comma or header is ever written), and no file disappears. */
  lemma {:induction false} AggregatedFile(d: Disk, streams: map<string, string>, cs: seq<Call>, p: string)
    ensures Get(DiskAfter(d, Aggregated(streams), cs).files, p) == Get(d.files, p) + Routed(streams, cs, p)
    ensures p in d.files ==> p in DiskAfter(d, Aggregated(streams), cs).files
    decreases |cs|
  {
    if cs == [] {
      assert Get(d.files, p) + [] == Get(d.files, p);
    } else {
      var d1 := Put(d, Aggregated(streams), cs[0]);
      AggregatedFile(d1, streams, cs[1..], p);
      assert Get(d1.files, p) == Get(d.files, p) +
        (if cs[0].format in streams && streams[cs[0].format] == p then [cs[0].data + "\n"] else []);
    }
  }

  /** Aggregated layout: the streams stay open and the per-file counter is not used. */
  lemma {:induction false} AggregatedKeepsOpen(d: Disk, streams: map<string, string>, cs: seq<Call>)
    ensures DiskAfter(d, Aggregated(streams), cs).open == d.open
    ensures DiskAfter(d, Aggregated(streams), cs).counter == d.counter
    decreases |cs|
  {
    if cs != [] {
      AggregatedKeepsOpen(Put(d, Aggregated(streams), cs[0]), streams, cs[1..]);
    }
  }

  /** When the streams sit at distinct paths, the stream of token `t` receives exactly the fragments
      whose token is `t`. */
  lemma {:induction false} RoutedByFormat(streams: map<string, string>, cs: seq<Call>, t: string)
    requires t in streams
    requires forall u :: u in streams && streams[u] == streams[t] ==> u == t
    ensures Routed(streams, cs, streams[t]) == ForFormat(cs, t)
    decreases |cs|
  {
    if cs != [] {
      RoutedByFormat(streams, cs[1..], t);
    }
  }

  /** The fragments of the calls made with token `t`, each followed by a line break. */
  function ForFormat(cs: seq<Call>, t: string): seq<string> {
    if cs == [] then [] else (if cs[0].format == t then [cs[0].data + "\n"] else []) + ForFormat(cs[1..], t)
  }

  // ------------------------------------------------------------------ one key

  /** The draw loop, when the key sanitises and every token is accepted, finishes all `n` draws. */
  lemma {:induction false} DrawLoopFinishes(s: Sink, layout: Layout, codec: Codec, id: string, key: string,
                                            formats: seq<string>, sampler: Sampler, oracle: Oracle, t: nat, n: nat)
    requires SanitizeKey(key).Some? && AllAccepted(layout, codec, formats)
    ensures DrawLoop(s, layout, codec, id, key, formats, sampler, oracle, t, n).1
    ensures DrawLoop(s, layout, codec, id, key, formats, sampler, oracle, t, n).2 == t + n
    decreases n
  {
    if n > 0 {
      var x := oracle.gen(sampler, t);
      var s0 := s.(trace := s.trace + [Drawn(id, x)]);
      OnFormatsOkIff(s0, layout, key, formats, x, codec);
      DrawLoopFinishes(OnFormats(s0, layout, key, formats, x, codec).0, layout, codec, id, key, formats, sampler, oracle, t + 1, n - 1);
    }
  }

  /** ... and writes what the layout callback makes of the key's calls, sample after sample. */
  lemma {:induction false} DrawLoopDisk(s: Sink, layout: Layout, codec: Codec, id: string, key: string, k: string,
                                        formats: seq<string>, sampler: Sampler, oracle: Oracle, t: nat, n: nat)
    requires SanitizeKey(key) == Some(k) && AllAccepted(layout, codec, formats)
    ensures DrawLoop(s, layout, codec, id, key, formats, sampler, oracle, t, n).0.disk ==
            DiskAfter(s.disk, layout, KeyCalls(k, formats, Draws(sampler, oracle, t, n), codec))
    decreases n
  {
    if n > 0 {
      var xs := Draws(sampler, oracle, t, n);
      var x := oracle.gen(sampler, t);
      assert xs[0] == x && xs[1..] == Draws(sampler, oracle, t + 1, n - 1);
      var cs := SampleCalls(k, formats, x, codec);
      var s0 := s.(trace := s.trace + [Drawn(id, x)]);
      OnFormatsAccepted(s0, layout, key, formats, x, codec);
      var s1 := OnFormats(s0, layout, key, formats, x, codec).0;
      DrawLoopDisk(s1, layout, codec, id, key, k, formats, sampler, oracle, t + 1, n - 1);
      var rest := KeyCalls(k, formats, xs[1..], codec);
      DiskAfterAppend(s.disk, layout, cs, rest);
      assert KeyCalls(k, formats, xs, codec) == cs + rest;
    }
  }

  /** ... and records each draw followed by the fragments made from it. */
  lemma {:induction false} DrawLoopTrace(s: Sink, layout: Layout, codec: Codec, id: string, key: string, k: string,
                                         formats: seq<string>, sampler: Sampler, oracle: Oracle, t: nat, n: nat)
    requires SanitizeKey(key) == Some(k) && AllAccepted(layout, codec, formats)
    ensures DrawLoop(s, layout, codec, id, key, formats, sampler, oracle, t, n).0.trace ==
            s.trace + KeyTrace(id, k, formats, Draws(sampler, oracle, t, n), codec)
    decreases n
  {
    var xs := Draws(sampler, oracle, t, n);
    if n == 0 {
      assert s.trace + [] == s.trace;
    } else {
      var x := oracle.gen(sampler, t);
      var cs := SampleCalls(k, formats, x, codec);
      var s0 := s.(trace := s.trace + [Drawn(id, x)]);
      var s1 := OnFormats(s0, layout, key, formats, x, codec).0;
      var head := [Drawn(id, x)] + Emissions(cs);
      var tail := KeyTrace(id, k, formats, Draws(sampler, oracle, t + 1, n - 1), codec);
      assert DrawLoop(s, layout, codec, id, key, formats, sampler, oracle, t, n) ==
             DrawLoop(s1, layout, codec, id, key, formats, sampler, oracle, t + 1, n - 1) by {
        OnFormatsAccepted(s0, layout, key, formats, x, codec);
      }
      assert s1.trace == s0.trace + Emissions(cs) by {
        OnFormatsAccepted(s0, layout, key, formats, x, codec);
      }
      AppendAssoc(s.trace, [Drawn(id, x)], Emissions(cs));
      DrawLoopTrace(s1, layout, codec, id, key, k, formats, sampler, oracle, t + 1, n - 1);
      assert KeyTrace(id, k, formats, xs, codec) == head + tail by {
        assert xs[0] == x && xs[1..] == Draws(sampler, oracle, t + 1, n - 1);
      }
      AppendAssoc(s.trace, head, tail);
    }
  }

  lemma AppendAssoc<T>(a: seq<T>, b: seq<T>, c: seq<T>)
    ensures (a + b) + c == a + (b + c)
  {
  }

  /** The draw loop for one id: with a key that sanitises and every token accepted, it draws `n`
      samples, calls back once per draw in order, serialises each sample once per format before the
      next draw, and finishes; otherwise it throws right after the first draw. */
  lemma DrawLoopOutcome(s: Sink, layout: Layout, codec: Codec, id: string, key: string, formats: seq<string>,
                        sampler: Sampler, oracle: Oracle, t: nat, n: nat)
    ensures var (s1, ok, t1) := DrawLoop(s, layout, codec, id, key, formats, sampler, oracle, t, n);
            ok <==> (n == 0 || formats == [] || (SanitizeKey(key).Some? && AllAccepted(layout, codec, formats)))
    ensures var (s1, ok, t1) := DrawLoop(s, layout, codec, id, key, formats, sampler, oracle, t, n);
            t1 == if ok then t + n else t + 1
  {
    if n > 0 && !(formats == [] || (SanitizeKey(key).Some? && AllAccepted(layout, codec, formats))) {
      var x := oracle.gen(sampler, t);
      OnFormatsOkIff(s.(trace := s.trace + [Drawn(id, x)]), layout, key, formats, x, codec);
    } else if n > 0 && formats == [] {
      DrawLoopNoFormats(s, layout, codec, id, key, sampler, oracle, t, n);
    } else if n > 0 {
      DrawLoopFinishes(s, layout, codec, id, key, formats, sampler, oracle, t, n);
    }
  }

  lemma {:induction false} DrawLoopNoFormats(s: Sink, layout: Layout, codec: Codec, id: string, key: string,
                                             sampler: Sampler, oracle: Oracle, t: nat, n: nat)
    ensures DrawLoop(s, layout, codec, id, key, [], sampler, oracle, t, n).1
    ensures DrawLoop(s, layout, codec, id, key, [], sampler, oracle, t, n).2 == t + n
    decreases n
  {
    if n > 0 {
      var x := oracle.gen(sampler, t);
      DrawLoopNoFormats(s.(trace := s.trace + [Drawn(id, x)]), layout, codec, id, key, sampler, oracle, t + 1, n - 1);
    }
  }

  /** The draws recorded for one key are exactly its samples, tagged with the pattern id, in order. */
  lemma {:induction false} KeyTraceDraws(id: string, key: string, formats: seq<string>, samples: seq<string>,
                                         codec: Codec)
    ensures DrawsOf(KeyTrace(id, key, formats, samples, codec)) == Tagged(id, samples)
  {
    if samples != [] {
      var cs := SampleCalls(key, formats, samples[0], codec);
      var rest := KeyTrace(id, key, formats, samples[1..], codec);
      KeyTraceDraws(id, key, formats, samples[1..], codec);
      EmissionsShape(cs);
      ProjectAppend([Drawn(id, samples[0])] + Emissions(cs), rest);
      ProjectAppend([Drawn(id, samples[0])], Emissions(cs));
      assert DrawsOf([Drawn(id, samples[0])]) == [(id, samples[0])];
      assert Tagged(id, samples) == [(id, samples[0])] + Tagged(id, samples[1..]);
    }
  }

  /** The calls recorded for one key are exactly its planned calls, one per sample and format. */
  lemma {:induction false} KeyTraceCalls(id: string, key: string, formats: seq<string>, samples: seq<string>,
                                         codec: Codec)
    ensures CallsOf(KeyTrace(id, key, formats, samples, codec)) == KeyCalls(key, formats, samples, codec)
  {
    if samples != [] {
      var cs := SampleCalls(key, formats, samples[0], codec);
      var rest := KeyTrace(id, key, formats, samples[1..], codec);
      KeyTraceCalls(id, key, formats, samples[1..], codec);
      EmissionsShape(cs);
      ProjectAppend([Drawn(id, samples[0])] + Emissions(cs), rest);
      ProjectAppend([Drawn(id, samples[0])], Emissions(cs));
      assert CallsOf([Drawn(id, samples[0])]) == [];
    }
  }

  /** A key makes one call per sample and format. */
  lemma {:induction false} KeyCallsLength(key: string, formats: seq<string>, samples: seq<string>,
                                          codec: Codec)
    ensures |KeyCalls(key, formats, samples, codec)| == |samples| * |formats|
  {
    if samples != [] {
      KeyCallsLength(key, formats, samples[1..], codec);
      assert |samples| * |formats| == |formats| + (|samples| - 1) * |formats|;
    }
  }

  /** The `{ pattern, sample }` arguments of the draws in a trace. */
  function DrawsOf(tr: seq<Event>): seq<(string, string)> {
    if tr == [] then []
    else (if tr[0].Drawn? then [(tr[0].pattern, tr[0].sample)] else []) + DrawsOf(tr[1..])
  }

  /** The layout calls in a trace. */
  function CallsOf(tr: seq<Event>): seq<Call> {
    if tr == [] then [] else (if tr[0].Emitted? then [tr[0].call] else []) + CallsOf(tr[1..])
  }

  function Tagged(id: string, samples: seq<string>): (r: seq<(string, string)>)
    ensures |r| == |samples|
  {
    if samples == [] then [] else [(id, samples[0])] + Tagged(id, samples[1..])
  }

  lemma {:induction false} DrawsAppend(a: seq<Event>, b: seq<Event>)
    ensures DrawsOf(a + b) == DrawsOf(a) + DrawsOf(b)
    decreases |a|
  {
    if a == [] {
      assert a + b == b;
    } else {
      var h := if a[0].Drawn? then [(a[0].pattern, a[0].sample)] else [];
      assert (a + b)[0] == a[0];
      assert (a + b)[1..] == a[1..] + b;
      assert DrawsOf(a + b) == h + DrawsOf(a[1..] + b);
      DrawsAppend(a[1..], b);
      AppendAssoc(h, DrawsOf(a[1..]), DrawsOf(b));
    }
  }

  lemma {:induction false} CallsAppend(a: seq<Event>, b: seq<Event>)
    ensures CallsOf(a + b) == CallsOf(a) + CallsOf(b)
    decreases |a|
  {
    if a == [] {
      assert a + b == b;
    } else {
      var h := if a[0].Emitted? then [a[0].call] else [];
      assert (a + b)[0] == a[0];
      assert (a + b)[1..] == a[1..] + b;
      assert CallsOf(a + b) == h + CallsOf(a[1..] + b);
      CallsAppend(a[1..], b);
      AppendAssoc(h, CallsOf(a[1..]), CallsOf(b));
    }
  }

  lemma ProjectAppend(a: seq<Event>, b: seq<Event>)
    ensures DrawsOf(a + b) == DrawsOf(a) + DrawsOf(b)
    ensures CallsOf(a + b) == CallsOf(a) + CallsOf(b)
  {
    DrawsAppend(a, b);
    CallsAppend(a, b);
  }

  lemma {:induction false} EmissionsShape(cs: seq<Call>)
    ensures DrawsOf(Emissions(cs)) == []
    ensures CallsOf(Emissions(cs)) == cs
    decreases |cs|
  {
    if cs != [] {
      EmissionsShape(cs[1..]);
      assert Emissions(cs) == [Emitted(cs[0])] + Emissions(cs[1..]);
      ProjectAppend([Emitted(cs[0])], Emissions(cs[1..]));
    }
  }

  // ------------------------------------------------------------------ step rules used by the methods

  /** One format of the sample callback: the key is sanitised, the fragment handed on, and the rest of
      the formats follow only if the layout callback returned normally. */
  lemma OnFormatsStep(s: Sink, layout: Layout, key: string, formats: seq<string>, sample: string,
                      codec: Codec)
    requires formats != []
    ensures SanitizeKey(key).None? ==> OnFormats(s, layout, key, formats, sample, codec) == (s, false)
    ensures SanitizeKey(key).Some? ==>
      var c := codec.Encode(formats[0], SanitizeKey(key).value, sample);
      var (s1, ok) := Deliver(s, layout, c);
      OnFormats(s, layout, key, formats, sample, codec) ==
        (if ok then OnFormats(s1, layout, key, formats[1..], sample, codec) else (s1, false))
  {
  }

  /** The draws from state `t` on, one more at the end. */
  lemma {:induction false} DrawsSnoc(sampler: Sampler, oracle: Oracle, t: nat, n: nat)
    ensures Draws(sampler, oracle, t, n + 1) == Draws(sampler, oracle, t, n) + [oracle.gen(sampler, t + n)]
    decreases n
  {
    if n > 0 {
      DrawsSnoc(sampler, oracle, t + 1, n - 1);
      AppendAssoc([oracle.gen(sampler, t)], Draws(sampler, oracle, t + 1, n - 1), [oracle.gen(sampler, t + n)]);
    }
  }

  /** One draw of the draw loop, given what the sample callback made of it. */
  lemma DrawLoopStep(s: Sink, layout: Layout, codec: Codec, id: string, key: string, formats: seq<string>,
                     sampler: Sampler, oracle: Oracle, t: nat, n: nat, s1: Sink, ok: bool)
    requires n > 0
    requires (s1, ok) == OnFormats(s.(trace := s.trace + [Drawn(id, oracle.gen(sampler, t))]), layout, key, formats,
                                   oracle.gen(sampler, t), codec)
    ensures DrawLoop(s, layout, codec, id, key, formats, sampler, oracle, t, n) ==
            (if ok then DrawLoop(s1, layout, codec, id, key, formats, sampler, oracle, t + 1, n - 1) else (s1, false, t + 1))
  {
  }

  // ------------------------------------------------------------------ the trace explains the files

  /** `s1` follows `s`: its record extends that of `s`, and its files are what the layout callback makes
      of exactly the calls recorded since. */
  predicate Extends(s: Sink, s1: Sink, layout: Layout) {
    s.trace <= s1.trace && s1.disk == DiskAfter(s.disk, layout, CallsOf(s1.trace[|s.trace|..]))
  }

  lemma ExtendsRefl(s: Sink, layout: Layout)
    ensures Extends(s, s, layout)
  {
    assert s.trace[|s.trace|..] == [];
  }

  lemma ExtendsTrans(s: Sink, s1: Sink, s2: Sink, layout: Layout)
    requires Extends(s, s1, layout) && Extends(s1, s2, layout)
    ensures Extends(s, s2, layout)
  {
    var a, b := s1.trace[|s.trace|..], s2.trace[|s1.trace|..];
    assert s2.trace[|s.trace|..] == a + b;
    CallsAppend(a, b);
    DiskAfterAppend(s.disk, layout, CallsOf(a), CallsOf(b));
  }

  lemma DeliverExtends(s: Sink, layout: Layout, c: Call)
    ensures Extends(s, Deliver(s, layout, c).0, layout)
  {
    if Accepts(layout, c.format) {
      var s1 := Deliver(s, layout, c).0;
      assert s1.trace[|s.trace|..] == [Emitted(c)];
      assert CallsOf([Emitted(c)]) == [c];
      assert DiskAfter(s.disk, layout, [c]) == Put(s.disk, layout, c);
    } else {
      ExtendsRefl(s, layout);
    }
  }

  lemma DrawnExtends(s: Sink, layout: Layout, id: string, x: string)
    ensures Extends(s, s.(trace := s.trace + [Drawn(id, x)]), layout)
  {
    assert (s.trace + [Drawn(id, x)])[|s.trace|..] == [Drawn(id, x)];
    assert CallsOf([Drawn(id, x)]) == [];
  }

  lemma {:induction false} FragmentsExtends(s: Sink, layout: Layout, k: string, formats: seq<string>,
                                            sample: string, codec: Codec)
    ensures Extends(s, Fragments(s, layout, k, formats, sample, codec).0, layout)
    decreases |formats|
  {
    if formats == [] {
      ExtendsRefl(s, layout);
    } else {
      var c := codec.Encode(formats[0], k, sample);
      var (s1, ok) := Deliver(s, layout, c);
      DeliverExtends(s, layout, c);
      if ok {
        FragmentsExtends(s1, layout, k, formats[1..], sample, codec);
        ExtendsTrans(s, s1, Fragments(s1, layout, k, formats[1..], sample, codec).0, layout);
      }
    }
  }

  lemma OnFormatsExtends(s: Sink, layout: Layout, key: string, formats: seq<string>,
                         sample: string, codec: Codec)
    ensures Extends(s, OnFormats(s, layout, key, formats, sample, codec).0, layout)
  {
    if formats != [] && SanitizeKey(key).Some? {
      FragmentsExtends(s, layout, SanitizeKey(key).value, formats, sample, codec);
    } else {
      ExtendsRefl(s, layout);
    }
  }

  /** A draw loop only appends to the record, and the files are what the layout callback made of the
      calls it appended. */
  lemma {:induction false} DrawLoopExtends(s: Sink, layout: Layout, codec: Codec, id: string, key: string,
                                           formats: seq<string>, sampler: Sampler, oracle: Oracle, t: nat, n: nat)
    ensures Extends(s, DrawLoop(s, layout, codec, id, key, formats, sampler, oracle, t, n).0, layout)
    decreases n
  {
    if n == 0 {
      ExtendsRefl(s, layout);
    } else {
      var x := oracle.gen(sampler, t);
      var s0 := s.(trace := s.trace + [Drawn(id, x)]);
      var (s1, ok) := OnFormats(s0, layout, key, formats, x, codec);
      DrawLoopStep(s, layout, codec, id, key, formats, sampler, oracle, t, n, s1, ok);
      DrawnExtends(s, layout, id, x);
      OnFormatsExtends(s0, layout, key, formats, x, codec);
      ExtendsTrans(s, s0, s1, layout);
      if ok {
        var s2 := DrawLoop(s1, layout, codec, id, key, formats, sampler, oracle, t + 1, n - 1).0;
        DrawLoopExtends(s1, layout, codec, id, key, formats, sampler, oracle, t + 1, n - 1);
        ExtendsTrans(s, s1, s2, layout);
      }
    }
  }
}
