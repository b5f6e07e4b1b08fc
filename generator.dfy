/** `RegexDataGenerator`: the pattern table, the sampler set-up of the `dataSource` setter, the draw
    loop of `generateFromRegex`, and `generatePatternsWithFormat`, each method proved to follow the
    functions of the `Emission` module. */
module Generator {
  import opened Outcomes
  import opened Text
  import opened Serializer
  import opened Runtime
  import opened Emission

  /** `regexConfig.min` and `regexConfig.max`. */
  const MinRepetition: int := 1
  const MaxRepetition: int := 100

  /** `RegexDataGenerator.SampleCount`, the count the command line reports when none is given. */
  const SampleCount: nat := 10

  // ------------------------------------------------------------------ pattern tables

  /** A JavaScript object of patterns: its keys in `Object.keys` order and the value of each key
      (`None`: the key holds `undefined`). */
  datatype Table = Table(keys: seq<string>, values: map<string, Option<string>>)

  /** What every JavaScript object satisfies: each key once, and a value exactly for the keys. */
  ghost predicate ValidTable(t: Table) {
    (forall i, j :: 0 <= i < j < |t.keys| ==> t.keys[i] != t.keys[j]) &&
    (forall k :: k in t.values <==> k in t.keys)
  }

  /** `targetPatterns[key]`. */
  function Lookup(t: Table, key: string): Option<string> {
    if key in t.values then t.values[key] else None
  }

  predicate Truthy(selector: Option<string>) {
    selector.Some? && selector.value != ""
  }

  /** `#getPatternSelection`: a truthy selector narrows the table to that one key, whose value is
      whatever the table holds for it (possibly `undefined`); otherwise the table is kept. */
  function Selection(t: Table, selector: Option<string>): (r: Table)
    ensures ValidTable(t) ==> ValidTable(r)
  {
    if Truthy(selector) then Table([selector.value], map[selector.value := Lookup(t, selector.value)]) else t
  }

  /** The selection holds the selected key alone, with the value it had, or the whole table. */
  lemma SelectionNarrows(t: Table, selector: Option<string>)
    ensures Truthy(selector) ==> Selection(t, selector).keys == [selector.value]
    ensures Truthy(selector) ==> forall k :: Lookup(Selection(t, selector), k) ==
                                           (if k == selector.value then Lookup(t, k) else None)
    ensures !Truthy(selector) ==> Selection(t, selector) == t
  {
  }

  /** Selecting twice with the same selector selects once. */
  lemma SelectionIdempotent(t: Table, selector: Option<string>)
    ensures Selection(Selection(t, selector), selector) == Selection(t, selector)
  {
  }

  // ------------------------------------------------------------------ format argument

  /** The `format` argument: an array of tokens, one string, or any other value, falsy (`null`,
      `undefined`, `false`, `0`) or truthy (`true`, a non-zero number, an object). */
  datatype FormatArg = FormatList(tokens: seq<string>) | FormatString(token: string) | FormatOther(truthy: bool)

  /** `outputFormatArray`: an array is taken as it is, a string becomes a one-element array, and any
      other value throws `invalid format specified`. */
  function FormatTokens(format: FormatArg): Result<seq<string>>
  {
    match format
    case FormatList(tokens) => Ok(tokens)
    case FormatString(token) => Ok([token])
    case FormatOther(_) => Err(InvalidFormat)
  }

  // ------------------------------------------------------------------ sampler set-up

  /** What the setter's loop leaves behind: the samplers, the random state, and the failure that
      stopped it, if any. */
  datatype Compiled = Compiled(samplers: map<string, Sampler>, tick: nat, failure: Option<Failure>)

  /** The setter's loop over `ids`: each pattern is compiled (an undefined one, or one the regex engine
      refuses, throws and stops the loop), then `Math.random()` picks its repetition bound. */
  function Compile(t: Table, ids: seq<string>, oracle: Oracle, tick: nat, acc: map<string, Sampler>): Compiled
    decreases |ids|
  {
    if ids == [] then Compiled(acc, tick, None)
    else
      var src := Lookup(t, ids[0]);
      if src.None? || !oracle.compiles(src.value) then Compiled(acc, tick, Some(CompileError(src)))
      else
        var bound := RepetitionBound(oracle.uniform(tick), MinRepetition, MaxRepetition);
        Compile(t, ids[1..], oracle, tick + 1, acc[ids[0] := Sampler(src.value, bound)])
  }

  /** The loop fails exactly when some pattern is undefined or does not compile. */
  lemma {:induction false} CompileFailsIff(t: Table, ids: seq<string>, oracle: Oracle, tick: nat, acc: map<string, Sampler>)
    ensures Compile(t, ids, oracle, tick, acc).failure.Some? <==>
            exists i :: 0 <= i < |ids| && (Lookup(t, ids[i]).None? || !oracle.compiles(Lookup(t, ids[i]).value))
    decreases |ids|
  {
    if ids != [] {
      var src := Lookup(t, ids[0]);
      if !(src.None? || !oracle.compiles(src.value)) {
        var bound := RepetitionBound(oracle.uniform(tick), MinRepetition, MaxRepetition);
        CompileFailsIff(t, ids[1..], oracle, tick + 1, acc[ids[0] := Sampler(src.value, bound)]);
        if exists i :: 0 <= i < |ids| && (Lookup(t, ids[i]).None? || !oracle.compiles(Lookup(t, ids[i]).value)) {
          var i :| 0 <= i < |ids| && (Lookup(t, ids[i]).None? || !oracle.compiles(Lookup(t, ids[i]).value));
          assert ids[1..][i - 1] == ids[i];
        }
        if exists i :: 0 <= i < |ids[1..]| && (Lookup(t, ids[1..][i]).None? || !oracle.compiles(Lookup(t, ids[1..][i]).value)) {
          var i :| 0 <= i < |ids[1..]| && (Lookup(t, ids[1..][i]).None? || !oracle.compiles(Lookup(t, ids[1..][i]).value));
          assert ids[1..][i] == ids[i + 1];
        }
      }
    }
  }

  /** After a loop that did not fail, every id has a sampler for its own pattern whose bound is in
      `[1, 99]`, samplers of other ids are kept, and one random number was used per id. */
  lemma {:induction false} CompiledSamplers(t: Table, ids: seq<string>, oracle: Oracle, tick: nat, acc: map<string, Sampler>)
    requires Compile(t, ids, oracle, tick, acc).failure.None?
    requires forall k :: k in acc ==> 1 <= acc[k].bound <= 99
    ensures var c := Compile(t, ids, oracle, tick, acc);
            c.tick == tick + |ids| &&
            (forall id :: id in ids ==> id in c.samplers && Lookup(t, id) == Some(c.samplers[id].source)) &&
            (forall k :: k in c.samplers ==> 1 <= c.samplers[k].bound <= 99) &&
            (forall k :: k !in ids ==> (k in c.samplers <==> k in acc) && (k in acc ==> c.samplers[k] == acc[k]))
    decreases |ids|
  {
    if ids != [] {
      var src := Lookup(t, ids[0]);
      var r := oracle.uniform(tick);
      DefaultBound(r);
      var acc1 := acc[ids[0] := Sampler(src.value, RepetitionBound(r, MinRepetition, MaxRepetition))];
      CompiledSamplers(t, ids[1..], oracle, tick + 1, acc1);
      var c := Compile(t, ids, oracle, tick, acc);
      forall id | id in ids ensures id in c.samplers && Lookup(t, id) == Some(c.samplers[id].source) {
        if id !in ids[1..] {
          assert id == ids[0];
        }
      }
      forall k | k !in ids ensures (k in c.samplers <==> k in acc) && (k in acc ==> c.samplers[k] == acc[k]) {
        assert k != ids[0] && k !in ids[1..];
      }
    }
  }

  // ------------------------------------------------------------------ the draw loop over ids

  /** `generateFromRegex` over the pattern ids with `n` draws each: `out[id]` is reset and filled, an
      id without a sampler throws at its first draw, a throwing callback stops the loop; gives the
      sink, the returned `out` or the failure, and the random state. */
  function IdsRun(s: Sink, layout: Layout, codec: Codec, key: string, formats: seq<string>, ids: seq<string>,
                  samplers: map<string, Sampler>, oracle: Oracle, t: nat, n: nat,
                  out: map<string, seq<string>>): (Sink, Result<map<string, seq<string>>>, nat)
    decreases |ids|
  {
    if ids == [] then (s, Ok(out), t)
    else if n == 0 then IdsRun(s, layout, codec, key, formats, ids[1..], samplers, oracle, t, n, out[ids[0] := []])
    else if ids[0] !in samplers then (s, Err(TypeError("xegerPatterns[id].gen")), t)
    else
      var sampler := samplers[ids[0]];
      var (s1, ok, t1) := DrawLoop(s, layout, codec, ids[0], key, formats, sampler, oracle, t, n);
      if !ok then (s1, Err(TypeError("sample callback")), t1)
      else IdsRun(s1, layout, codec, key, formats, ids[1..], samplers, oracle, t1, n, out[ids[0] := Draws(sampler, oracle, t, n)])
  }

  /** `generateFromRegex`: with no pattern ids (the data source was falsy) the `for ... of` throws. */
  function RegexRun(s: Sink, layout: Layout, codec: Codec, key: string, formats: seq<string>, ids: Option<seq<string>>,
                    samplers: map<string, Sampler>, oracle: Oracle, t: nat, n: nat): (Sink, Result<map<string, seq<string>>>, nat)
  {
    match ids
    case None => (s, Err(TypeError("patternIDs")), t)
    case Some(ids) => IdsRun(s, layout, codec, key, formats, ids, samplers, oracle, t, n, map[])
  }

  /** Draws of the ids in turn, `n` each, tagged with their id: the `{ pattern, sample }` arguments of
      the callback in order. */
  function IdDraws(ids: seq<string>, samplers: map<string, Sampler>, oracle: Oracle, t: nat, n: nat): seq<(string, string)>
    requires forall id :: id in ids ==> id in samplers
    decreases |ids|
  {
    if ids == [] then [] else Tagged(ids[0], Draws(samplers[ids[0]], oracle, t, n)) + IdDraws(ids[1..], samplers, oracle, t + n, n)
  }

  /** `(a + 1) * n` unfolded, kept out of the solver's nonlinear arithmetic. */
  lemma MulSucc(a: nat, n: nat)
    ensures (a + 1) * n == a * n + n
  {
  }

  /** The random state at which the `i`-th of several `n`-draw loops starts. */
  function Offset(t: nat, i: nat, n: nat): nat {
    t + i * n
  }

  /** The sink after a key's draw loop ran to the end on the samples `xs`. */
  function AfterKey(s: Sink, layout: Layout, codec: Codec, id: string, k: string, formats: seq<string>, xs: seq<string>): Sink
  {
    Sink(DiskAfter(s.disk, layout, KeyCalls(k, formats, xs, codec)), s.trace + KeyTrace(id, k, formats, xs, codec))
  }

  /** With a key that sanitises and every token accepted, the draw loop of one id runs to the end. */
  lemma DrawLoopAccepted(s: Sink, layout: Layout, codec: Codec, id: string, key: string, k: string, formats: seq<string>,
                         sampler: Sampler, oracle: Oracle, t: nat, n: nat)
    requires SanitizeKey(key) == Some(k) && AllAccepted(layout, codec, formats)
    ensures DrawLoop(s, layout, codec, id, key, formats, sampler, oracle, t, n) ==
            (AfterKey(s, layout, codec, id, k, formats, Draws(sampler, oracle, t, n)), true, t + n)
  {
    DrawLoopFinishes(s, layout, codec, id, key, formats, sampler, oracle, t, n);
    DrawLoopDisk(s, layout, codec, id, key, k, formats, sampler, oracle, t, n);
    DrawLoopTrace(s, layout, codec, id, key, k, formats, sampler, oracle, t, n);
  }

  /** The sink after the draw loops of `ids` all ran to the end, `n` draws each. */
  function AfterIds(s: Sink, layout: Layout, codec: Codec, k: string, formats: seq<string>, ids: seq<string>,
                    samplers: map<string, Sampler>, oracle: Oracle, t: nat, n: nat): Sink
    requires forall id :: id in ids ==> id in samplers
    decreases |ids|
  {
    if ids == [] then s
    else
      var s1 := AfterKey(s, layout, codec, ids[0], k, formats, Draws(samplers[ids[0]], oracle, t, n));
      AfterIds(s1, layout, codec, k, formats, ids[1..], samplers, oracle, t + n, n)
  }

  /** The `out` the loop over ids returns when every draw loop runs to the end. */
  function IdsOut(ids: seq<string>, samplers: map<string, Sampler>, oracle: Oracle, t: nat, n: nat,
                  out: map<string, seq<string>>): map<string, seq<string>>
    requires forall id :: id in ids ==> id in samplers
    decreases |ids|
  {
    if ids == [] then out
    else IdsOut(ids[1..], samplers, oracle, t + n, n, out[ids[0] := Draws(samplers[ids[0]], oracle, t, n)])
  }

  /** One id of the loop over ids when its draw loop runs to the end. */
  lemma IdsRunStep(s: Sink, layout: Layout, codec: Codec, key: string, formats: seq<string>, ids: seq<string>,
                   samplers: map<string, Sampler>, oracle: Oracle, t: nat, n: nat, out: map<string, seq<string>>)
    requires SanitizeKey(key).Some? && AllAccepted(layout, codec, formats)
    requires forall id :: id in ids ==> id in samplers
    requires ids != []
    ensures forall id :: id in ids[1..] ==> id in samplers
    ensures var xs := Draws(samplers[ids[0]], oracle, t, n);
            IdsRun(s, layout, codec, key, formats, ids, samplers, oracle, t, n, out) ==
            IdsRun(AfterKey(s, layout, codec, ids[0], SanitizeKey(key).value, formats, xs), layout, codec, key, formats,
                   ids[1..], samplers, oracle, t + n, n, out[ids[0] := xs])
  {
    if n == 0 {
      IdsRunStepNoDraws(s, layout, codec, key, formats, ids, samplers, oracle, t, out);
    } else {
      IdsRunStepDraws(s, layout, codec, key, formats, ids, samplers, oracle, t, n, out);
    }
  }

  lemma IdsRunStepNoDraws(s: Sink, layout: Layout, codec: Codec, key: string, formats: seq<string>, ids: seq<string>,
                          samplers: map<string, Sampler>, oracle: Oracle, t: nat, out: map<string, seq<string>>)
    requires SanitizeKey(key).Some?
    requires ids != [] && ids[0] in samplers
    ensures var xs := Draws(samplers[ids[0]], oracle, t, 0);
            IdsRun(s, layout, codec, key, formats, ids, samplers, oracle, t, 0, out) ==
            IdsRun(AfterKey(s, layout, codec, ids[0], SanitizeKey(key).value, formats, xs), layout, codec, key, formats,
                   ids[1..], samplers, oracle, t, 0, out[ids[0] := xs])
  {
    var xs := Draws(samplers[ids[0]], oracle, t, 0);
    assert AfterKey(s, layout, codec, ids[0], SanitizeKey(key).value, formats, xs) == s by {
      assert s.trace + [] == s.trace;
    }
  }

  lemma IdsRunStepDraws(s: Sink, layout: Layout, codec: Codec, key: string, formats: seq<string>, ids: seq<string>,
                        samplers: map<string, Sampler>, oracle: Oracle, t: nat, n: nat, out: map<string, seq<string>>)
    requires SanitizeKey(key).Some? && AllAccepted(layout, codec, formats)
    requires ids != [] && ids[0] in samplers && n > 0
    ensures var xs := Draws(samplers[ids[0]], oracle, t, n);
            IdsRun(s, layout, codec, key, formats, ids, samplers, oracle, t, n, out) ==
            IdsRun(AfterKey(s, layout, codec, ids[0], SanitizeKey(key).value, formats, xs), layout, codec, key, formats,
                   ids[1..], samplers, oracle, t + n, n, out[ids[0] := xs])
  {
    DrawLoopAccepted(s, layout, codec, ids[0], key, SanitizeKey(key).value, formats, samplers[ids[0]], oracle, t, n);
  }

  /** With a key that sanitises, every token accepted and a sampler for every id, the loop over ids
      runs every draw loop to the end: it makes `n` draws per id and returns `out` filled in. */
  lemma {:induction false} IdsRunAccepted(s: Sink, layout: Layout, codec: Codec, key: string, formats: seq<string>, ids: seq<string>,
                                          samplers: map<string, Sampler>, oracle: Oracle, t: nat, n: nat,
                                          out: map<string, seq<string>>)
    requires SanitizeKey(key).Some? && AllAccepted(layout, codec, formats)
    requires forall id :: id in ids ==> id in samplers
    ensures IdsRun(s, layout, codec, key, formats, ids, samplers, oracle, t, n, out) ==
            (AfterIds(s, layout, codec, SanitizeKey(key).value, formats, ids, samplers, oracle, t, n),
             Ok(IdsOut(ids, samplers, oracle, t, n, out)), t + |ids| * n)
    decreases |ids|
  {
    if ids != [] {
      var xs := Draws(samplers[ids[0]], oracle, t, n);
      var sm := AfterKey(s, layout, codec, ids[0], SanitizeKey(key).value, formats, xs);
      IdsRunAccepted(sm, layout, codec, key, formats, ids[1..], samplers, oracle, t + n, n, out[ids[0] := xs]);
      IdsRunAcceptedCons(s, layout, codec, key, formats, ids, samplers, oracle, t, n, out);
    }
  }

  /** The inductive step of `IdsRunAccepted`. */
  lemma IdsRunAcceptedCons(s: Sink, layout: Layout, codec: Codec, key: string, formats: seq<string>, ids: seq<string>,
                           samplers: map<string, Sampler>, oracle: Oracle, t: nat, n: nat,
                           out: map<string, seq<string>>)
    requires SanitizeKey(key).Some? && AllAccepted(layout, codec, formats)
    requires forall id :: id in ids ==> id in samplers
    requires ids != []
    requires var xs := Draws(samplers[ids[0]], oracle, t, n);
             var sm := AfterKey(s, layout, codec, ids[0], SanitizeKey(key).value, formats, xs);
             IdsRun(sm, layout, codec, key, formats, ids[1..], samplers, oracle, t + n, n, out[ids[0] := xs]) ==
             (AfterIds(sm, layout, codec, SanitizeKey(key).value, formats, ids[1..], samplers, oracle, t + n, n),
              Ok(IdsOut(ids[1..], samplers, oracle, t + n, n, out[ids[0] := xs])), t + n + |ids[1..]| * n)
    ensures IdsRun(s, layout, codec, key, formats, ids, samplers, oracle, t, n, out) ==
            (AfterIds(s, layout, codec, SanitizeKey(key).value, formats, ids, samplers, oracle, t, n),
             Ok(IdsOut(ids, samplers, oracle, t, n, out)), t + |ids| * n)
  {
    IdsRunStep(s, layout, codec, key, formats, ids, samplers, oracle, t, n, out);
    MulSucc(|ids| - 1, n);
  }

  /** A trace that extends `x + y` extends `x` by `y` and what follows. */
  lemma PrefixSplit<T>(x: seq<T>, y: seq<T>, z: seq<T>)
    requires x + y <= z
    ensures x <= z && z[|x|..] == y + z[|x + y|..]
  {
    assert z[|x|..] == z[|x|..|x + y|] + z[|x + y|..];
    assert z[|x|..|x + y|] == y;
  }

  /** ... and calls back once per draw, in id order, with the sample just drawn. */
  lemma {:induction false} AfterIdsDraws(s: Sink, layout: Layout, codec: Codec, k: string, formats: seq<string>, ids: seq<string>,
                                         samplers: map<string, Sampler>, oracle: Oracle, t: nat, n: nat)
    requires forall id :: id in ids ==> id in samplers
    ensures var s1 := AfterIds(s, layout, codec, k, formats, ids, samplers, oracle, t, n);
            s.trace <= s1.trace && DrawsOf(s1.trace[|s.trace|..]) == IdDraws(ids, samplers, oracle, t, n)
    decreases |ids|
  {
    var s1 := AfterIds(s, layout, codec, k, formats, ids, samplers, oracle, t, n);
    if ids == [] {
      assert s.trace[|s.trace|..] == [];
    } else {
      var id := ids[0];
      var xs := Draws(samplers[id], oracle, t, n);
      var a := KeyTrace(id, k, formats, xs, codec);
      var sm := AfterKey(s, layout, codec, id, k, formats, xs);
      assert s1 == AfterIds(sm, layout, codec, k, formats, ids[1..], samplers, oracle, t + n, n);
      AfterIdsDraws(sm, layout, codec, k, formats, ids[1..], samplers, oracle, t + n, n);
      PrefixSplit(s.trace, a, s1.trace);
      DrawsAppend(a, s1.trace[|sm.trace|..]);
      KeyTraceDraws(id, k, formats, xs, codec);
    }
  }

  /** The returned `out` holds, for each of distinct ids, exactly the samples drawn for it ... */
  lemma {:induction false} IdsOutFills(ids: seq<string>, samplers: map<string, Sampler>, oracle: Oracle, t: nat, n: nat,
                                       out: map<string, seq<string>>)
    requires forall id :: id in ids ==> id in samplers
    requires forall i, j :: 0 <= i < j < |ids| ==> ids[i] != ids[j]
    ensures var r := IdsOut(ids, samplers, oracle, t, n, out);
            forall i :: 0 <= i < |ids| ==> ids[i] in r && r[ids[i]] == Draws(samplers[ids[i]], oracle, Offset(t, i, n), n)
    decreases |ids|
  {
    if ids != [] {
      var r := IdsOut(ids, samplers, oracle, t, n, out);
      var id := ids[0];
      var out1 := out[id := Draws(samplers[id], oracle, t, n)];
      IdsOutFills(ids[1..], samplers, oracle, t + n, n, out1);
      IdsOutKeeps(ids[1..], samplers, oracle, t + n, n, out1);
      forall i | 0 <= i < |ids| ensures ids[i] in r && r[ids[i]] == Draws(samplers[ids[i]], oracle, Offset(t, i, n), n) {
        if i > 0 {
          var j := i - 1;
          assert ids[i] == ids[1..][j];
          assert r[ids[1..][j]] == Draws(samplers[ids[1..][j]], oracle, Offset(t + n, j, n), n);
          assert Offset(t + n, j, n) == Offset(t, i, n) by {
            MulSucc(j, n);
          }
        } else {
          assert id !in ids[1..];
          assert Offset(t, i, n) == t;
        }
      }
    }
  }

  /** ... and every entry of the given `out` for a key that is not an id. */
  lemma {:induction false} IdsOutKeeps(ids: seq<string>, samplers: map<string, Sampler>, oracle: Oracle, t: nat, n: nat,
                                       out: map<string, seq<string>>)
    requires forall id :: id in ids ==> id in samplers
    ensures var r := IdsOut(ids, samplers, oracle, t, n, out);
            forall k :: k !in ids ==> (k in r <==> k in out) && (k in out ==> r[k] == out[k])
    decreases |ids|
  {
    if ids != [] {
      var r := IdsOut(ids, samplers, oracle, t, n, out);
      var id := ids[0];
      IdsOutKeeps(ids[1..], samplers, oracle, t + n, n, out[id := Draws(samplers[id], oracle, t, n)]);
      forall k | k !in ids ensures (k in r <==> k in out) && (k in out ==> r[k] == out[k]) {
        assert k !in ids[1..] && k != id;
      }
    }
  }

  // ------------------------------------------------------------------ generatePatternsWithFormat

  /** The value a key's promise settles to: the `out` of its draw loop, or its failure. */
  function Settled(r: Result<map<string, seq<string>>>): Result<Option<map<string, seq<string>>>> {
    match r
    case Ok(out) => Ok(Some(out))
    case Err(e) => Err(e)
  }

  /** The single-pattern source `[ targetPatterns[key] ]` each key's generator is built from: its one
      id is the array index `"0"`. */
  function OneSource(table: Table, key: string): Table {
    Table(["0"], map["0" := Lookup(table, key)])
  }

  /** The loop over the selected keys. Each key builds a generator (a pattern that does not compile
      rejects the whole call) and runs its draw loop; a key whose callback throws only rejects its own
      draw loop, the next key still runs, and the call settles as the last key's draw loop did. */
  function KeysRun(s: Sink, layout: Layout, codec: Codec, table: Table, keys: seq<string>, formats: seq<string>,
                   count: Option<int>, oracle: Oracle, t: nat,
                   last: Result<Option<map<string, seq<string>>>>): (Sink, Result<Option<map<string, seq<string>>>>, nat)
    decreases |keys|
  {
    if keys == [] then (s, last, t)
    else
      var one := OneSource(table, keys[0]);
      var c := Compile(one, one.keys, oracle, t, map[]);
      if c.failure.Some? then (s, Err(c.failure.value), c.tick)
      else
        var (s1, r, t1) := RegexRun(s, layout, codec, keys[0], formats, Some(one.keys), c.samplers, oracle, c.tick, NumSamples(count));
        KeysRun(s1, layout, codec, table, keys[1..], formats, count, oracle, t1, Settled(r))
  }

  /** One key of `KeysRun` whose pattern compiles: its draw loop runs and the next key follows. */
  lemma KeysRunStep(s: Sink, layout: Layout, codec: Codec, table: Table, keys: seq<string>, formats: seq<string>,
                    count: Option<int>, oracle: Oracle, t: nat, last: Result<Option<map<string, seq<string>>>>,
                    c: Compiled, s1: Sink, r1: Result<map<string, seq<string>>>, t1: nat)
    requires keys != []
    requires c == Compile(OneSource(table, keys[0]), ["0"], oracle, t, map[]) && c.failure.None?
    requires (s1, r1, t1) == RegexRun(s, layout, codec, keys[0], formats, Some(["0"]), c.samplers, oracle, c.tick, NumSamples(count))
    ensures KeysRun(s, layout, codec, table, keys, formats, count, oracle, t, last) ==
            KeysRun(s1, layout, codec, table, keys[1..], formats, count, oracle, t1, Settled(r1))
  {
  }

  /** One key of `KeysRun` whose pattern does not compile: the call rejects with the compile error. */
  lemma KeysRunStop(s: Sink, layout: Layout, codec: Codec, table: Table, keys: seq<string>, formats: seq<string>,
                    count: Option<int>, oracle: Oracle, t: nat, last: Result<Option<map<string, seq<string>>>>,
                    c: Compiled)
    requires keys != []
    requires c == Compile(OneSource(table, keys[0]), ["0"], oracle, t, map[]) && c.failure.Some?
    ensures KeysRun(s, layout, codec, table, keys, formats, count, oracle, t, last) == (s, Err(c.failure.value), c.tick)
  {
  }

  /** `generatePatternsWithFormat(targetPatterns, count, format, callback, selector)`: the sink after,
      the value the promise settles to, and the random state after. */
  function Gpwf(s: Sink, layout: Layout, codec: Codec, targets: Table, count: Option<int>, format: FormatArg,
                selector: Option<string>, oracle: Oracle, t: nat): (Sink, Result<Option<map<string, seq<string>>>>, nat)
  {
    var selection := Selection(targets, selector);
    match FormatTokens(format)
    case Err(e) => (s, Err(e), t)
    case Ok(formats) => KeysRun(s, layout, codec, selection, selection.keys, formats, count, oracle, t, Ok(None))
  }

  /** A string format runs exactly as the one-element array holding it: same files, same record of
      callback calls, same result, same random state. */
  lemma StringFormatIsSingleton(s: Sink, layout: Layout, codec: Codec, targets: Table, count: Option<int>,
                                token: string, selector: Option<string>, oracle: Oracle, t: nat)
    ensures Gpwf(s, layout, codec, targets, count, FormatString(token), selector, oracle, t) ==
            Gpwf(s, layout, codec, targets, count, FormatList([token]), selector, oracle, t)
  {
  }

  /** Any other format value throws `invalid format specified` before a generator is built, whatever
      the patterns (even ones that do not compile): no file is written, no callback is called and no
      random number is drawn. */
  lemma OtherFormatThrows(s: Sink, layout: Layout, codec: Codec, targets: Table, count: Option<int>,
                          truthy: bool, selector: Option<string>, oracle: Oracle, t: nat)
    ensures Gpwf(s, layout, codec, targets, count, FormatOther(truthy), selector, oracle, t) ==
            (s, Err(InvalidFormat), t)
  {
  }

  /** A run rejects with `invalid format specified` exactly when the format value is neither an array
      nor a string: no pattern, sampler or callback raises that error. */
  lemma InvalidFormatIff(s: Sink, layout: Layout, codec: Codec, targets: Table, count: Option<int>,
                         format: FormatArg, selector: Option<string>, oracle: Oracle, t: nat)
    ensures Gpwf(s, layout, codec, targets, count, format, selector, oracle, t).1 == Err(InvalidFormat)
            <==> format.FormatOther?
  {
    var selection := Selection(targets, selector);
    if !format.FormatOther? {
      KeysRunNotInvalidFormat(s, layout, codec, selection, selection.keys, FormatTokens(format).value,
                              count, oracle, t, Ok(None));
    }
  }

  lemma {:induction false} KeysRunNotInvalidFormat(s: Sink, layout: Layout, codec: Codec, table: Table,
                                                   keys: seq<string>, formats: seq<string>, count: Option<int>,
                                                   oracle: Oracle, t: nat,
                                                   last: Result<Option<map<string, seq<string>>>>)
    requires last != Err(InvalidFormat)
    ensures KeysRun(s, layout, codec, table, keys, formats, count, oracle, t, last).1 != Err(InvalidFormat)
    decreases |keys|
  {
    if keys != [] {
      var one := OneSource(table, keys[0]);
      var c := Compile(one, one.keys, oracle, t, map[]);
      if c.failure.None? {
        var (s1, r, t1) := RegexRun(s, layout, codec, keys[0], formats, Some(one.keys), c.samplers, oracle, c.tick, NumSamples(count));
        IdsRunNotInvalidFormat(s, layout, codec, keys[0], formats, one.keys, c.samplers, oracle, c.tick, NumSamples(count), map[]);
        KeysRunNotInvalidFormat(s1, layout, codec, table, keys[1..], formats, count, oracle, t1, Settled(r));
      } else {
        CompileNeverInvalidFormat(one, one.keys, oracle, t, map[]);
      }
    }
  }

  lemma {:induction false} CompileNeverInvalidFormat(t: Table, ids: seq<string>, oracle: Oracle, tick: nat,
                                                     acc: map<string, Sampler>)
    ensures Compile(t, ids, oracle, tick, acc).failure != Some(InvalidFormat)
    decreases |ids|
  {
    if ids != [] {
      var src := Lookup(t, ids[0]);
      if !(src.None? || !oracle.compiles(src.value)) {
        var bound := RepetitionBound(oracle.uniform(tick), MinRepetition, MaxRepetition);
        CompileNeverInvalidFormat(t, ids[1..], oracle, tick + 1, acc[ids[0] := Sampler(src.value, bound)]);
      }
    }
  }

  lemma {:induction false} IdsRunNotInvalidFormat(s: Sink, layout: Layout, codec: Codec, key: string,
                                                  formats: seq<string>, ids: seq<string>,
                                                  samplers: map<string, Sampler>, oracle: Oracle, t: nat, n: nat,
                                                  out: map<string, seq<string>>)
    ensures IdsRun(s, layout, codec, key, formats, ids, samplers, oracle, t, n, out).1 != Err(InvalidFormat)
    decreases |ids|
  {
    if ids != [] {
      if n == 0 {
        IdsRunNotInvalidFormat(s, layout, codec, key, formats, ids[1..], samplers, oracle, t, n, out[ids[0] := []]);
      } else if ids[0] in samplers {
        var sampler := samplers[ids[0]];
        var (s1, ok, t1) := DrawLoop(s, layout, codec, ids[0], key, formats, sampler, oracle, t, n);
        if ok {
          IdsRunNotInvalidFormat(s1, layout, codec, key, formats, ids[1..], samplers, oracle, t1, n,
                                 out[ids[0] := Draws(sampler, oracle, t, n)]);
        }
      }
    }
  }

  // ------------------------------------------------------------------ the record explains the files

  lemma {:induction false} IdsRunExtends(s: Sink, layout: Layout, codec: Codec, key: string, formats: seq<string>,
                                         ids: seq<string>, samplers: map<string, Sampler>, oracle: Oracle, t: nat,
                                         n: nat, out: map<string, seq<string>>)
    ensures Extends(s, IdsRun(s, layout, codec, key, formats, ids, samplers, oracle, t, n, out).0, layout)
    decreases |ids|
  {
    if ids == [] || (n > 0 && ids[0] !in samplers) {
      ExtendsRefl(s, layout);
    } else if n == 0 {
      IdsRunExtends(s, layout, codec, key, formats, ids[1..], samplers, oracle, t, n, out[ids[0] := []]);
    } else {
      var sampler := samplers[ids[0]];
      var (s1, ok, t1) := DrawLoop(s, layout, codec, ids[0], key, formats, sampler, oracle, t, n);
      DrawLoopExtends(s, layout, codec, ids[0], key, formats, sampler, oracle, t, n);
      if ok {
        var out1 := out[ids[0] := Draws(sampler, oracle, t, n)];
        IdsRunExtends(s1, layout, codec, key, formats, ids[1..], samplers, oracle, t1, n, out1);
        ExtendsTrans(s, s1, IdsRun(s1, layout, codec, key, formats, ids[1..], samplers, oracle, t1, n, out1).0, layout);
      }
    }
  }

  lemma {:induction false} KeysRunExtends(s: Sink, layout: Layout, codec: Codec, table: Table, keys: seq<string>,
                                          formats: seq<string>, count: Option<int>, oracle: Oracle, t: nat,
                                          last: Result<Option<map<string, seq<string>>>>)
    ensures Extends(s, KeysRun(s, layout, codec, table, keys, formats, count, oracle, t, last).0, layout)
    decreases |keys|
  {
    if keys == [] {
      ExtendsRefl(s, layout);
    } else {
      var one := OneSource(table, keys[0]);
      var c := Compile(one, one.keys, oracle, t, map[]);
      if c.failure.Some? {
        ExtendsRefl(s, layout);
      } else {
        var (s1, r, t1) := RegexRun(s, layout, codec, keys[0], formats, Some(one.keys), c.samplers, oracle, c.tick, NumSamples(count));
        IdsRunExtends(s, layout, codec, keys[0], formats, one.keys, c.samplers, oracle, c.tick, NumSamples(count), map[]);
        KeysRunExtends(s1, layout, codec, table, keys[1..], formats, count, oracle, t1, Settled(r));
        ExtendsTrans(s, s1, KeysRun(s1, layout, codec, table, keys[1..], formats, count, oracle, t1, Settled(r)).0, layout);
      }
    }
  }

  /** `generatePatternsWithFormat` only appends to the record of callback calls, and the files are
      exactly what the layout callback made of the fragments it accepted, in order. */
  lemma GpwfExtends(s: Sink, layout: Layout, codec: Codec, targets: Table, count: Option<int>, format: FormatArg,
                    selector: Option<string>, oracle: Oracle, t: nat)
    ensures Extends(s, Gpwf(s, layout, codec, targets, count, format, selector, oracle, t).0, layout)
  {
    var selection := Selection(targets, selector);
    if FormatTokens(format).Err? {
      ExtendsRefl(s, layout);
    } else {
      KeysRunExtends(s, layout, codec, selection, selection.keys, FormatTokens(format).value, count, oracle, t, Ok(None));
    }
  }

  // ------------------------------------------------------------------ objects

  /** The callback chain of one call: the layout callback (`callback(data, format)`) with the state it
      closes over — the host's files, the per-file counter `i` — and, as a ghost, the record of
      callback calls. */
  class Writer {
    const host: Host
    const layout: Layout
    const codec: Codec
    var counter: nat
    ghost var trace: seq<Event>

    constructor (host: Host, layout: Layout)
      ensures this.host == host && this.layout == layout && counter == 0 && trace == []
      ensures codec == SampleCodec(host.oracle.yaml)
    {
      this.host := host;
      this.layout := layout;
      codec := SampleCodec(host.oracle.yaml);
      counter := 0;
      trace := [];
    }

    ghost function Snapshot(): Sink
      reads this`counter, this`trace, host`files, host`open
    {
      Sink(Disk(host.files, host.open, counter), trace)
    }

    /** The layout callback for one fragment. */
    method Emit(c: Call) returns (ok: bool)
      modifies host`files, host`open, this`counter, this`trace
      ensures (Snapshot(), ok) == Deliver(old(Snapshot()), layout, c)
    {
      match layout
      case Record =>
        trace := trace + [Emitted(c)];
        ok := true;
      case PerFile(base) =>
        var p := FileName(base, counter, c.format);
        counter := counter + 1;
        host.CreateWriteStream(p);
        assert Get(host.files, p) == [];
        host.Write(p, c.data + "\n");
        assert Get(old(host.files)[p := []], p) + [c.data + "\n"] == [c.data + "\n"];
        host.End(p);
        assert host.files == old(host.files)[p := [c.data + "\n"]];
        assert host.open == old(host.open) - {p};
        trace := trace + [Emitted(c)];
        ok := true;
      case Aggregated(streams) =>
        if c.format in streams {
          host.Write(streams[c.format], c.data + "\n");
          trace := trace + [Emitted(c)];
          ok := true;
        } else {
          ok := false;
        }
    }

    /** The sample callback of `generatePatternsWithFormat` for the key `key`: for each format in
        order, sanitise the key, serialise the sample and hand the fragment on. */
    method OnSample(key: string, formats: seq<string>, pattern: string, sample: string) returns (ok: bool)
      modifies host`files, host`open, this`counter, this`trace
      ensures (Snapshot(), ok) ==
              OnFormats(old(Snapshot()).(trace := old(trace) + [Drawn(pattern, sample)]), layout, key, formats, sample, codec)
    {
      trace := trace + [Drawn(pattern, sample)];
      ghost var goal := OnFormats(Snapshot(), layout, key, formats, sample, codec);
      assert formats[0..] == formats;
      var i := 0;
      while i < |formats|
        invariant 0 <= i <= |formats|
        invariant OnFormats(Snapshot(), layout, key, formats[i..], sample, codec) == goal
      {
        ghost var before := Snapshot();
        var k := SanitizeKey(key);
        if k.None? {
          assert goal == (before, false) by {
            OnFormatsStep(before, layout, key, formats[i..], sample, codec);
          }
          return false;
        }
        var c := Call(codec.data(formats[i], k.value, sample), codec.token(formats[i]));
        var delivered := Emit(c);
        assert goal == (if delivered then OnFormats(Snapshot(), layout, key, formats[i + 1..], sample, codec)
                        else (Snapshot(), false)) by {
          OnFormatsStep(before, layout, key, formats[i..], sample, codec);
          assert formats[i..][1..] == formats[i + 1..];
          assert formats[i..][0] == formats[i];
        }
        if !delivered {
          return false;
        }
        i := i + 1;
      }
      assert formats[i..] == [];
      return true;
    }
  }

  /** A `RegexDataGenerator` instance: `#patterns`, `#patternIDs` and `#xegerPatterns`. */
  class RegexDataGenerator {
    var patterns: Option<Table>
    var ids: Option<seq<string>>
    var samplers: map<string, Sampler>

    /** The field initialisers; the constructor's call of the setter is `SetDataSource`. */
    constructor ()
      ensures patterns == Some(Table([], map[])) && ids == Some([]) && samplers == map[]
    {
      patterns := Some(Table([], map[]));
      ids := Some([]);
      samplers := map[];
    }

    /** `set dataSource(src)`: a falsy source clears the table and the ids; otherwise the table and its
        keys are stored and one sampler is built per key. */
    method SetDataSource(src: Option<Table>, host: Host) returns (r: Result<()>)
      modifies this, host`tick
      ensures src.None? ==> patterns.None? && ids.None? && samplers == old(samplers) &&
                            host.tick == old(host.tick) && r == Ok(())
      ensures src.Some? ==> patterns == src && ids == Some(src.value.keys)
      ensures src.Some? ==>
        (var c := Compile(src.value, src.value.keys, host.oracle, old(host.tick), old(samplers));
         samplers == c.samplers && host.tick == c.tick &&
         r == (if c.failure.Some? then Err(c.failure.value) else Ok(())))
    {
      if src.None? {
        patterns := None;
        ids := None;
        return Ok(());
      }
      var t := src.value;
      patterns := src;
      ids := Some(t.keys);
      ghost var goal := Compile(t, t.keys, host.oracle, host.tick, samplers);
      var i := 0;
      while i < |t.keys|
        invariant 0 <= i <= |t.keys|
        invariant patterns == src && ids == Some(t.keys)
        invariant Compile(t, t.keys[i..], host.oracle, host.tick, samplers) == goal
      {
        var id := t.keys[i];
        assert t.keys[i..][1..] == t.keys[i + 1..];
        var source := Lookup(t, id);
        if source.None? || !host.oracle.compiles(source.value) {
          return Err(CompileError(source));
        }
        var rnd := host.Random();
        var bound := RepetitionBound(rnd, MinRepetition, MaxRepetition);
        samplers := samplers[id := Sampler(source.value, bound)];
        i := i + 1;
      }
      return Ok(());
    }

    /** `generateFromRegex(count, callback)` with the sample callback of key `key`. */
    method GenerateFromRegex(host: Host, count: Option<int>, writer: Writer, key: string, formats: seq<string>)
      returns (r: Result<map<string, seq<string>>>)
      requires writer.host == host
      modifies host`files, host`open, host`tick, writer`counter, writer`trace
      ensures (writer.Snapshot(), r, host.tick) ==
              RegexRun(old(writer.Snapshot()), writer.layout, writer.codec, key, formats, ids, samplers, host.oracle, old(host.tick), NumSamples(count))
    {
      var n := NumSamples(count);
      if ids.None? {
        return Err(TypeError("patternIDs"));
      }
      var ids := this.ids.value;
      ghost var layout, codec, oracle := writer.layout, writer.codec, host.oracle;
      ghost var goal := IdsRun(writer.Snapshot(), layout, codec, key, formats, ids, samplers, oracle, host.tick, n, map[]);
      var out: map<string, seq<string>> := map[];
      assert ids[0..] == ids;
      var i := 0;
      while i < |ids|
        invariant 0 <= i <= |ids|
        invariant IdsRun(writer.Snapshot(), layout, codec, key, formats, ids[i..], samplers, oracle, host.tick, n, out) == goal
      {
        var id := ids[i];
        ghost var si, ti, outi := writer.Snapshot(), host.tick, out;
        assert ids[i..][0] == id && ids[i..][1..] == ids[i + 1..];
        out := out[id := []];
        if n == 0 {
          assert goal == IdsRun(si, layout, codec, key, formats, ids[i + 1..], samplers, oracle, ti, n, out);
        } else {
          if id !in samplers {
            assert goal == (si, Err(TypeError("xegerPatterns[id].gen")), ti);
            return Err(TypeError("xegerPatterns[id].gen"));
          }
          var sampler := samplers[id];
          var drawn, ok := DrawSamples(host, writer, key, formats, id, sampler, n);
          if !ok {
            assert goal == (writer.Snapshot(), Err(TypeError("sample callback")), host.tick);
            return Err(TypeError("sample callback"));
          }
          out := out[id := drawn];
          assert out == outi[id := Draws(sampler, oracle, ti, n)];
        }
        i := i + 1;
      }
      assert ids[i..] == [];
      return Ok(out);
    }
  }

  /** One draw of the inner loop, stated against the loop's final result `goal`; `t1` and `n1` are
      the random state and the number of draws left after it. */
  lemma DrawLoopTowards(s: Sink, layout: Layout, codec: Codec, id: string, key: string, formats: seq<string>,
                        sampler: Sampler, oracle: Oracle, t: nat, n: nat, s1: Sink, ok: bool,
                        goal: (Sink, bool, nat), t1: nat, n1: nat)
    requires n > 0 && DrawLoop(s, layout, codec, id, key, formats, sampler, oracle, t, n) == goal
    requires (s1, ok) == OnFormats(s.(trace := s.trace + [Drawn(id, oracle.gen(sampler, t))]), layout, key, formats,
                                   oracle.gen(sampler, t), codec)
    requires t1 == t + 1 && n1 == n - 1
    ensures ok ==> DrawLoop(s1, layout, codec, id, key, formats, sampler, oracle, t1, n1) == goal
    ensures !ok ==> goal == (s1, false, t1)
  {
    DrawLoopStep(s, layout, codec, id, key, formats, sampler, oracle, t, n, s1, ok);
  }

  /** One turn of the inner loop: draw a sample and hand it to the sample callback. */
  method DrawOne(host: Host, writer: Writer, key: string, formats: seq<string>, id: string, sampler: Sampler)
    returns (sample: string, ok: bool)
    requires writer.host == host
    modifies host`files, host`open, host`tick, writer`counter, writer`trace
    ensures sample == host.oracle.gen(sampler, old(host.tick)) && host.tick == old(host.tick) + 1
    ensures (writer.Snapshot(), ok) ==
            OnFormats(old(writer.Snapshot()).(trace := old(writer.Snapshot()).trace + [Drawn(id, sample)]),
                      writer.layout, key, formats, sample, writer.codec)
  {
    sample := host.Gen(sampler);
    ok := writer.OnSample(key, formats, id, sample);
  }

  /** The inner loop of `generateFromRegex` for the pattern id `id`: `n` draws, each pushed onto
      `out[id]` and handed to the sample callback; stops at the first callback that throws. */
  method DrawSamples(host: Host, writer: Writer, key: string, formats: seq<string>, id: string,
                     sampler: Sampler, n: nat) returns (drawn: seq<string>, ok: bool)
    requires writer.host == host
    modifies host`files, host`open, host`tick, writer`counter, writer`trace
    ensures (writer.Snapshot(), ok, host.tick) ==
            DrawLoop(old(writer.Snapshot()), writer.layout, writer.codec, id, key, formats, sampler, host.oracle, old(host.tick), n)
    ensures ok ==> drawn == Draws(sampler, host.oracle, old(host.tick), n)
  {
    ghost var layout, codec, oracle := writer.layout, writer.codec, host.oracle;
    ghost var t0 := host.tick;
    ghost var goal := DrawLoop(writer.Snapshot(), layout, codec, id, key, formats, sampler, oracle, t0, n);
    ghost var cur, rest := writer.Snapshot(), n;
    drawn := [];
    var j := 0;
    while j < n
      invariant 0 <= j <= n && rest == n - j && host.tick == t0 + j
      invariant drawn == Draws(sampler, oracle, t0, j)
      invariant cur == writer.Snapshot()
      invariant DrawLoop(cur, layout, codec, id, key, formats, sampler, oracle, host.tick, rest) == goal
    {
      ghost var tj := host.tick;
      var sample;
      sample, ok := DrawOne(host, writer, key, formats, id, sampler);
      assert drawn + [sample] == Draws(sampler, oracle, t0, j + 1) by {
        DrawsSnoc(sampler, oracle, t0, j);
      }
      drawn := drawn + [sample];
      ghost var s1 := writer.Snapshot();
      DrawLoopTowards(cur, layout, codec, id, key, formats, sampler, oracle, tj, rest, s1, ok, goal, host.tick, rest - 1);
      if !ok {
        return;
      }
      cur, rest := s1, rest - 1;
      j := j + 1;
    }
    ok := true;
  }

  /** `RegexDataGenerator.generatePatternsWithFormat(targetPatterns, count, format, callback, selector)`,
      with `writer` as the callback. */
  method GeneratePatternsWithFormat(host: Host, targets: Table, count: Option<int>, format: FormatArg,
                                    writer: Writer, selector: Option<string>)
    returns (r: Result<Option<map<string, seq<string>>>>)
    requires writer.host == host
    modifies host`files, host`open, host`tick, writer`counter, writer`trace
    ensures (writer.Snapshot(), r, host.tick) ==
            Gpwf(old(writer.Snapshot()), writer.layout, writer.codec, targets, count, format, selector, host.oracle, old(host.tick))
  {
    ghost var layout, codec, oracle := writer.layout, writer.codec, host.oracle;
    var selection := Selection(targets, selector);
    var tokens := FormatTokens(format);
    if tokens.Err? {
      return Err(tokens.error);
    }
    var formats := tokens.value;
    var keys := selection.keys;
    ghost var goal := KeysRun(writer.Snapshot(), layout, codec, selection, keys, formats, count, oracle, host.tick, Ok(None));
    assert goal == Gpwf(writer.Snapshot(), layout, codec, targets, count, format, selector, oracle, host.tick);
    r := Ok(None);
    var i := 0;
    while i < |keys|
      invariant 0 <= i <= |keys|
      invariant KeysRun(writer.Snapshot(), layout, codec, selection, keys[i..], formats, count, oracle, host.tick, r) == goal
    {
      var key := keys[i];
      assert keys[i..][0] == key && keys[i..][1..] == keys[i + 1..];
      ghost var si, ti := writer.Snapshot(), host.tick;
      ghost var c := Compile(OneSource(selection, key), ["0"], oracle, ti, map[]);
      var generator := new RegexDataGenerator();
      var built := generator.SetDataSource(Some(OneSource(selection, key)), host);
      if built.Err? {
        KeysRunStop(si, layout, codec, selection, keys[i..], formats, count, oracle, ti, r, c);
        return Err(built.error);
      }
      var data := generator.GenerateFromRegex(host, count, writer, key, formats);
      KeysRunStep(si, layout, codec, selection, keys[i..], formats, count, oracle, ti, r, c,
                  writer.Snapshot(), data, host.tick);
      r := Settled(data);
      i := i + 1;
    }
    assert keys[i..] == [];
  }
}
