/** The command line of `scripts/generate.js`: `validateConfig` resolves `--help`, `--index` and
    `--selector` against the pattern keys, and `printMessage` announces each run. */
module Cli {
  import opened Outcomes
  import opened Text
  import opened Generator
  import opened Files

  /** `parseInt(config.index)`: a number, or `NaN` when the argument does not start with one. */
  datatype ParsedIndex = Index(n: int) | NotANumber

  /** The parsed command line: `--help`, `--index` (None: not given), `--silent`, and the options
      handed on to `generateAsFiles`, whose `selector` is `--selector`. */
  datatype Args = Args(help: bool, index: Option<ParsedIndex>, silent: bool, options: Options)

  /** A `console.log` line: the usage text, a message, or the array of suggestions. */
  datatype Line = Usage | Say(text: string) | DidYouMean(matches: seq<string>)

  /** Either the configuration to run with, or `process.exit(code)` after logging `log`. */
  datatype Verdict = Proceed(config: Args) | Exit(code: int, log: seq<Line>)

  // ------------------------------------------------------------------ validateConfig

  /** The message for an index outside the key list; its upper end is `keys.length - 1`. */
  function RangeMessage(count: nat): string {
    "Invalid Selector Index, out of range (0-" + IntToString(count - 1) + ")"
  }

  /** The keys that contain `s`, in key order (the `for ... of` loop's `matches`). */
  function Suggestions(keys: seq<string>, s: string): seq<string>
  {
    if keys == [] then []
    else Suggestions(keys[..|keys| - 1], s) + (if Contains(keys[|keys| - 1], s) then [keys[|keys| - 1]] else [])
  }

  /** `a` is `b` with some entries dropped, the rest in their order. */
  predicate Subsequence(a: seq<string>, b: seq<string>)
  {
    a == [] ||
    (b != [] &&
     ((a[|a| - 1] == b[|b| - 1] && Subsequence(a[..|a| - 1], b[..|b| - 1])) || Subsequence(a, b[..|b| - 1])))
  }

  /** `validateConfig()` on the parsed command line. */
  function Validate(keys: seq<string>, c: Args): Verdict
  {
    var sel := c.options.selector;
    if c.help then Exit(0, [Usage])
    else if c.index.Some? then
      match c.index.value
      case NotANumber => Proceed(c.(options := c.options.(selector := None)))
      case Index(n) =>
        if n < 0 || n >= |keys| then Exit(1, [Say(RangeMessage(|keys|))])
        else Proceed(c.(options := c.options.(selector := Some(keys[n]))))
    else if sel.Some? && Upper(sel.value) == "ALL" then Proceed(c.(options := c.options.(selector := None)))
    else if sel.Some? && sel.value !in keys then
      var matches := Suggestions(keys, sel.value);
      Exit(1, [Say("Invalid Selector: " + sel.value)] + if matches != [] then [DidYouMean(matches)] else [])
    else Proceed(c)
  }

  /** `validateConfig`, with the suggestion loop written out. */
  method ValidateConfig(keys: seq<string>, c: Args) returns (v: Verdict)
    ensures v == Validate(keys, c)
  {
    if c.help {
      return Exit(0, [Usage]);
    }
    var config := c;
    if c.index.Some? {
      match c.index.value {
        case NotANumber =>
          config := config.(options := config.options.(selector := None));
        case Index(n) =>
          if n < 0 || n >= |keys| {
            return Exit(1, [Say(RangeMessage(|keys|))]);
          }
          config := config.(options := config.options.(selector := Some(keys[n])));
      }
    } else if config.options.selector.Some? && Upper(config.options.selector.value) == "ALL" {
      config := config.(options := config.options.(selector := None));
    } else if config.options.selector.Some? && config.options.selector.value !in keys {
      var s := config.options.selector.value;
      var log := [Say("Invalid Selector: " + s)];
      var matches := [];
      var j := 0;
      while j < |keys|
        invariant 0 <= j <= |keys|
        invariant matches == Suggestions(keys[..j], s)
      {
        assert keys[..j + 1][..j] == keys[..j];
        if Contains(keys[j], s) {
          matches := matches + [keys[j]];
        }
        j := j + 1;
      }
      assert keys[..j] == keys;
      if |matches| > 0 {
        log := log + [DidYouMean(matches)];
      }
      return Exit(1, log);
    }
    v := Proceed(config);
  }

  /** A suggestion is exactly a key that contains the selector. */
  lemma {:induction false} SuggestionsExact(keys: seq<string>, s: string, k: string)
    ensures k in Suggestions(keys, s) <==> k in keys && Contains(k, s)
  {
    if keys != [] {
      var init := keys[..|keys| - 1];
      SuggestionsExact(init, s, k);
      assert keys == init + [keys[|keys| - 1]];
    }
  }

  /** Suggestions keep the order of the keys. */
  lemma {:induction false} SuggestionsInKeyOrder(keys: seq<string>, s: string)
    ensures Subsequence(Suggestions(keys, s), keys)
  {
    if keys != [] {
      var init := keys[..|keys| - 1];
      SuggestionsInKeyOrder(init, s);
      var m := Suggestions(keys, s);
      if Contains(keys[|keys| - 1], s) {
        assert m == Suggestions(init, s) + [keys[|keys| - 1]];
        assert m[..|m| - 1] == Suggestions(init, s);
        assert Subsequence(m[..|m| - 1], keys[..|keys| - 1]);
      } else {
        assert m == Suggestions(init, s);
      }
    }
  }

  /** `--help` prints the usage and exits with 0, whatever else is given. */
  lemma HelpExits(keys: seq<string>, c: Args)
    requires c.help
    ensures Validate(keys, c) == Exit(0, [Usage])
  {
  }

  /** An index inside the key list selects that key, overriding `--selector`; one outside it exits
      with 1 and names the range `0-(keys.length - 1)`. */
  lemma IndexSelects(keys: seq<string>, c: Args, n: int)
    requires !c.help && c.index == Some(Index(n))
    ensures 0 <= n < |keys| ==> Validate(keys, c) == Proceed(c.(options := c.options.(selector := Some(keys[n]))))
    ensures !(0 <= n < |keys|) <==> Validate(keys, c).Exit?
    ensures !(0 <= n < |keys|) ==>
            Validate(keys, c) == Exit(1, [Say("Invalid Selector Index, out of range (0-" + IntToString(|keys| - 1) + ")")])
  {
  }

  /** Without an index, a selector reading `ALL` in any case means every pattern. */
  lemma AllMeansEvery(keys: seq<string>, c: Args, s: string)
    requires !c.help && c.index.None? && c.options.selector == Some(s) && Upper(s) == Upper("all")
    ensures Validate(keys, c) == Proceed(c.(options := c.options.(selector := None)))
  {
  }

  /** Without an index, a known selector is kept as it is and an unknown one exits with 1, logging the
      suggestions exactly when some key contains it. */
  lemma SelectorChecked(keys: seq<string>, c: Args, s: string)
    requires !c.help && c.index.None? && c.options.selector == Some(s) && Upper(s) != "ALL"
    ensures s in keys ==> Validate(keys, c) == Proceed(c)
    ensures s !in keys ==> Validate(keys, c).Exit? && Validate(keys, c).code == 1
    ensures s !in keys ==>
            (|Validate(keys, c).log| == 2 <==> exists k :: k in keys && Contains(k, s))
  {
    if s !in keys {
      if m :| m in keys && Contains(m, s) {
        SuggestionsExact(keys, s, m);
      } else if Suggestions(keys, s) != [] {
        SuggestionsExact(keys, s, Suggestions(keys, s)[0]);
      }
    }
  }

  /** Whatever passes validation names a key or no key at all: `generateAsFiles` is never started
      with a selector outside the pattern table. */
  lemma ValidSelectorIsKey(keys: seq<string>, c: Args)
    requires Validate(keys, c).Proceed?
    ensures var sel := Validate(keys, c).config.options.selector;
            sel.None? || sel.value in keys
  {
  }

  /** Validation touches nothing but the selector. */
  lemma ValidateOnlySetsSelector(keys: seq<string>, c: Args)
    requires Validate(keys, c).Proceed?
    ensures var d := Validate(keys, c).config;
            d == c.(options := c.options.(selector := d.options.selector))
  {
  }

  // ------------------------------------------------------------------ printMessage

  /** A piece of the announcement and the colour the `colors` package gives it. */
  datatype Segment = Plain(text: string) | Yellow(text: string) | Green(text: string) | Cyan(text: string)

  /** `printMessage(options)`: nothing when silent; otherwise `Generating <count> samples of
      "<selector>" as <format>`. A format that is not a string has no `.cyan`, which reads as
      `undefined`. */
  function PrintMessage(silent: bool, o: Options): (r: Option<seq<Segment>>)
    ensures r.None? <==> silent
  {
    if silent then None
    else
      var count := IntToString(if o.count.Some? then o.count.value else SampleCount);
      var selector := "\"" + (if o.selector.None? then "All" else o.selector.value) + "\"";
      var format := match o.format
        case FormatString(t) => Cyan(if t == "" then "JSON" else t)
        case FormatOther(truthy) => if truthy then Plain("undefined") else Cyan("JSON")
        case FormatList(_) => Plain("undefined");
      Some([Plain("Generating "), Yellow(count), Plain(" samples of "), Green(selector), Plain(" as "), format])
  }

  /** The text of a message, colours aside. */
  function Render(m: seq<Segment>): string
  {
    if m == [] then "" else m[0].text + Render(m[1..])
  }

  /** The count shown, negative or not, reads back as the count asked for, or as `SampleCount` when
      none is. */
  lemma MessageShowsCount(o: Options)
    ensures var m := PrintMessage(false, o).value;
            m[1].Yellow? && IsIntText(m[1].text) &&
            ParseInt(m[1].text) == (if o.count.Some? then o.count.value else SampleCount)
  {
    ParseIntToString(if o.count.Some? then o.count.value else SampleCount);
  }

  /** The quoted selector is the one asked for, and `All` when there is none. */
  lemma MessageShowsSelector(o: Options)
    ensures var g := PrintMessage(false, o).value[3].text;
            |g| >= 2 && g[0] == '"' && g[|g| - 1] == '"' &&
            g[1..|g| - 1] == if o.selector.None? then "All" else o.selector.value
  {
  }

  /** The format shown is `JSON` exactly when the format is falsy (missing, or the empty string) or
      the string `JSON` itself; an array or another truthy non-string shows as `undefined`. */
  lemma MessageShowsFormat(o: Options)
    ensures var f := PrintMessage(false, o).value[5];
            (f.text == "JSON" <==> o.format == FormatOther(false) || o.format == FormatString("") || o.format == FormatString("JSON")) &&
            (f.text == "undefined" && f.Plain? <==> o.format.FormatList? || o.format == FormatOther(true))
  {
  }

  /** The whole line, colours aside. */
  lemma {:induction false} MessageText(o: Options, count: string, selector: string, format: string)
    requires PrintMessage(false, o).Some?
    requires var m := PrintMessage(false, o).value;
             m[1].text == count && m[3].text == selector && m[5].text == format
    ensures Render(PrintMessage(false, o).value) ==
            "Generating " + count + " samples of " + selector + " as " + format
  {
    var m := PrintMessage(false, o).value;
    calc {
      Render(m);
      m[0].text + Render(m[1..]);
      { RenderUnfold(m[1..]); }
      "Generating " + count + Render(m[2..]);
      { RenderUnfold(m[2..]); RenderUnfold(m[3..]); RenderUnfold(m[4..]); RenderUnfold(m[5..]); }
      "Generating " + count + " samples of " + selector + " as " + format;
    }
  }

  lemma RenderUnfold(m: seq<Segment>)
    requires m != []
    ensures Render(m) == m[0].text + Render(m[1..])
  {
  }

  /** `printMessage` is only called on the options `generateAsFiles` hands to its callback, and every
      one of them names a key: the `"All"` branch is never reached from the command line. */
  lemma AnnouncementsNameAKey(w: World, o: Options, patterns: Table, oracle: Runtime.Oracle)
    ensures var notices := AsFiles(w, o, patterns, oracle).2;
            forall i :: 0 <= i < |notices| ==>
              notices[i].selector.Some? && notices[i].selector.value in patterns.keys &&
              PrintMessage(false, notices[i]).value[3] == Green("\"" + notices[i].selector.value + "\"")
  {
    if o.selector.None? && o.separateFiles {
      ExpansionNotifiesEachKey(w, o, patterns, oracle);
    } else if o.selector.Some? {
      SelectedRunDoesNotExpand(w, o, patterns, oracle);
    }
  }

  /** When every pattern is written to its own directory, each announcement names its key, in key
      order. */
  lemma ExpansionAnnouncesEachKey(w: World, o: Options, patterns: Table, oracle: Runtime.Oracle, i: nat)
    requires o.selector.None? && o.separateFiles
    requires i < |patterns.keys|
    ensures var notices := AsFiles(w, o, patterns, oracle).2;
            i < |notices| && PrintMessage(false, notices[i]).value[3] == Green("\"" + patterns.keys[i] + "\"")
  {
    ExpansionNotifiesEachKey(w, o, patterns, oracle);
  }
}
