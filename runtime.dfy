/** What the generator takes from its JavaScript host: the regex library, `Math.random`, the YAML
    printer and the file system. Libraries the model does not see are an `Oracle`; the random state is a
    counter that every draw advances. */
module Runtime {

  /** A value of `Math.random()`. */
  type Unit = r: real | 0.0 <= r < 1.0

  /** A compiled pattern (a `RandExp` instance): its regex source and the repetition bound `max`
      chosen when it was built. */
  datatype Sampler = Sampler(source: string, bound: int)

  /** `compiles`: whether `new RandExp(source)` succeeds; `uniform(t)`: the value `Math.random()`
      returns when the random state is `t`; `gen(s, t)`: the string `s.gen()` draws then;
      `yaml(k, v)`: the text `yaml.stringify({ [k]: v })`. */
  datatype Oracle = Oracle(
    compiles: string -> bool,
    uniform: nat -> Unit,
    gen: (Sampler, nat) -> string,
    yaml: (string, string) -> string)

  /** `Math.floor(r * (max - min)) + min`, the repetition bound of a new sampler. */
  function RepetitionBound(r: Unit, min: int, max: int): int {
    (r * (max - min) as real).Floor + min
  }

  /** The bound lies in `[min, max - 1]` when `min < max`, and is `min` when they are equal. */
  lemma BoundInRange(r: Unit, min: int, max: int)
    ensures min < max ==> min <= RepetitionBound(r, min, max) <= max - 1
    ensures min == max ==> RepetitionBound(r, min, max) == min
  {
    var d := (max - min) as real;
    if min < max {
      assert 0.0 <= r * d;
      assert r * d < d by {
        assert (1.0 - r) * d > 0.0;
      }
      assert (r * d).Floor < max - min;
    }
  }

  /** With the default configuration (`min: 1, max: 100`) every bound is in `[1, 99]`. */
  lemma DefaultBound(r: Unit)
    ensures 1 <= RepetitionBound(r, 1, 100) <= 99
  {
    BoundInRange(r, 1, 100);
  }

  /** The strings written to a file so far; nothing when there is no such file. */
  function Get(files: map<string, seq<string>>, path: string): seq<string> {
    if path in files then files[path] else []
  }

  /** The host's side effects: directories, files (each the sequence of strings written to it since it
      was opened), the streams not yet ended, and the random state. */
  class Host {
    const oracle: Oracle
    var dirs: set<string>
    var files: map<string, seq<string>>
    var open: set<string>
    var tick: nat

    constructor (oracle: Oracle, dirs: set<string>, files: map<string, seq<string>>, tick: nat)
      ensures this.oracle == oracle && this.dirs == dirs && this.files == files
      ensures open == {} && this.tick == tick
    {
      this.oracle := oracle;
      this.dirs := dirs;
      this.files := files;
      this.open := {};
      this.tick := tick;
    }

    /** `Math.random()`. */
    method Random() returns (r: Unit)
      modifies this`tick
      ensures r == oracle.uniform(old(tick)) && tick == old(tick) + 1
    {
      r := oracle.uniform(tick);
      tick := tick + 1;
    }

    /** `sampler.gen()`. */
    method Gen(s: Sampler) returns (x: string)
      modifies this`tick
      ensures x == oracle.gen(s, old(tick)) && tick == old(tick) + 1
    {
      x := oracle.gen(s, tick);
      tick := tick + 1;
    }

    /** `fs.existsSync(path)`: a directory or a file is there. */
    predicate Exists(path: string)
      reads this
    {
      path in dirs || path in files
    }

    /** `fs.mkdirSync(path)`: fails when the directory is already there. */
    method MakeDirectory(path: string) returns (ok: bool)
      modifies this`dirs
      ensures ok == (path !in old(dirs))
      ensures dirs == old(dirs) + {path}
    {
      ok := path !in dirs;
      dirs := dirs + {path};
    }

    /** `fs.createWriteStream(path, { flags: 'w' })`: the file is created or truncated. */
    method CreateWriteStream(path: string)
      modifies this`files, this`open
      ensures files == old(files)[path := []]
      ensures open == old(open) + {path}
    {
      files := files[path := []];
      open := open + {path};
    }

    /** `stream.write(data)`. */
    method Write(path: string, data: string)
      modifies this`files
      ensures files == old(files)[path := Get(old(files), path) + [data]]
    {
      files := files[path := Get(files, path) + [data]];
    }

    /** `stream.end()`. */
    method End(path: string)
      modifies this`open
      ensures open == old(open) - {path}
    {
      open := open - {path};
    }
  }
}
