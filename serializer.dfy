/** The per-sample serialisation of `generatePatternsWithFormat`: the pattern key is sanitised, the
    format token picks one of four fragment shapes, and `getFileExtForFormat` names the file. */
module Serializer {
  import opened Outcomes
  import opened Text
  import Json

  predicate AllAlnum(s: string) {
    forall i :: 0 <= i < |s| ==> IsAlnum(s[i])
  }

  /** Length of the leading run of `[a-zA-Z0-9]` characters. */
  function LeadRun(s: string): (k: nat)
    ensures k <= |s|
    ensures forall i :: 0 <= i < k ==> IsAlnum(s[i])
    ensures k < |s| ==> !IsAlnum(s[k])
  {
    if s != [] && IsAlnum(s[0]) then 1 + LeadRun(s[1..]) else 0
  }

  /** The maximal runs of `[a-zA-Z0-9]` in `s`, in order: the array `s.match(/[a-zA-Z0-9]+/g)`
      (an empty sequence where `match` returns null). */
  function Runs(s: string): (r: seq<string>)
    ensures forall k :: 0 <= k < |r| ==> r[k] != [] && AllAlnum(r[k])
    decreases |s|
  {
    if s == [] then []
    else if !IsAlnum(s[0]) then Runs(s[1..])
    else
      var k := LeadRun(s);
      [s[..k]] + Runs(s[k..])
  }

  /** The alphanumeric characters of `s`, in order. */
  function Alnums(s: string): string {
    if s == [] then [] else (if IsAlnum(s[0]) then [s[0]] else []) + Alnums(s[1..])
  }

  function Concat(parts: seq<string>): string {
    if parts == [] then [] else parts[0] + Concat(parts[1..])
  }

  lemma {:induction false} AlnumsAppend(a: string, b: string)
    ensures Alnums(a + b) == Alnums(a) + Alnums(b)
  {
    if a == [] {
      assert a + b == b;
    } else {
      var h := if IsAlnum(a[0]) then [a[0]] else [];
      assert (a + b)[0] == a[0];
      assert (a + b)[1..] == a[1..] + b;
      assert Alnums(a + b) == h + Alnums(a[1..] + b);
      AlnumsAppend(a[1..], b);
      assert h + (Alnums(a[1..]) + Alnums(b)) == (h + Alnums(a[1..])) + Alnums(b);
    }
  }

  lemma {:induction false} AlnumsOfAlnum(s: string)
    requires AllAlnum(s)
    ensures Alnums(s) == s
  {
    if s != [] {
      AlnumsOfAlnum(s[1..]);
    }
  }

  lemma {:induction false} AlnumsOfSeparators(s: string)
    requires forall i :: 0 <= i < |s| ==> !IsAlnum(s[i])
    ensures Alnums(s) == []
  {
    if s != [] {
      AlnumsOfSeparators(s[1..]);
    }
  }

  /** The runs hold every alphanumeric character of the input, in order, and nothing else. */
  lemma {:induction false} RunsCoverAlnums(s: string)
    ensures Concat(Runs(s)) == Alnums(s)
    decreases |s|
  {
    if s == [] {
    } else if !IsAlnum(s[0]) {
      RunsCoverAlnums(s[1..]);
    } else {
      var k := LeadRun(s);
      RunsCoverAlnums(s[k..]);
      assert s == s[..k] + s[k..];
      AlnumsAppend(s[..k], s[k..]);
      AlnumsOfAlnum(s[..k]);
      assert Runs(s)[1..] == Runs(s[k..]);
    }
  }

  /** There is no run exactly when there is no alphanumeric character. */
  lemma {:induction false} RunsEmptyIff(s: string)
    ensures Runs(s) == [] <==> forall i :: 0 <= i < |s| ==> !IsAlnum(s[i])
    decreases |s|
  {
    if s != [] && !IsAlnum(s[0]) {
      RunsEmptyIff(s[1..]);
      if Runs(s) == [] {
        forall i | 0 <= i < |s| ensures !IsAlnum(s[i]) {
          if i > 0 { assert s[i] == s[1..][i - 1]; }
        }
      }
    }
  }

  /** The shape of a sanitised key: non-empty, only `[a-zA-Z0-9_]`, and every `_` stands between two
      alphanumerics (so none leads, none trails and no two are adjacent). */
  predicate IsSafeKey(k: string) {
    k != []
    && (forall i :: 0 <= i < |k| ==> IsAlnum(k[i]) || k[i] == '_')
    && (forall i :: 0 <= i < |k| && k[i] == '_' ==> 0 < i < |k| - 1 && IsAlnum(k[i - 1]) && IsAlnum(k[i + 1]))
  }

  lemma {:induction false} JoinRunsIsSafe(rs: seq<string>)
    requires |rs| >= 1
    requires forall k :: 0 <= k < |rs| ==> rs[k] != [] && AllAlnum(rs[k])
    ensures IsSafeKey(Join(rs, '_'))
  {
    if |rs| > 1 {
      var j := Join(rs[1..], '_');
      JoinRunsIsSafe(rs[1..]);
      var r0 := rs[0];
      var t := r0 + ['_'] + j;
      assert Join(rs, '_') == t;
      assert IsAlnum(j[0]);
      assert forall i :: 0 <= i < |r0| ==> t[i] == r0[i];
      forall i | 0 <= i < |t| && t[i] == '_'
        ensures 0 < i < |t| - 1 && IsAlnum(t[i - 1]) && IsAlnum(t[i + 1])
      {
        if i == |r0| {
          assert t[i - 1] == r0[|r0| - 1];
          assert t[i + 1] == j[0];
        } else {
          assert t[i] == j[i - |r0| - 1];
          assert t[i - 1] == (if i - 1 == |r0| then '_' else j[i - |r0| - 2]);
          assert t[i + 1] == j[i - |r0|];
        }
      }
      forall i | 0 <= i < |t| ensures IsAlnum(t[i]) || t[i] == '_' {
        if i < |r0| { assert t[i] == r0[i]; }
        else if i > |r0| { assert t[i] == j[i - |r0| - 1]; }
      }
    }
  }

  /** `key.match(/[a-zA-Z0-9]+/g).join('_')`: the maximal alphanumeric runs of the key joined by `_`;
      `None` when `match` returns null, where `.join` throws. */
  function SanitizeKey(key: string): (r: Option<string>)
    ensures r.None? <==> forall i :: 0 <= i < |key| ==> !IsAlnum(key[i])
    ensures r.Some? ==> IsSafeKey(r.value)
  {
    RunsEmptyIff(key);
    var runs := Runs(key);
    if runs == [] then None
    else
      JoinRunsIsSafe(runs);
      Some(Join(runs, '_'))
  }

  /** A sanitised key keeps exactly the alphanumeric characters of the key, in order. */
  lemma {:induction false} SanitizeKeepsAlnums(key: string)
    requires SanitizeKey(key).Some?
    ensures Alnums(SanitizeKey(key).value) == Alnums(key)
  {
    var rs := Runs(key);
    RunsCoverAlnums(key);
    JoinAlnums(rs);
  }

  lemma {:induction false} JoinAlnums(rs: seq<string>)
    requires forall k :: 0 <= k < |rs| ==> AllAlnum(rs[k])
    ensures Alnums(Join(rs, '_')) == Concat(rs)
  {
    if |rs| == 1 {
      AlnumsOfAlnum(rs[0]);
      assert Concat(rs) == rs[0] + [];
    } else if |rs| > 1 {
      JoinAlnums(rs[1..]);
      AlnumsAppend(rs[0] + ['_'], Join(rs[1..], '_'));
      AlnumsAppend(rs[0], ['_']);
      AlnumsOfAlnum(rs[0]);
    }
  }

  /** Splitting a sanitised key on `_` gives back the runs it was made of. */
  lemma SanitizeSplits(key: string)
    requires SanitizeKey(key).Some?
    ensures Split(SanitizeKey(key).value, '_') == Runs(key)
  {
    var rs := Runs(key);
    forall k | 0 <= k < |rs| ensures '_' !in rs[k] {
      assert forall i :: 0 <= i < |rs[k]| ==> rs[k][i] != '_';
    }
    SplitJoin(rs, '_');
  }

  lemma {:induction false} RunsOfJoin(rs: seq<string>)
    requires forall k :: 0 <= k < |rs| ==> rs[k] != [] && AllAlnum(rs[k])
    ensures Runs(Join(rs, '_')) == rs
  {
    if |rs| == 1 {
      RunThen(rs[0], []);
      assert Join(rs, '_') == rs[0] + [];
    } else if |rs| > 1 {
      var j := Join(rs[1..], '_');
      assert Join(rs, '_') == rs[0] + (['_'] + j);
      RunThen(rs[0], ['_'] + j);
      assert (['_'] + j)[1..] == j;
      RunsOfJoin(rs[1..]);
      assert rs == [rs[0]] + rs[1..];
    }
  }

  /** A run followed by nothing, or by a separator, is the first run. */
  lemma RunThen(r: string, rest: string)
    requires r != [] && AllAlnum(r)
    requires rest == [] || !IsAlnum(rest[0])
    ensures Runs(r + rest) == [r] + Runs(rest)
  {
    var t := r + rest;
    LeadRunOf(r, rest);
    assert t[..|r|] == r && t[|r|..] == rest;
  }

  lemma {:induction false} LeadRunOf(r: string, rest: string)
    requires AllAlnum(r)
    requires rest == [] || !IsAlnum(rest[0])
    ensures LeadRun(r + rest) == |r|
  {
    if r != [] {
      assert (r + rest)[0] == r[0] && (r + rest)[1..] == r[1..] + rest;
      LeadRunOf(r[1..], rest);
    } else {
      assert r + rest == rest;
    }
  }

  /** Sanitising is idempotent: a sanitised key is its own sanitised form. */
  lemma SanitizeIdempotent(key: string)
    requires SanitizeKey(key).Some?
    ensures SanitizeKey(SanitizeKey(key).value) == SanitizeKey(key)
  {
    RunsOfJoin(Runs(key));
  }

  // ---------------------------------------------------------------- XML

  /** Whether markup starts at position `i`: `<`, `>`, `&`, or the first of two hyphens. */
  predicate MarkupAt(s: string, i: nat)
    requires i < |s|
  {
    s[i] == '<' || s[i] == '>' || s[i] == '&' || (i + 1 < |s| && s[i] == '-' && s[i + 1] == '-')
  }

  /** `s.match(/([<>&]|\-\-)/g)` is not null. */
  function HasMarkup(s: string): bool {
    if s == [] then false
    else s[0] == '<' || s[0] == '>' || s[0] == '&' || (|s| >= 2 && s[0] == '-' && s[1] == '-')
         || HasMarkup(s[1..])
  }

  /** The scan finds markup exactly when markup starts at some position. */
  lemma {:induction false} HasMarkupIff(s: string)
    ensures HasMarkup(s) <==> exists i :: 0 <= i < |s| && MarkupAt(s, i)
  {
    if s != [] {
      HasMarkupIff(s[1..]);
      assert HasMarkup(s) == (MarkupAt(s, 0) || HasMarkup(s[1..]));
      if exists j :: 0 <= j < |s| - 1 && MarkupAt(s[1..], j) {
        var j :| 0 <= j < |s| - 1 && MarkupAt(s[1..], j);
        assert s[1..][j] == s[j + 1];
        if j + 1 < |s| - 1 { assert s[1..][j + 1] == s[j + 2]; }
        assert MarkupAt(s, j + 1);
      }
      if exists i :: 0 < i < |s| && MarkupAt(s, i) {
        var i :| 0 < i < |s| && MarkupAt(s, i);
        assert s[1..][i - 1] == s[i];
        if i + 1 < |s| { assert s[1..][i] == s[i + 1]; }
        assert MarkupAt(s[1..], i - 1);
      }
    }
  }

  function Open(key: string): string { "<" + key + ">" }
  function Close(key: string): string { "</" + key + ">" }

  /** The XML fragment for one sample: wrapped in a CDATA section when it holds markup. */
  function XmlFragment(key: string, sample: string): string {
    if HasMarkup(sample) then Open(key) + "<![CDATA[" + sample + "]]>" + Close(key)
    else Open(key) + sample + Close(key)
  }

  /** Reads the character content back from a fragment for `key`. */
  function XmlContent(key: string, frag: string): Option<string> {
    var o, c := Open(key), Close(key);
    if |frag| < |o| + |c| || frag[..|o|] != o || frag[|frag| - |c|..] != c then None
    else
      var inner := frag[|o|..|frag| - |c|];
      if |inner| >= 12 && inner[..9] == "<![CDATA[" && inner[|inner| - 3..] == "]]>"
      then Some(inner[9..|inner| - 3])
      else Some(inner)
  }

  /** Every sample is recovered from its XML fragment, in both shapes. */
  lemma XmlRoundTrip(key: string, sample: string)
    ensures XmlContent(key, XmlFragment(key, sample)) == Some(sample)
  {
    var o, c := Open(key), Close(key);
    var frag := XmlFragment(key, sample);
    if HasMarkup(sample) {
      var inner := "<![CDATA[" + sample + "]]>";
      assert frag == o + inner + c;
      assert frag[..|o|] == o;
      assert frag[|frag| - |c|..] == c;
      assert frag[|o|..|frag| - |c|] == inner;
      assert inner[9..|inner| - 3] == sample;
    } else {
      assert frag == o + sample + c;
      assert frag[..|o|] == o;
      assert frag[|frag| - |c|..] == c;
      assert frag[|o|..|frag| - |c|] == sample;
      assert sample == [] || sample[0] != '<' by {
        HasMarkupIff(sample);
        if sample != [] { assert !MarkupAt(sample, 0); }
      }
      assert |sample| >= 9 ==> sample[..9][0] == sample[0];
    }
  }

  /** The fragment is in the CDATA shape exactly when the sample holds `<`, `>`, `&` or `--`. */
  lemma XmlCDataIff(key: string, sample: string)
    ensures (XmlFragment(key, sample) == Open(key) + "<![CDATA[" + sample + "]]>" + Close(key))
            <==> exists i :: 0 <= i < |sample| && MarkupAt(sample, i)
  {
    HasMarkupIff(sample);
    if !HasMarkup(sample) {
      var plain := Open(key) + sample + Close(key);
      var cdata := Open(key) + "<![CDATA[" + sample + "]]>" + Close(key);
      assert |plain| != |cdata|;
    }
  }

  /** Outside a CDATA section the sample is legal XML character data: no `<`, no `&`, no `]]>`. */
  lemma PlainXmlIsCharData(sample: string)
    requires !HasMarkup(sample)
    ensures forall i :: 0 <= i < |sample| ==> sample[i] != '<' && sample[i] != '&' && sample[i] != '>'
  {
    HasMarkupIff(sample);
    forall i | 0 <= i < |sample| ensures sample[i] != '<' && sample[i] != '&' && sample[i] != '>' {
      assert !MarkupAt(sample, i);
    }
  }

  /** As written, a sample holding `]]>` ends its CDATA section early: the fragment for `]]>`
      holds the terminator twice. */
  lemma CDataTerminatorNotEscaped()
    ensures XmlFragment("k", "]]>") == "<k><![CDATA[]]>]]></k>"
  {
    assert HasMarkup("]]>") by { assert "]]>"[1..][1..][0] == '>'; }
  }

  // ---------------------------------------------------------------- formats

  datatype Format = Json | Xml | Yaml | Plain

  /** The cases of the `switch` in `generatePatternsWithFormat`; anything else takes the JSON branch. */
  function Dispatch(token: string): Format {
    if token == "XML" then Xml
    else if token == "YAML" then Yaml
    else if token == "PLAIN" || token == "TEXT" || token == "FLAT" then Plain
    else Json
  }

  /** `outputFormat.trim().toUpperCase()`: the token the `switch` and the callback see. */
  function Canon(token: string): string {
    Upper(Trim(token))
  }

  function FormatOf(token: string): Format {
    Dispatch(Canon(token))
  }

  /** The fragment written for one sample. `yaml` stands for `yaml.stringify` of the object `{ key: sample }`. */
  function Serialize(format: Format, key: string, sample: string, yaml: (string, string) -> string): string {
    match format
    case Json => Json.Entry(key, sample)
    case Xml => XmlFragment(key, sample)
    case Yaml => yaml(key, sample)
    case Plain => sample
  }

  /** What each fragment gives back: the plain one is the sample, the JSON one parses to the key and
      the sample, the XML one reads back to the sample. */
  lemma SerializeRecovers(format: Format, key: string, sample: string, yaml: (string, string) -> string)
    ensures format == Plain ==> Serialize(format, key, sample, yaml) == sample
    ensures format == Json ==> Json.ParseEntry(Serialize(format, key, sample, yaml)) == Some((key, sample))
    ensures format == Xml ==> XmlContent(key, Serialize(format, key, sample, yaml)) == Some(sample)
  {
    Json.EntryRoundTrip(key, sample);
    XmlRoundTrip(key, sample);
  }

  /** `getFileExtForFormat`: upper-cases (without trimming) and maps to an extension. */
  function FileExt(format: string): string {
    var u := Upper(format);
    if u == "XML" then ".xml"
    else if u == "TEXT" || u == "PLAIN" || u == "FLAT" then ".txt"
    else if u == "YAML" then ".yaml"
    else ".json"
  }

  function ExtOf(format: Format): string {
    match format
    case Json => ".json"
    case Xml => ".xml"
    case Yaml => ".yaml"
    case Plain => ".txt"
  }

  lemma ExtOfInjective(a: Format, b: Format)
    requires ExtOf(a) == ExtOf(b)
    ensures a == b
  {
  }

  /** The token handed to the callback names a file with the extension of the fragment it carries. */
  lemma ExtAgreesWithDispatch(token: string)
    ensures FileExt(Canon(token)) == ExtOf(FormatOf(token))
  {
    UpperIdempotent(Trim(token));
  }

  /** A token without surrounding white space gets the same extension whether or not it was trimmed. */
  lemma ExtOfTrimmedToken(token: string)
    requires Trim(token) == token
    ensures FileExt(token) == ExtOf(FormatOf(token))
  {
    ExtAgreesWithDispatch(token);
  }

  /** Case does not matter to either mapping. */
  lemma ExtCaseInsensitive(token: string)
    ensures FileExt(Upper(token)) == FileExt(token)
  {
    UpperIdempotent(token);
  }

  lemma FormatCaseInsensitive(token: string)
    ensures FormatOf(Upper(token)) == FormatOf(token)
  {
    UpperTrimCommute(token);
    UpperIdempotent(Trim(token));
    assert Canon(Upper(token)) == Canon(token);
  }

  lemma UpperTrimCommute(s: string)
    ensures Trim(Upper(s)) == Upper(Trim(s))
  {
    UpperTrimStart(s);
    UpperTrimEnd(TrimStart(s));
  }

  lemma {:induction false} UpperTrimStart(s: string)
    ensures TrimStart(Upper(s)) == Upper(TrimStart(s))
  {
    if s != [] {
      assert Upper(s)[1..] == Upper(s[1..]);
      UpperTrimStart(s[1..]);
    }
  }

  lemma {:induction false} UpperTrimEnd(s: string)
    ensures TrimEnd(Upper(s)) == Upper(TrimEnd(s))
  {
    if s != [] {
      assert Upper(s)[..|s| - 1] == Upper(s[..|s| - 1]);
      UpperTrimEnd(s[..|s| - 1]);
    }
  }

  /** A format token with a leading space dispatches to XML, but its file is named `.json`. */
  lemma UntrimmedTokenMisnamed()
    ensures FormatOf(" xml") == Xml
    ensures FileExt(" xml") == ".json"
    ensures Canon(" xml") != Upper(" xml")
  {
    PaddedXmlCanon();
    PaddedXmlUpper();
    assert " XML" != "XML" && " XML" != "TEXT" && " XML" != "PLAIN" && " XML" != "FLAT" && " XML" != "YAML" by {
      assert " XML"[0] == ' ';
    }
  }

  /** The stream key for `" xml"` is `" XML"`. */
  lemma PaddedXmlUpper()
    ensures Upper(" xml") == " XML"
  {
    var u := Upper(" xml");
    assert u[0] == ' ' && u[1] == 'X' && u[2] == 'M' && u[3] == 'L';
  }

  /** The callback's token for `" xml"` is `"XML"`. */
  lemma PaddedXmlCanon()
    ensures Canon(" xml") == "XML"
  {
    PaddedXmlTrim();
    var u := Upper("xml");
    assert u[0] == 'X' && u[1] == 'M' && u[2] == 'L';
  }

  /** Trimming `" xml"` drops the leading space. */
  lemma PaddedXmlTrim()
    ensures Trim(" xml") == "xml"
  {
    assert TrimStart("xml") == "xml" by {
      assert "xml"[0] == 'x';
    }
    assert TrimStart(" xml") == "xml" by {
      assert " xml"[0] == ' ' && " xml"[1..] == "xml";
    }
    assert TrimEnd("xml") == "xml" by {
      assert "xml"[2] == 'l';
    }
  }

  /** Examples: the key of a pattern named `ip v4`, and a pattern named `--`, which has none. */
  lemma SanitizeExamples()
    ensures SanitizeKey("ip v4") == Some("ip_v4")
    ensures SanitizeKey("--") == None
  {
    assert LeadRun("ip v4") == 2;
    assert "ip v4"[2..] == " v4";
    assert " v4"[1..] == "v4";
    assert LeadRun("v4") == 2;
    assert "v4"[..2] == "v4" && "v4"[2..] == [];
    assert Runs("v4") == ["v4"] + Runs([]);
    assert "ip v4"[..2] == "ip";
    assert Runs("ip v4") == ["ip", "v4"];
    assert ["ip", "v4"][1..] == ["v4"];
    assert Join(["ip", "v4"], '_') == "ip" + ['_'] + "v4" == "ip_v4";
    assert !IsAlnum("--"[0]) && !IsAlnum("--"[1]);
  }
}
