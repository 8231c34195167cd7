/**
 * The two helpers beside the analyzer in the Java bridge: the text report
 * that stands in for a PDF, and the Maven artifact download path.
 * `json.dumps(..., indent=2)` and `str(...)` of non-string values are
 * opaque functions passed in; file writes and HTTP requests are inputs.
 */
module JavaReports {
  import opened Wrappers
  import opened PyValues
  import JavaIntegration

  // ---------------------------------------------------------------------------
  // Strings

  /** `sep.join(lines)` with `sep == '\n'`. */
  function JoinLines(lines: seq<string>): string {
    if lines == [] then ""
    else if |lines| == 1 then lines[0]
    else lines[0] + "\n" + JoinLines(lines[1..])
  }

  /** `s.split('\n')`. */
  function SplitLines(s: string): (r: seq<string>)
    ensures |r| >= 1
  {
    if s == [] then [""]
    else if s[0] == '\n' then [""] + SplitLines(s[1..])
    else
      var rest := SplitLines(s[1..]);
      [[s[0]] + rest[0]] + rest[1..]
  }

  lemma {:induction false} SplitLinesPrefix(line: string, rest: string)
    requires '\n' !in line
    ensures SplitLines(line + "\n" + rest) == [line] + SplitLines(rest)
    ensures SplitLines(line) == [line]
  {
    if line != [] {
      assert (line + "\n" + rest)[1..] == line[1..] + "\n" + rest;
      SplitLinesPrefix(line[1..], rest);
      assert [line[0]] + line[1..] == line;
    } else {
      assert line + "\n" + rest == "\n" + rest;
    }
  }

  /** Lines without line breaks survive joining and splitting again. */
  lemma {:induction false} SplitJoinLines(lines: seq<string>)
    requires lines != []
    requires forall i | 0 <= i < |lines| :: '\n' !in lines[i]
    ensures SplitLines(JoinLines(lines)) == lines
  {
    if |lines| == 1 {
      SplitLinesPrefix(lines[0], "");
    } else {
      SplitJoinLines(lines[1..]);
      SplitLinesPrefix(lines[0], JoinLines(lines[1..]));
      assert [lines[0]] + lines[1..] == lines;
    }
  }

  /** `s.replace(pat, rep)`: every non-overlapping occurrence, left to right. */
  function ReplaceAll(s: string, pat: string, rep: string): string
    requires pat != []
    decreases |s|
  {
    if |s| < |pat| then s
    else if s[..|pat|] == pat then rep + ReplaceAll(s[|pat|..], pat, rep)
    else [s[0]] + ReplaceAll(s[1..], pat, rep)
  }

  /** `pat` occurs in `s` starting at index `i`. */
  predicate OccursAt(s: string, pat: string, i: nat) {
    i + |pat| <= |s| && s[i..i + |pat|] == pat
  }

  predicate NoOccurrence(s: string, pat: string) {
    forall i: nat | i <= |s| :: !OccursAt(s, pat, i)
  }

  lemma NoOccurrenceTail(s: string, pat: string)
    requires s != [] && NoOccurrence(s, pat)
    ensures NoOccurrence(s[1..], pat)
  {
    forall i: nat | i <= |s[1..]| ensures !OccursAt(s[1..], pat, i) {
      assert !OccursAt(s, pat, i + 1);
      if i + |pat| <= |s[1..]| {
        assert s[1..][i..i + |pat|] == s[i + 1..i + 1 + |pat|];
      }
    }
  }

  /** A string in which the pattern never occurs is left alone. */
  lemma {:induction false} ReplaceAllWithoutOccurrence(s: string, pat: string, rep: string)
    requires pat != [] && NoOccurrence(s, pat)
    ensures ReplaceAll(s, pat, rep) == s
    decreases |s|
  {
    if |s| >= |pat| {
      assert !OccursAt(s, pat, 0);
      NoOccurrenceTail(s, pat);
      ReplaceAllWithoutOccurrence(s[1..], pat, rep);
      assert [s[0]] + s[1..] == s;
    }
  }

  /** `output_path.replace('.pdf', '.txt')` turns a final `.pdf` into `.txt` when no other `.pdf` precedes it. */
  lemma {:induction false} PdfSuffixBecomesTxt(s: string)
    requires NoOccurrence(s, ".pdf")
    ensures ReplaceAll(s + ".pdf", ".pdf", ".txt") == s + ".txt"
    decreases |s|
  {
    var t := s + ".pdf";
    if s == [] {
      assert t[..4] == ".pdf" && t[4..] == [];
    } else {
      assert t[..4] != ".pdf" by {
        if |s| >= 4 {
          assert !OccursAt(s, ".pdf", 0);
          assert t[..4] == s[0..4];
        } else {
          assert t[..4][|s|] == '.';
          assert ".pdf"[|s|] != '.';
        }
      }
      assert t[1..] == s[1..] + ".pdf";
      NoOccurrenceTail(s, ".pdf");
      PdfSuffixBecomesTxt(s[1..]);
      assert [s[0]] + (s[1..] + ".txt") == s + ".txt";
    }
  }

  // ---------------------------------------------------------------------------
  // JavaReportGenerator

  /**
   * `for rec in v`: lists give their items, strings their characters, and
   * dicts their keys in insertion order, which `keys` supplies since a map
   * keeps none.
   */
  function Iterate(v: Value, keys: map<string, Value> -> seq<string>): (r: Result<seq<Value>, Exc>)
    ensures v.VList? ==> r == Ok(v.items)
    ensures v.VStr? ==> r.Ok? && |r.value| == |v.s| && forall i | 0 <= i < |v.s| :: r.value[i] == VStr([v.s[i]])
    ensures v.VObj? ==> r.Ok? && |r.value| == |keys(v.fields)|
                        && forall i | 0 <= i < |r.value| :: r.value[i] == VStr(keys(v.fields)[i])
    ensures !v.VList? && !v.VStr? && !v.VObj? ==> r.Err? && r.error.kind == "TypeError"
  {
    match v
    case VList(xs) => Ok(xs)
    case VStr(s) => Ok(seq(|s|, i requires 0 <= i < |s| => VStr([s[i]])))
    case VObj(d) => Ok(seq(|keys(d)|, i requires 0 <= i < |keys(d)| => VStr(keys(d)[i])))
    case _ => Err(Exc("TypeError", Repr(TypeName(v)) + " object is not iterable"))
  }

  /** `keys` lists exactly the keys of `d`, each once. */
  ghost predicate IsKeyOrder(keys: map<string, Value> -> seq<string>, d: map<string, Value>) {
    && (forall k :: k in keys(d) <==> k in d)
    && (forall i, j | 0 <= i < j < |keys(d)| :: keys(d)[i] != keys(d)[j])
  }

  /** Iterating a dict visits each of its keys exactly once. */
  lemma DictIterationVisitsKeys(d: map<string, Value>, keys: map<string, Value> -> seq<string>)
    requires IsKeyOrder(keys, d)
    ensures var items := Iterate(VObj(d), keys).value;
            && |items| == |d|
            && (forall k :: VStr(k) in items <==> k in d)
            && (forall i, j | 0 <= i < j < |items| :: items[i] != items[j])
  {
    var ks := keys(d);
    var items := Iterate(VObj(d), keys).value;
    forall k ensures VStr(k) in items <==> k in d {
      if k in d {
        var i :| 0 <= i < |ks| && ks[i] == k;
        assert items[i] == VStr(k);
      }
    }
    DistinctCard(ks, d.Keys);
  }

  /** A duplicate-free listing of a set of keys is as long as the set. */
  lemma {:induction false} DistinctCard(ks: seq<string>, keys: set<string>)
    requires forall k :: k in ks <==> k in keys
    requires forall i, j | 0 <= i < j < |ks| :: ks[i] != ks[j]
    ensures |ks| == |keys|
    decreases |ks|
  {
    if ks == [] {
      assert keys == {};
    } else {
      var rest := ks[1..];
      var others := keys - {ks[0]};
      forall k ensures k in rest <==> k in others {
        if k in rest {
          var i :| 0 <= i < |rest| && rest[i] == k;
          assert ks[i + 1] == k;
        }
        if k in others {
          var i :| 0 <= i < |ks| && ks[i] == k;
          assert rest[i - 1] == k;
        }
      }
      DistinctCard(rest, others);
    }
  }

  /** `f"{v}"`: a string as itself, anything else through Python's `str`. */
  function Display(v: Value, str: Value -> string): string {
    if v.VStr? then v.s else str(v)
  }

  /**
   * The bullet and the bird in the report template are stored in the source
   * as UTF-8 read back as Windows-1252, and they are written out as those
   * characters: the bullet is `\u00E2\u20AC\u00A2`, the bird `\u00F0\u0178\u00A6`.
   */
  const Bullet: string := "\U{00E2}\U{20AC}\U{00A2} "
  const Bird: string := "\U{00F0}\U{0178}\U{00A6}"

  function Bullets(items: seq<Value>, str: Value -> string): (r: seq<string>)
    ensures |r| == |items|
    ensures forall i | 0 <= i < |items| :: r[i] == Bullet + Display(items[i], str)
  {
    seq(|items|, i requires 0 <= i < |items| => Bullet + Display(items[i], str))
  }

  const ReportHeader: string := "\n" + Bird + " Bird Feeding Analysis Report\nGenerated by Java Report Engine\n\n=== FEEDING PATTERNS ===\n"
  const RecommendationsHeading: string := "\n\n=== RECOMMENDATIONS ===\n"
  const MetadataHeading: string := "\n\n=== METADATA ===\n"

  function ReportText(patterns: string, bullets: seq<string>, engine: string, processedBy: string, generated: string): string {
    ReportHeader + patterns + RecommendationsHeading + JoinLines(bullets) + MetadataHeading
    + "Analysis Engine: " + engine + "\nProcessed By: " + processedBy + "\nGenerated: " + generated + "\n"
  }

  /** `_create_report_content(data)`. */
  function CreateReportContent(data: Value, dumps: Value -> string, str: Value -> string,
                               keys: map<string, Value> -> seq<string>): (r: Result<string, Exc>)
    ensures !data.VObj? ==> r.Err?
    ensures data.VObj? ==>
              var recs := JavaIntegration.Field(data.fields, "recommendations", VList([]));
              (r.Ok? <==> Iterate(recs, keys).Ok?)
              && (r.Ok? ==>
                    r.value == ReportText(dumps(JavaIntegration.Field(data.fields, "patterns", VObj(map[]))),
                                          Bullets(Iterate(recs, keys).value, str),
                                          Display(JavaIntegration.Field(data.fields, "analysis_engine", VStr("Unknown")), str),
                                          Display(JavaIntegration.Field(data.fields, "processed_by", VStr("Unknown")), str),
                                          Display(JavaIntegration.Field(data.fields, "timestamp", VStr("Unknown")), str)))
  {
    match data
    case VObj(d) =>
      var patterns := JavaIntegration.Field(d, "patterns", VObj(map[]));
      var items := Iterate(JavaIntegration.Field(d, "recommendations", VList([])), keys);
      if items.Err? then Err(items.error)
      else
        var engine := Display(JavaIntegration.Field(d, "analysis_engine", VStr("Unknown")), str);
        var processor := Display(JavaIntegration.Field(d, "processed_by", VStr("Unknown")), str);
        var generated := Display(JavaIntegration.Field(d, "timestamp", VStr("Unknown")), str);
        Ok(ReportText(dumps(patterns), Bullets(items.value, str), engine, processor, generated))
    case _ => Err(AttributeError(data, "get"))
  }

  /** What `generate_pdf_report` returned and which file it wrote. */
  datatype ReportOutcome = ReportOutcome(returned: bool, written: Option<(string, string)>)

  function ReportPath(outputPath: string): string {
    ReplaceAll(outputPath, ".pdf", ".txt")
  }

  /** `generate_pdf_report(data, output_path)`: any failure gives `False` and no file. */
  function GeneratePdfReport(data: Value, outputPath: string, writeFailure: Option<Exc>,
                             dumps: Value -> string, str: Value -> string,
                             keys: map<string, Value> -> seq<string>): (r: ReportOutcome)
    ensures r.returned <==> CreateReportContent(data, dumps, str, keys).Ok? && writeFailure.None?
    ensures r.returned ==> r.written == Some((ReportPath(outputPath), CreateReportContent(data, dumps, str, keys).value))
    ensures !r.returned ==> r.written.None?
  {
    var content := CreateReportContent(data, dumps, str, keys);
    if content.Err? || writeFailure.Some? then ReportOutcome(false, None)
    else ReportOutcome(true, Some((ReportPath(outputPath), content.value)))
  }

  function StringList(xs: seq<string>): (r: Value)
    ensures r.VList? && |r.items| == |xs| && forall i | 0 <= i < |xs| :: r.items[i] == VStr(xs[i])
  {
    VList(seq(|xs|, i requires 0 <= i < |xs| => VStr(xs[i])))
  }

  /** The dictionary the analyzer's result is, as the report generator reads it. */
  function AnalysisDict(a: JavaIntegration.Analysis): Value {
    match a
    case NoPatterns => VObj(map["patterns" := VList([]), "recommendations" := VList([])])
    case Summary(p, recs, engine, processor) =>
      VObj(map[
        "patterns" := VObj(map[
          "most_common_bird" := p.mostCommonBird,
          "preferred_food" := p.preferredFood,
          "average_quantity" := VReal(p.averageQuantity),
          "total_feedings" := VInt(p.totalFeedings)]),
        "recommendations" := StringList(recs),
        "analysis_engine" := VStr(engine),
        "processed_by" := VStr(processor)])
    case FromJava(v) => v
    case Failure(msg) => VObj(map["error" := VStr(msg)])
  }

  /** The recommendations section of a report lists each string recommendation on a line of its own. */
  lemma {:induction false} ReportBulletsOnePerLine(recs: seq<string>, str: Value -> string)
    requires recs != []
    requires forall i | 0 <= i < |recs| :: '\n' !in recs[i]
    ensures var lines := SplitLines(JoinLines(Bullets(StringList(recs).items, str)));
            |lines| == |recs| && forall i | 0 <= i < |recs| :: lines[i] == Bullet + recs[i]
  {
    var bullets := Bullets(StringList(recs).items, str);
    forall i | 0 <= i < |recs| ensures '\n' !in bullets[i] {
      assert bullets[i] == Bullet + recs[i];
    }
    SplitJoinLines(bullets);
  }

  /**
   * Every result the analyzer's simulation can produce renders as a report,
   * with one bullet per recommendation, in order.
   */
  lemma SimulatedAnalysisRenders(data: seq<JavaIntegration.Record>, r: Result<JavaIntegration.Analysis, Exc>,
                                 dumps: Value -> string, str: Value -> string,
                                 keys: map<string, Value> -> seq<string>)
    requires JavaIntegration.SimulationOf(data, r) && r.Ok?
    ensures var content := CreateReportContent(AnalysisDict(r.value), dumps, str, keys);
            content.Ok? && content.value == ReportText(
              dumps(AnalysisDict(r.value).fields["patterns"]),
              if data == [] then [] else Bullets(StringList(JavaIntegration.Recommendations).items, str),
              if data == [] then "Unknown" else JavaIntegration.AnalysisEngine,
              if data == [] then "Unknown" else JavaIntegration.ProcessedBy,
              "Unknown")
  {
    if data == [] {
      EmptySimulationRenders(r.value, dumps, str, keys);
    } else {
      FullSimulationRenders(r.value, dumps, str, keys);
    }
  }

  /** With no records the report has no recommendations and an unknown engine, processor and time. */
  lemma EmptySimulationRenders(a: JavaIntegration.Analysis, dumps: Value -> string, str: Value -> string,
                               keys: map<string, Value> -> seq<string>)
    requires a == JavaIntegration.NoPatterns
    ensures var content := CreateReportContent(AnalysisDict(a), dumps, str, keys);
            content.Ok? && content.value == ReportText(dumps(AnalysisDict(a).fields["patterns"]), [], "Unknown", "Unknown", "Unknown")
  {
    var d := AnalysisDict(a).fields;
    assert "timestamp" !in d by {
      assert "timestamp"[0] != "patterns"[0] && "timestamp"[0] != "recommendations"[0];
    }
    assert "analysis_engine" !in d by {
      assert "analysis_engine"[0] != "patterns"[0] && "analysis_engine"[0] != "recommendations"[0];
    }
    assert "processed_by" !in d by {
      assert "processed_by"[1] != "patterns"[1] && "processed_by"[0] != "recommendations"[0];
    }
  }

  /** A summary reports the fixed recommendations, engine and processor, and an unknown time. */
  lemma FullSimulationRenders(a: JavaIntegration.Analysis, dumps: Value -> string, str: Value -> string,
                              keys: map<string, Value> -> seq<string>)
    requires a.Summary? && a.recommendations == JavaIntegration.Recommendations
    requires a.analysisEngine == JavaIntegration.AnalysisEngine && a.processedBy == JavaIntegration.ProcessedBy
    ensures var content := CreateReportContent(AnalysisDict(a), dumps, str, keys);
            content.Ok? && content.value == ReportText(
              dumps(AnalysisDict(a).fields["patterns"]),
              Bullets(StringList(JavaIntegration.Recommendations).items, str),
              JavaIntegration.AnalysisEngine, JavaIntegration.ProcessedBy, "Unknown")
  {
    var d := AnalysisDict(a).fields;
    assert "timestamp" !in d by {
      assert "timestamp"[0] != "patterns"[0] && "timestamp"[0] != "recommendations"[0];
      assert "timestamp"[0] != "analysis_engine"[0] && "timestamp"[0] != "processed_by"[0];
    }
    assert "recommendations"[0] != "patterns"[0];
    assert "analysis_engine"[0] != "recommendations"[0] && "analysis_engine"[0] != "patterns"[0];
    assert "processed_by"[1] != "patterns"[1] && "processed_by"[0] != "analysis_engine"[0];
    assert "processed_by"[0] != "recommendations"[0];
    assert d["recommendations"] == StringList(JavaIntegration.Recommendations);
    assert d["analysis_engine"] == VStr(JavaIntegration.AnalysisEngine);
    assert d["processed_by"] == VStr(JavaIntegration.ProcessedBy);
  }

  // ---------------------------------------------------------------------------
  // MavenArtifactManager

  const DefaultNexusUrl: string := "http://localhost:8081"
  const DefaultMavenRepo: string := "maven-central"
  const DefaultTargetDir: string := "java/"

  datatype MavenArtifactManager = MavenArtifactManager(nexusUrl: string, mavenRepo: string)

  function NewMavenArtifactManager(nexusUrl: string): MavenArtifactManager {
    MavenArtifactManager(nexusUrl, DefaultMavenRepo)
  }

  /** `group_id.replace('.', '/')`. */
  function GroupPath(groupId: string): (r: string)
    ensures |r| == |groupId|
    ensures forall i | 0 <= i < |groupId| :: r[i] == if groupId[i] == '.' then '/' else groupId[i]
  {
    if groupId == [] then ""
    else [if groupId[0] == '.' then '/' else groupId[0]] + GroupPath(groupId[1..])
  }

  function JarFileName(artifactId: string, version: string): string {
    artifactId + "-" + version + ".jar"
  }

  function JarUrl(m: MavenArtifactManager, groupId: string, artifactId: string, version: string): string {
    m.nexusUrl + "/repository/" + m.mavenRepo + "/" + GroupPath(groupId) + "/" + artifactId + "/" + version + "/"
    + JarFileName(artifactId, version)
  }

  /** POSIX `os.path.join(a, b)`. */
  function PathJoin(a: string, b: string): (r: string)
    ensures |b| <= |r| && r[|r| - |b|..] == b
    ensures b != [] && b[0] == '/' ==> r == b
    ensures (b == [] || b[0] != '/') && a != [] && a[|a| - 1] == '/' ==> r == a + b
    ensures (b == [] || b[0] != '/') && a != [] && a[|a| - 1] != '/' ==> r == a + "/" + b
  {
    if b != [] && b[0] == '/' then b
    else if a == [] || a[|a| - 1] == '/' then a + b
    else a + "/" + b
  }

  function JarPath(targetDir: string, artifactId: string, version: string): string {
    PathJoin(targetDir, JarFileName(artifactId, version))
  }

  /** What `requests.get(jar_url, ...)` did. */
  datatype HttpGet = Got(status: int) | GetRaised(e: Exc)

  /** What `download_jar` returned, which URL it requested and which file it wrote. */
  datatype Download = Download(returned: string, requested: Option<string>, written: Option<string>)

  /** `download_jar(group_id, artifact_id, version, target_dir)`. */
  function DownloadJar(m: MavenArtifactManager, groupId: string, artifactId: string, version: string, targetDir: string,
                       makedirsFailure: Option<Exc>, fetch: string -> HttpGet, writeFailure: Option<Exc>): (r: Download)
    ensures r.requested == if makedirsFailure.None? then Some(JarUrl(m, groupId, artifactId, version)) else None
    ensures r.returned == JarPath(targetDir, artifactId, version) <==>
              makedirsFailure.None? && fetch(JarUrl(m, groupId, artifactId, version)) == Got(200) && writeFailure.None?
    ensures r.returned != JarPath(targetDir, artifactId, version) ==> r.returned == "" && r.written.None?
    ensures r.written.Some? <==> r.returned != ""
    ensures r.returned != "" ==> r.written == Some(JarPath(targetDir, artifactId, version))
  {
    if makedirsFailure.Some? then Download("", None, None)
    else
      var url := JarUrl(m, groupId, artifactId, version);
      var path := JarPath(targetDir, artifactId, version);
      match fetch(url)
      case Got(status) =>
        if status == 200 && writeFailure.None? then Download(path, Some(url), Some(path))
        else Download("", Some(url), None)
      case GetRaised(_) => Download("", Some(url), None)
  }

  /** The downloaded file is named `{artifact_id}-{version}.jar` inside `target_dir`. */
  lemma JarPathInTargetDir(targetDir: string, artifactId: string, version: string)
    requires targetDir != [] && (artifactId == [] || artifactId[0] != '/')
    ensures var p := JarPath(targetDir, artifactId, version);
            p[..|targetDir|] == targetDir
            && p[|p| - |JarFileName(artifactId, version)|..] == JarFileName(artifactId, version)
  {
    var name := JarFileName(artifactId, version);
    assert name[0] == if artifactId == [] then '-' else artifactId[0];
  }

  /** The group path has no dots left and keeps every other character. */
  lemma GroupPathHasNoDots(groupId: string)
    ensures '.' !in GroupPath(groupId)
  {
    var r := GroupPath(groupId);
    assert forall i | 0 <= i < |r| :: r[i] != '.';
  }
}
