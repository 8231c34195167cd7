/**
 * The Java bridge of the bird-feeding API: the analyzer that tries the JPype
 * path, then a `java -jar` subprocess, then a local simulation; the report
 * writer; and the Maven download path construction.
 *
 * Everything outside the process (whether `jpype` imports, whether the JVM
 * starts, what the child process prints, whether its output parses, whether
 * a file can be written or an HTTP request answered) is an input.
 */
module JavaIntegration {
  import opened Wrappers
  import opened PyValues

  /** One feeding record as the analyzer receives it: a dictionary. */
  type Record = map<string, Value>

  const Recommendations: seq<string> := [
    "Consider increasing seed variety for better bird diversity",
    "Morning feedings show 23% higher bird activity",
    "Cardinals prefer nuts over seeds by 2:1 ratio"
  ]
  const AnalysisEngine: string := "Java Bird Analyzer v1.0"
  const ProcessedBy: string := "JPype Bridge"
  const DefaultAnalyzerJar: string := "java/bird-analyzer.jar"
  const BirdAnalyzerClass: string := "com.birdfeeding.BirdAnalyzer"
  const TimeoutMessage: string := "Java program timed out"

  datatype Patterns = Patterns(mostCommonBird: Value, preferredFood: Value, averageQuantity: real, totalFeedings: nat)

  /** The dictionaries `analyze_feeding_patterns` can return. */
  datatype Analysis =
    | NoPatterns                       // {"patterns": [], "recommendations": []}
    | Summary(patterns: Patterns, recommendations: seq<string>, analysisEngine: string, processedBy: string)
    | FromJava(parsed: Value)          // whatever the Java program printed, decoded
    | Failure(error: string)           // {"error": str(e)}

  // ---------------------------------------------------------------------------
  // The simulation

  /** `f.get(key, default)` on a record. */
  function Field(f: Record, key: string, default: Value): Value {
    if key in f then f[key] else default
  }

  /** `[f.get(key, default) for f in data]`: one column of the records, in order. */
  function Column(data: seq<Record>, key: string, default: Value): (r: seq<Value>)
    ensures |r| == |data| && forall i | 0 <= i < |data| :: r[i] == Field(data[i], key, default)
  {
    seq(|data|, i requires 0 <= i < |data| => Field(data[i], key, default))
  }

  function BirdTypes(data: seq<Record>): seq<Value> {
    Column(data, "bird_type", VStr(""))
  }

  function FoodTypes(data: seq<Record>): seq<Value> {
    Column(data, "food_type", VStr(""))
  }

  function Quantities(data: seq<Record>): seq<Value> {
    Column(data, "quantity", VInt(0))
  }

  /** The first element `set(xs)` refuses, if any. */
  function FirstUnhashable(xs: seq<Value>): (r: Option<Value>)
    ensures r.None? <==> forall i | 0 <= i < |xs| :: Hashable(xs[i])
    ensures r.Some? ==> r.value in xs && !Hashable(r.value)
  {
    if xs == [] then None
    else if !Hashable(xs[0]) then Some(xs[0])
    else
      var rest := FirstUnhashable(xs[1..]);
      assert forall i | 1 <= i < |xs| :: xs[i] == xs[1..][i - 1];
      rest
  }

  /** The exception `_simulate_java_analysis` raises on a non-empty list, if any, in evaluation order. */
  function SimulationFailure(data: seq<Record>): Option<Exc> {
    var bird := FirstUnhashable(BirdTypes(data));
    var food := FirstUnhashable(FoodTypes(data));
    if bird.Some? then Some(Exc("TypeError", "unhashable type: " + Repr(TypeName(bird.value))))
    else if food.Some? then Some(Exc("TypeError", "unhashable type: " + Repr(TypeName(food.value))))
    else
      match Sum(Quantities(data))
      case Err(e) => Some(e)
      case Ok(total) =>
        if total.VInt? && data != [] && TrueDivisionOverflows(total.i, |data|) then Some(DivisionOverflowError())
        else None
  }

  /** `s / n` on ints raises `OverflowError` when the quotient rounds beyond the largest float. */
  predicate TrueDivisionOverflows(s: int, n: nat) {
    (if s < 0 then -s else s) >= FloatOverflow * n
  }

  function DivisionOverflowError(): Exc {
    Exc("OverflowError", "integer division result too large for a float")
  }

  /** One record whose quantity is too large for a float makes the average overflow. */
  lemma HugeQuantityOverflowsAverage(f: Record, q: int)
    requires "quantity" in f && f["quantity"] == VInt(q) && TooLargeForFloat(q)
    requires Hashable(Field(f, "bird_type", VStr(""))) && Hashable(Field(f, "food_type", VStr("")))
    ensures SimulationFailure([f]) == Some(DivisionOverflowError())
  {
    assert Quantities([f]) == [VInt(q)];
    assert Sum([VInt(q)]) == Ok(VInt(q)) by { assert [VInt(q)][1..] == []; }
  }

  /** What a successful simulation of a non-empty list says about it. */
  ghost predicate IsSummaryOf(data: seq<Record>, a: Analysis) {
    && a.Summary?
    && a.recommendations == Recommendations
    && a.analysisEngine == AnalysisEngine
    && a.processedBy == ProcessedBy
    && IsMode(BirdTypes(data), a.patterns.mostCommonBird)
    && IsMode(FoodTypes(data), a.patterns.preferredFood)
    && a.patterns.averageQuantity * (|data| as real) == ExactSum(Quantities(data))
    && a.patterns.totalFeedings == |data|
  }

  /** The outcomes `_simulate_java_analysis(data)` may have (the tie among modes is left open). */
  ghost predicate SimulationOf(data: seq<Record>, r: Result<Analysis, Exc>) {
    if data == [] then r == Ok(NoPatterns)
    else if SimulationFailure(data).Some? then r == Err(SimulationFailure(data).value)
    else r.Ok? && IsSummaryOf(data, r.value)
  }

  /** The same outcomes after `except Exception as e: return {"error": str(e)}`. */
  ghost predicate CaughtSimulationOf(data: seq<Record>, a: Analysis) {
    if data == [] then a == NoPatterns
    else if SimulationFailure(data).Some? then a == Failure(SimulationFailure(data).value.message)
    else IsSummaryOf(data, a)
  }

  /** When the simulation does not fail, `sum` of the quantities gives their exact total. */
  lemma SuccessfulSimulationSums(data: seq<Record>)
    requires SimulationFailure(data).None?
    ensures Sum(Quantities(data)).Ok? && Numeric(Sum(Quantities(data)).value) == Some(ExactSum(Quantities(data)))
  {
  }

  /** `total / n` on numbers: the value that, times `n`, gives back `total`. */
  function Mean(total: real, n: nat): (r: real)
    requires n > 0
    ensures r * (n as real) == total
  {
    total / (n as real)
  }

  /** The summary built from two modes and the mean of the exact total is a summary of the records. */
  lemma MeanSummary(data: seq<Record>, bird: Value, food: Value, total: real)
    requires data != [] && IsMode(BirdTypes(data), bird) && IsMode(FoodTypes(data), food)
    requires total == ExactSum(Quantities(data))
    ensures IsSummaryOf(data, Summary(Patterns(bird, food, Mean(total, |data|), |data|), Recommendations, AnalysisEngine, ProcessedBy))
  {
  }

  method SimulateJavaAnalysis(data: seq<Record>) returns (r: Result<Analysis, Exc>)
    ensures SimulationOf(data, r)
  {
    if data == [] {
      return Ok(NoPatterns);
    }
    var failure := SimulationFailure(data);
    if failure.Some? {
      return Err(failure.value);
    }
    var bird := MostCommon(BirdTypes(data));
    var food := MostCommon(FoodTypes(data));
    SuccessfulSimulationSums(data);
    var total := Numeric(Sum(Quantities(data)).value).value;
    assert total == ExactSum(Quantities(data));
    MeanSummary(data, bird, food, total);
    var average := Mean(total, |data|);
    r := Ok(Summary(Patterns(bird, food, average, |data|), Recommendations, AnalysisEngine, ProcessedBy));
  }

  function Catch(r: Result<Analysis, Exc>): Analysis {
    match r
    case Ok(a) => a
    case Err(e) => Failure(e.message)
  }

  lemma CatchSimulation(data: seq<Record>, r: Result<Analysis, Exc>)
    requires SimulationOf(data, r)
    ensures CaughtSimulationOf(data, Catch(r))
  {
  }

  /** A bird named by more than half of the records is the only possible most common bird. */
  lemma MajorityBirdIsMostCommon(data: seq<Record>, bird: Value, m: Value)
    requires Count(BirdTypes(data), bird) * 2 > |data|
    requires IsMode(BirdTypes(data), m)
    ensures m == bird
  {
    MajorityIsOnlyMode(BirdTypes(data), bird, m);
  }

  /** A two-way tie: either bird may be reported, so input order does not decide. */
  lemma TieAdmitsEitherBird()
    ensures var robin, cardinal := VStr("Robin"), VStr("Cardinal");
            var xs := [robin, robin, cardinal, cardinal];
            IsMode(xs, robin) && IsMode(xs, cardinal)
  {
    var robin, cardinal := VStr("Robin"), VStr("Cardinal");
    var xs := [robin, robin, cardinal, cardinal];
    assert robin != cardinal by { assert robin.s[0] != cardinal.s[0]; }
    var tail1, tail2, tail3 := [robin, cardinal, cardinal], [cardinal, cardinal], [cardinal];
    assert xs[1..] == tail1 && tail1[1..] == tail2 && tail2[1..] == tail3 && tail3[1..] == [];
    assert tail3[0] == cardinal && Count(tail3[1..], robin) == 0 && Count(tail3[1..], cardinal) == 0;
    assert Count(tail3, robin) == 0 && Count(tail3, cardinal) == 1;
    assert Count(tail2, robin) == 0 && Count(tail2, cardinal) == 2;
    assert Count(tail1, robin) == 1 && Count(tail1, cardinal) == 2;
    assert Count(xs, robin) == 2 && Count(xs, cardinal) == 2;
    forall y | y in xs ensures Count(xs, y) <= 2 {
      assert y == robin || y == cardinal;
    }
  }

  // ---------------------------------------------------------------------------
  // execute_java_program

  /** What `subprocess.run(cmd, capture_output=True, text=True, timeout=30)` did. */
  datatype RunOutcome =
    | Exited(returnCode: int, stdout: string, stderr: string)
    | TimedOut
    | RunRaised(e: Exc)

  /** The dictionary `execute_java_program` returns. */
  datatype ExecResult =
    | Ran(returnCode: int, stdout: string, stderr: string)   // success == (return_code == 0)
    | ExecError(error: string)                               // success == False
  {
    predicate Success() { Ran? && returnCode == 0 }
  }

  /**
   * `execute_java_program(jar_path, main_class, args)`: returns the command it
   * runs and the result dictionary; `main_class` is never used.
   */
  method ExecuteJavaProgram(jarPath: string, mainClass: string, args: Option<seq<string>>, run: RunOutcome)
    returns (cmd: seq<string>, r: ExecResult)
    ensures |cmd| >= 3 && cmd[..3] == ["java", "-jar", jarPath]
    ensures cmd[3..] == if args.Some? then args.value else []
    ensures r.Success() <==> run.Exited? && run.returnCode == 0
    ensures run.Exited? ==> r == Ran(run.returnCode, run.stdout, run.stderr)
    ensures run.TimedOut? ==> r == ExecError(TimeoutMessage)
    ensures run.RunRaised? ==> r == ExecError(run.e.message)
  {
    cmd := ["java", "-jar", jarPath];
    if args.Some? && args.value != [] {
      cmd := cmd + args.value;
    }
    match run
    case Exited(code, out, err) => r := Ran(code, out, err);
    case TimedOut => r := ExecError(TimeoutMessage);
    case RunRaised(e) => r := ExecError(e.message);
  }

  // ---------------------------------------------------------------------------
  // JavaBirdAnalyzer

  /** What importing and starting JPype would do in this process. */
  datatype JPype = JPype(importable: bool, jvmRunning: bool, startFailure: Option<Exc>, shutdownFailure: Option<Exc>)

  /** The outside world seen by one call of `_execute_java_subprocess`. */
  datatype SubprocessEnv = SubprocessEnv(
    create: Option<Exc>,          // NamedTemporaryFile raised
    tempName: string,             // f.name
    dump: Option<Exc>,            // json.dump raised
    run: RunOutcome,              // the child process
    parse: Result<Value, Exc>)    // json.loads(stdout)

  /** The subprocess path returns the Java program's answer exactly in this case. */
  predicate JavaAnswered(env: SubprocessEnv) {
    && env.create.None? && env.dump.None?
    && env.run.Exited? && env.run.returnCode == 0 && env.run.stdout != ""
    && env.parse.Ok?
  }

  /** What `except ImportError` catches: the class itself and its one built-in subclass. */
  predicate IsImportError(e: Exc) {
    e.kind == "ImportError" || e.kind == "ModuleNotFoundError"
  }

  /** `start_jvm` raises exactly in this case. */
  predicate StartRaises(wasStarted: bool, jp: JPype) {
    jp.importable && !wasStarted && !jp.jvmRunning && jp.startFailure.Some? && !IsImportError(jp.startFailure.value)
  }

  /** `jvm_started` after `analyze_feeding_patterns` has (possibly) called `start_jvm`. */
  function NextJvmStarted(wasStarted: bool, jp: JPype): bool {
    wasStarted || (jp.importable && !jp.jvmRunning && jp.startFailure.None?)
  }

  class JavaBirdAnalyzer {
    const jarPath: string
    var jvmStarted: bool
    /** Temporary payload files left on disk by this analyzer. */
    ghost var tempFilesOnDisk: nat

    constructor (jarPath: string)
      ensures this.jarPath == jarPath && !jvmStarted && tempFilesOnDisk == 0
    {
      this.jarPath := jarPath;
      jvmStarted := false;
      tempFilesOnDisk := 0;
    }

    /** `start_jvm`: an `ImportError` clears the flag; any other start failure is re-raised. */
    method StartJvm(jp: JPype) returns (raised: Option<Exc>)
      modifies this`jvmStarted
      ensures !jp.importable ==> !jvmStarted && raised.None?
      ensures jp.importable && (old(jvmStarted) || jp.jvmRunning) ==> jvmStarted == old(jvmStarted) && raised.None?
      ensures jp.importable && !old(jvmStarted) && !jp.jvmRunning ==>
                && jvmStarted == jp.startFailure.None?
                && raised == if jp.startFailure.Some? && !IsImportError(jp.startFailure.value) then jp.startFailure else None
    {
      raised := None;
      if !jp.importable {
        jvmStarted := false;
      } else if !jvmStarted && !jp.jvmRunning {
        if jp.startFailure.Some? {
          if IsImportError(jp.startFailure.value) {
            jvmStarted := false;
          } else {
            raised := jp.startFailure;
          }
        } else {
          jvmStarted := true;
        }
      }
    }

    /**
     * `shutdown_jvm`: clears the flag only when it was set and the JVM is
     * running and stops. A failing `shutdownJVM()` leaves the flag set; an
     * `ImportError` is swallowed and anything else is re-raised.
     */
    method ShutdownJvm(jp: JPype) returns (raised: Option<Exc>)
      modifies this`jvmStarted
      ensures jvmStarted == (old(jvmStarted) && !(jp.importable && jp.jvmRunning && jp.shutdownFailure.None?))
      ensures !old(jvmStarted) ==> !jvmStarted
      ensures raised == if jp.importable && old(jvmStarted) && jp.jvmRunning && jp.shutdownFailure.Some?
                           && !IsImportError(jp.shutdownFailure.value)
                        then jp.shutdownFailure else None
    {
      raised := None;
      if jp.importable && jvmStarted && jp.jvmRunning {
        if jp.shutdownFailure.Some? {
          if !IsImportError(jp.shutdownFailure.value) {
            raised := jp.shutdownFailure;
          }
        } else {
          jvmStarted := false;
        }
      }
    }

    /**
     * `_execute_java_subprocess` as written: the temporary file is created by
     * the `with` block before the `try`/`finally` that removes it, so a
     * failing `json.dump` leaves it on disk.
     */
    method ExecuteJavaSubprocessAsWritten(data: seq<Record>, env: SubprocessEnv) returns (r: Result<Analysis, Exc>)
      modifies this`tempFilesOnDisk
      ensures tempFilesOnDisk == old(tempFilesOnDisk) + (if env.create.None? && env.dump.Some? then 1 else 0)
      ensures JavaAnswered(env) ==> r == Ok(FromJava(env.parse.value))
      ensures !JavaAnswered(env) ==> SimulationOf(data, r)
    {
      if env.create.Some? {
        r := SimulateJavaAnalysis(data);
        return;
      }
      tempFilesOnDisk := tempFilesOnDisk + 1;
      if env.dump.Some? {
        r := SimulateJavaAnalysis(data);
        return;
      }
      r := RunAndRemove(data, env);
    }

    /**
     * `_execute_java_subprocess` with the file's removal guarded from the
     * moment it exists: same results, and no file is ever left behind.
     */
    method ExecuteJavaSubprocess(data: seq<Record>, env: SubprocessEnv) returns (r: Result<Analysis, Exc>)
      modifies this`tempFilesOnDisk
      ensures tempFilesOnDisk == old(tempFilesOnDisk)
      ensures JavaAnswered(env) ==> r == Ok(FromJava(env.parse.value))
      ensures !JavaAnswered(env) ==> SimulationOf(data, r)
    {
      if env.create.Some? {
        r := SimulateJavaAnalysis(data);
        return;
      }
      tempFilesOnDisk := tempFilesOnDisk + 1;
      if env.dump.Some? {
        tempFilesOnDisk := tempFilesOnDisk - 1;
        r := SimulateJavaAnalysis(data);
        return;
      }
      r := RunAndRemove(data, env);
    }

    /** The inner `try`/`finally` once the payload is on disk, and the outer `except` around it. */
    method RunAndRemove(data: seq<Record>, env: SubprocessEnv) returns (r: Result<Analysis, Exc>)
      requires env.create.None? && env.dump.None? && tempFilesOnDisk > 0
      modifies this`tempFilesOnDisk
      ensures tempFilesOnDisk == old(tempFilesOnDisk) - 1
      ensures JavaAnswered(env) ==> r == Ok(FromJava(env.parse.value))
      ensures !JavaAnswered(env) ==> SimulationOf(data, r)
    {
      var cmd, result := ExecuteJavaProgram(jarPath, BirdAnalyzerClass, Some([env.tempName]), env.run);
      var raised := false;
      if result.Success() && result.stdout != "" {
        match env.parse
        case Ok(v) => r := Ok(FromJava(v));
        case Err(_) => raised := true;
      } else {
        r := SimulateJavaAnalysis(data);
        raised := r.Err?;
      }
      tempFilesOnDisk := tempFilesOnDisk - 1;
      if raised {
        r := SimulateJavaAnalysis(data);
      }
    }

    /**
     * `analyze_feeding_patterns`: JPype path, else the subprocess path; a
     * start failure other than `ImportError` propagates. With `corrected`
     * false the subprocess path is the one written, which can leave its
     * temporary file behind; with `corrected` true it is the repaired one.
     */
    method AnalyzeFeedingPatterns(data: seq<Record>, jp: JPype, env: SubprocessEnv, corrected: bool)
      returns (r: Result<Analysis, Exc>)
      modifies this`jvmStarted, this`tempFilesOnDisk
      ensures jvmStarted == NextJvmStarted(old(jvmStarted), jp)
      ensures tempFilesOnDisk == old(tempFilesOnDisk)
                + (if !corrected && !StartRaises(old(jvmStarted), jp) && !jp.importable
                      && env.create.None? && env.dump.Some? then 1 else 0)
      ensures StartRaises(old(jvmStarted), jp) ==> r == Err(jp.startFailure.value)
      ensures !StartRaises(old(jvmStarted), jp) && jp.importable ==> r.Ok? && CaughtSimulationOf(data, r.value)
      ensures !StartRaises(old(jvmStarted), jp) && !jp.importable ==>
                r.Ok? && if JavaAnswered(env) then r.value == FromJava(env.parse.value)
                         else CaughtSimulationOf(data, r.value)
    {
      if !jvmStarted {
        var raised := StartJvm(jp);
        if raised.Some? {
          return Err(raised.value);
        }
      }
      var s;
      if jp.importable {
        s := SimulateJavaAnalysis(data);
      } else if corrected {
        s := ExecuteJavaSubprocess(data, env);
      } else {
        s := ExecuteJavaSubprocessAsWritten(data, env);
      }
      if !JavaAnswered(env) || jp.importable {
        CatchSimulation(data, s);
      }
      r := Ok(Catch(s));
    }
  }

  /**
   * A payload that `json.dump` refuses: the path as written leaves one
   * temporary file behind, the corrected one none; both fall back on the
   * simulation.
   */
  method DumpFailureLeaksTempFile(data: seq<Record>)
    returns (r: Result<Analysis, Exc>, ghost leftAsWritten: nat, ghost leftCorrected: nat)
    ensures leftAsWritten == 1 && leftCorrected == 0
    ensures SimulationOf(data, r)
  {
    var analyzer := new JavaBirdAnalyzer(DefaultAnalyzerJar);
    var env := SubprocessEnv(None, "/tmp/payload.json", Some(Exc("TypeError", "Object of type datetime is not JSON serializable")),
                             TimedOut, Err(Exc("JSONDecodeError", "")));
    r := analyzer.ExecuteJavaSubprocessAsWritten(data, env);
    leftAsWritten := analyzer.tempFilesOnDisk;
    var fixed := new JavaBirdAnalyzer(DefaultAnalyzerJar);
    var _ := fixed.ExecuteJavaSubprocess(data, env);
    leftCorrected := fixed.tempFilesOnDisk;
  }
}
