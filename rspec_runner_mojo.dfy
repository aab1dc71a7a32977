/** The `spec` goal of the RSpec Maven plugin: guard on `skipTests` and `jrubyHome`,
    prepare a JRuby runtime from the test classpath, run RSpec over the source directory
    into an HTML report, decide from the report whether a spec failed, and turn that
    into the build's outcome. */
module RspecRunnerMojo {
  import opened Strings
  import opened JRuby
  import opened Maven

  datatype Option<T> = None | Some(value: T)

  /** A value, or the message of the exception raised instead of it. */
  datatype Result<T> = Ok(value: T) | Err(message: string)

  /** The mojo's parameters, as Maven has injected them. `jrubyHome` is the only one
      that `execute` ever finds missing. */
  datatype Config = Config(
    classpathElements: seq<string>,
    sourceDirectory: string,
    outputDirectory: string,
    reportName: string,
    jrubyHome: Option<string>,
    ignoreFailure: bool,
    skipTests: bool)

  /** What one call of `execute` does, seen from outside: how it ends, what it logs, and
      the calls made on the runtime it creates (`None` when it creates none). */
  datatype Run = Run(outcome: Outcome, log: seq<LogEntry>, calls: Option<seq<Call>>)

  /** What the result policy decides: how `execute` ends and what it logs on the way. */
  datatype Verdict = Verdict(outcome: Outcome, log: seq<LogEntry>)

  const JarSuffix: string := ".jar"
  const SkipMessage: string := "Skipping RSpec tests"
  const HomeMissingMessage: string := "$JRUBY_HOME or jrubyHome directory not specified"
  const VerifyingMessage: string := "Verifying if there were failures"

  /** The text whose presence in the report means that no spec failed. */
  const ZeroFailures: string := ", 0 failures"

  /** The first lines of the RSpec prologue, before the two spliced-in assignments. */
  const SpecRequires: string := "require 'rubygems'\nrequire 'spec'\n"

  /** The last lines of the RSpec prologue: parse the options and run the specs. */
  const RunnerLines: string :=
    "options = ::Spec::Runner::OptionParser.parse([spec_dir, '-f', \"html#{@report_file}\"], STDERR, STDOUT)\n"
    + "::Spec::Runner::CommandLine.run(options)\n"

  /** The second scriptlet: true exactly when the report does not mention ", 0 failures". */
  const FailureCheckScript: string :=
    "if File.new(@report_file, 'r').read =~ /, 0 failures/ \n" + " false\n" + "else\n" + " true\n" + "end"

  function RunningMessage(sourceDirectory: string): string {
    "Running RSpec tests from " + sourceDirectory
  }

  function HomeMessage(home: string): string {
    "JRuby Home: " + home
  }

  function AddingMessage(path: string): string {
    "Adding to Ruby Class Loader: " + path
  }

  function FailureMessage(reportPath: string): string {
    "RSpec tests failed. See '" + reportPath + "' for details."
  }

  function SuccessMessage(reportPath: string): string {
    "RSpec tests successful. See '" + reportPath + "' for details."
  }

  // ---------------------------------------------------------------------------
  // Classpath partition

  /** A classpath entry is treated as a jar exactly when its name ends in ".jar". */
  predicate IsJar(path: string) {
    EndsWith(path, JarSuffix)
  }

  /** The jar entries of a classpath, in classpath order. */
  function Jars(classpath: seq<string>): seq<string> {
    if classpath == [] then []
    else (if IsJar(classpath[0]) then [classpath[0]] else []) + Jars(classpath[1..])
  }

  /** The entries that are not jars (directories), in classpath order. */
  function Directories(classpath: seq<string>): seq<string> {
    if classpath == [] then []
    else (if IsJar(classpath[0]) then [] else [classpath[0]]) + Directories(classpath[1..])
  }

  /** The Ruby line that loads one jar. */
  function RequireLine(path: string): string {
    "require '" + path + "'\n"
  }

  /** One require line per path, in order. */
  function Requires(paths: seq<string>): string {
    if paths == [] then "" else RequireLine(paths[0]) + Requires(paths[1..])
  }

  /** The URL under which a directory is added to the class loader. */
  function FileUrl(path: string): string {
    "file:" + path + "/"
  }

  function FileUrls(paths: seq<string>): seq<string> {
    if paths == [] then [] else [FileUrl(paths[0])] + FileUrls(paths[1..])
  }

  /** The info lines logged while adding `paths` to the class loader. */
  function AddingLog(paths: seq<string>): seq<LogEntry> {
    if paths == [] then [] else [Info(AddingMessage(paths[0]))] + AddingLog(paths[1..])
  }

  /** A directory entry whose URL the URL parser rejects. `urlErrors` maps each URL
      spelling the parser rejects to the message of its `MalformedURLException`. */
  predicate Rejected(path: string, urlErrors: map<string, string>) {
    !IsJar(path) && FileUrl(path) in urlErrors
  }

  /** The position of the first rejected entry, or the classpath's length if there is none. */
  function FirstRejected(classpath: seq<string>, urlErrors: map<string, string>): (k: nat)
    ensures k <= |classpath|
    ensures forall i :: 0 <= i < k ==> !Rejected(classpath[i], urlErrors)
    ensures k < |classpath| ==> Rejected(classpath[k], urlErrors)
  {
    if classpath == [] then 0
    else if Rejected(classpath[0], urlErrors) then 0
    else 1 + FirstRejected(classpath[1..], urlErrors)
  }

  /** The entries the loop reaches when it stops at position `k`: those before it and,
      if the loop fails there, the failing one. */
  function Attempted(classpath: seq<string>, k: nat): seq<string>
    requires k <= |classpath|
  {
    if k < |classpath| then classpath[..k + 1] else classpath
  }

  /** The entry the loop fails at is the first rejected one. */
  lemma StopsAtFirstRejected(classpath: seq<string>, i: nat, urlErrors: map<string, string>)
    requires i <= FirstRejected(classpath, urlErrors)
    requires i < |classpath| ==> Rejected(classpath[i], urlErrors)
    ensures FirstRejected(classpath, urlErrors) == i
    ensures Attempted(classpath, i) == if i < |classpath| then classpath[..i + 1] else classpath[..i]
  {
    assert i == |classpath| ==> classpath[..i] == classpath;
  }

  /** The loop goes past an entry that is not rejected. */
  lemma PassesUnrejected(classpath: seq<string>, i: nat, urlErrors: map<string, string>)
    requires i <= FirstRejected(classpath, urlErrors) && i < |classpath|
    requires !Rejected(classpath[i], urlErrors)
    ensures i + 1 <= FirstRejected(classpath, urlErrors)
  {
  }

  lemma PartitionAppend(a: seq<string>, b: seq<string>)
    ensures Jars(a + b) == Jars(a) + Jars(b)
    ensures Directories(a + b) == Directories(a) + Directories(b)
  {
    JarsAppend(a, b);
    DirectoriesAppend(a, b);
  }

  lemma {:induction false} JarsAppend(a: seq<string>, b: seq<string>)
    ensures Jars(a + b) == Jars(a) + Jars(b)
  {
    if a == [] {
      assert a + b == b;
    } else {
      assert (a + b)[0] == a[0];
      assert (a + b)[1..] == a[1..] + b;
      JarsAppend(a[1..], b);
    }
  }

  lemma {:induction false} DirectoriesAppend(a: seq<string>, b: seq<string>)
    ensures Directories(a + b) == Directories(a) + Directories(b)
  {
    if a == [] {
      assert a + b == b;
    } else {
      assert (a + b)[0] == a[0];
      assert (a + b)[1..] == a[1..] + b;
      DirectoriesAppend(a[1..], b);
    }
  }

  lemma {:induction false} RequiresAppend(a: seq<string>, b: seq<string>)
    ensures Requires(a + b) == Requires(a) + Requires(b)
  {
    if a == [] {
      assert a + b == b;
    } else {
      assert (a + b)[0] == a[0];
      assert (a + b)[1..] == a[1..] + b;
      RequiresAppend(a[1..], b);
    }
  }

  lemma {:induction false} FileUrlsAppend(a: seq<string>, b: seq<string>)
    ensures FileUrls(a + b) == FileUrls(a) + FileUrls(b)
  {
    if a == [] {
      assert a + b == b;
    } else {
      assert (a + b)[0] == a[0];
      assert (a + b)[1..] == a[1..] + b;
      FileUrlsAppend(a[1..], b);
    }
  }

  lemma {:induction false} AddingLogAppend(a: seq<string>, b: seq<string>)
    ensures AddingLog(a + b) == AddingLog(a) + AddingLog(b)
  {
    if a == [] {
      assert a + b == b;
    } else {
      assert (a + b)[0] == a[0];
      assert (a + b)[1..] == a[1..] + b;
      AddingLogAppend(a[1..], b);
    }
  }

  /** How the partition of a classpath prefix grows by one entry. */
  lemma PartitionStep(classpath: seq<string>, i: nat)
    requires i < |classpath|
    ensures Jars(classpath[..i + 1]) == Jars(classpath[..i]) + (if IsJar(classpath[i]) then [classpath[i]] else [])
    ensures Directories(classpath[..i + 1]) == Directories(classpath[..i]) + (if IsJar(classpath[i]) then [] else [classpath[i]])
  {
    assert classpath[..i + 1] == classpath[..i] + [classpath[i]];
    PartitionAppend(classpath[..i], [classpath[i]]);
  }

  lemma RequiresSnoc(paths: seq<string>, path: string)
    ensures Requires(paths + [path]) == Requires(paths) + RequireLine(path)
  {
    RequiresAppend(paths, [path]);
    assert Requires([path]) == RequireLine(path) + Requires([]);
  }

  lemma AddingLogSnoc(paths: seq<string>, path: string)
    ensures AddingLog(paths + [path]) == AddingLog(paths) + [Info(AddingMessage(path))]
  {
    AddingLogAppend(paths, [path]);
    assert AddingLog([path]) == [Info(AddingMessage(path))] + AddingLog([]);
  }

  lemma FileUrlsSnoc(paths: seq<string>, path: string)
    ensures FileUrls(paths + [path]) == FileUrls(paths) + [FileUrl(path)]
  {
    FileUrlsAppend(paths, [path]);
    assert FileUrls([path]) == [FileUrl(path)] + FileUrls([]);
  }

  lemma AddUrlCallsSnoc(urls: seq<string>, url: string)
    ensures AddUrlCalls(urls + [url]) == AddUrlCalls(urls) + [AddUrl(url)]
  {
    AddUrlCallsAppend(urls, [url]);
    assert AddUrlCalls([url]) == [AddUrl(url)] + AddUrlCalls([]);
  }

  // ---------------------------------------------------------------------------
  // Script composition and the two decisions

  /** Where RSpec writes its HTML report. */
  function ReportPath(outputDirectory: string, reportName: string): string {
    outputDirectory + "/" + reportName
  }

  function SpecDirLine(sourceDirectory: string): string {
    "spec_dir = '" + sourceDirectory + "'\n"
  }

  function ReportFileLine(reportPath: string): string {
    "@report_file = '" + reportPath + "'\n"
  }

  /** The first scriptlet: the jar require lines, then the RSpec prologue with the source
      directory and the report path spliced in. */
  function MainScript(jarRequires: string, sourceDirectory: string, reportPath: string): string {
    jarRequires + SpecRequires + SpecDirLine(sourceDirectory) + ReportFileLine(reportPath) + RunnerLines
  }

  /** What the failure-check scriptlet evaluates to for a report with this text. */
  predicate ReportFailed(report: string) {
    !Contains(report, ZeroFailures)
  }

  /** The three-way decision at the end of `execute`. */
  function ResultPolicy(failure: bool, ignoreFailure: bool, reportPath: string): (v: Verdict)
    ensures v.outcome.FailureException? <==> failure && !ignoreFailure
    ensures v.outcome.Returned? <==> !failure || ignoreFailure
    ensures v.outcome.FailureException? ==> v.outcome.message == FailureMessage(reportPath)
    ensures |v.log| == 1 && (v.log[0].Warn? <==> failure)
    ensures failure ==> v.log[0].message == FailureMessage(reportPath)
    ensures !failure ==> v.log[0] == Info(SuccessMessage(reportPath))
    ensures Contains(v.log[0].message, reportPath)
  {
    if failure then
      var message := FailureMessage(reportPath);
      ContainsInfix("RSpec tests failed. See '", reportPath, "' for details.");
      Verdict(if ignoreFailure then Returned else FailureException(message), [Warn(message)])
    else
      ContainsInfix("RSpec tests successful. See '", reportPath, "' for details.");
      Verdict(Returned, [Info(SuccessMessage(reportPath))])
  }

  // ---------------------------------------------------------------------------
  // The whole of `execute`

  /** Everything one call of `execute` does, given the text RSpec writes to the report
      and the URL spellings the URL parser rejects. */
  function Expected(cfg: Config, report: string, urlErrors: map<string, string>): Run {
    if cfg.skipTests then
      Run(Returned, [Info(SkipMessage)], None)
    else if cfg.jrubyHome.None? then
      Run(ExecutionException(HomeMissingMessage), [Info(RunningMessage(cfg.sourceDirectory))], None)
    else
      var classpath := cfg.classpathElements;
      var home := cfg.jrubyHome.value;
      var k := FirstRejected(classpath, urlErrors);
      var setupLog := [Info(RunningMessage(cfg.sourceDirectory))] + [Info(HomeMessage(home))]
                      + AddingLog(Directories(Attempted(classpath, k)));
      var setupCalls := [SetHome(home)] + [InitLoadService(classpath)]
                        + AddUrlCalls(FileUrls(Directories(classpath[..k])));
      if k < |classpath| then
        Run(ExecutionException(urlErrors[FileUrl(classpath[k])]), setupLog, Some(setupCalls))
      else
        var reportPath := ReportPath(cfg.outputDirectory, cfg.reportName);
        var verdict := ResultPolicy(ReportFailed(report), cfg.ignoreFailure, reportPath);
        var script := MainScript(Requires(Jars(classpath)), cfg.sourceDirectory, reportPath);
        Run(verdict.outcome,
            setupLog + [Info(VerifyingMessage)] + verdict.log,
            Some(setupCalls + [Eval(script)] + [Eval(FailureCheckScript)]))
  }

  /** `handleClasspathElements`: walks the classpath in order, collecting a require line
      for each jar and adding a `file:` URL to the runtime's class loader for every other
      entry; stops with the parser's message at the first URL it cannot build. */
  method HandleClasspathElements(classpathElements: seq<string>, runtime: Ruby, urlErrors: map<string, string>)
      returns (script: Result<string>, log: seq<LogEntry>)
    modifies runtime
    ensures var k := FirstRejected(classpathElements, urlErrors);
      runtime.calls == old(runtime.calls) + AddUrlCalls(FileUrls(Directories(classpathElements[..k])))
    ensures log == AddingLog(Directories(Attempted(classpathElements, FirstRejected(classpathElements, urlErrors))))
    ensures var k := FirstRejected(classpathElements, urlErrors);
      k < |classpathElements| ==> script == Err(urlErrors[FileUrl(classpathElements[k])])
    ensures FirstRejected(classpathElements, urlErrors) == |classpathElements| ==>
      script == Ok(Requires(Jars(classpathElements)))
  {
    ghost var calls0 := runtime.calls;
    ghost var jars: seq<string> := [];
    ghost var dirs: seq<string> := [];
    var builder := "";
    log := [];
    var i := 0;
    while i < |classpathElements|
      invariant 0 <= i <= |classpathElements|
      invariant i <= FirstRejected(classpathElements, urlErrors)
      invariant jars == Jars(classpathElements[..i]) && dirs == Directories(classpathElements[..i])
      invariant builder == Requires(jars)
      invariant log == AddingLog(dirs)
      invariant runtime.calls == calls0 + AddUrlCalls(FileUrls(dirs))
    {
      var path := classpathElements[i];
      PartitionStep(classpathElements, i);
      if IsJar(path) {
        PassesUnrejected(classpathElements, i, urlErrors);
        RequiresSnoc(jars, path);
        jars := jars + [path];
        builder := builder + RequireLine(path);
      } else {
        AddingLogSnoc(dirs, path);
        FileUrlsSnoc(dirs, path);
        AddUrlCallsSnoc(FileUrls(dirs), FileUrl(path));
        dirs := dirs + [path];
        log := log + [Info(AddingMessage(path))];
        var url := FileUrl(path);
        if url in urlErrors {
          StopsAtFirstRejected(classpathElements, i, urlErrors);
          script := Err(urlErrors[url]);
          return;
        }
        PassesUnrejected(classpathElements, i, urlErrors);
        runtime.ClassLoaderAddUrl(url);
      }
      i := i + 1;
    }
    StopsAtFirstRejected(classpathElements, i, urlErrors);
    script := Ok(builder);
  }

  /** `execute`. The runtime it creates, if any, is returned so that the calls made on
      it can be stated. */
  method Execute(cfg: Config, report: string, urlErrors: map<string, string>)
      returns (outcome: Outcome, log: seq<LogEntry>, runtime: Ruby?)
    ensures outcome == Expected(cfg, report, urlErrors).outcome
    ensures log == Expected(cfg, report, urlErrors).log
    ensures runtime == null <==> Expected(cfg, report, urlErrors).calls.None?
    ensures runtime != null ==> fresh(runtime) && runtime.calls == Expected(cfg, report, urlErrors).calls.value
  {
    runtime := null;
    if cfg.skipTests {
      log := [Info(SkipMessage)];
      outcome := Returned;
      return;
    }
    log := [Info(RunningMessage(cfg.sourceDirectory))];

    if cfg.jrubyHome.None? {
      outcome := ExecutionException(HomeMissingMessage);
      return;
    }
    var home := cfg.jrubyHome.value;
    runtime := new Ruby.NewInstance();
    log := log + [Info(HomeMessage(home))];
    runtime.SetJRubyHome(home);
    runtime.LoadServiceInit(cfg.classpathElements);
    assert runtime.calls == [SetHome(home)] + [InitLoadService(cfg.classpathElements)];

    // Build the Ruby script that runs the specs
    var script: string := [];
    var jarRequires, classLoaderLog := HandleClasspathElements(cfg.classpathElements, runtime, urlErrors);
    log := log + classLoaderLog;
    if jarRequires.Err? {
      outcome := ExecutionException(jarRequires.message);
      return;
    }
    script := script + jarRequires.value;
    assert script == jarRequires.value;

    // Run all specs
    var reportPath := ReportPath(cfg.outputDirectory, cfg.reportName);
    script := script + SpecRequires;
    script := script + SpecDirLine(cfg.sourceDirectory);
    script := script + ReportFileLine(reportPath);
    script := script + RunnerLines;
    assert script == MainScript(Requires(Jars(cfg.classpathElements)), cfg.sourceDirectory, reportPath);
    runtime.EvalScriptlet(script);

    log := log + [Info(VerifyingMessage)];
    script := FailureCheckScript;
    runtime.EvalScriptlet(script);
    var failure := ReportFailed(report);

    if failure {
      var message := FailureMessage(reportPath);
      log := log + [Warn(message)];
      if !cfg.ignoreFailure {
        outcome := FailureException(message);
        return;
      }
      outcome := Returned;
    } else {
      log := log + [Info(SuccessMessage(reportPath))];
      outcome := Returned;
    }
  }
}
