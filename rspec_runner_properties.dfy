/** What `execute` and `handleClasspathElements` promise, stated over the model. */
module RspecRunnerProperties {
  import opened Strings
  import opened JRuby
  import opened Maven
  import opened RspecRunnerMojo

  // ---------------------------------------------------------------------------
  // The two guards

  /** With `skipTests` set, `execute` logs the skip notice and returns: no runtime is
      created, and neither `jrubyHome` nor any other parameter is looked at. */
  lemma SkipTestsDoesNothing(cfg: Config, report: string, urlErrors: map<string, string>, other: Config)
    requires cfg.skipTests && other.skipTests
    ensures Expected(cfg, report, urlErrors) == Run(Returned, [Info(SkipMessage)], None)
    ensures Expected(other, "", map[]) == Expected(cfg, report, urlErrors)
  {
  }

  /** Without `jrubyHome`, `execute` throws the configuration error before creating a
      runtime, whatever the classpath and whatever `ignoreFailure` says. */
  lemma MissingHomeStopsBeforeRuntime(cfg: Config, report: string, urlErrors: map<string, string>)
    requires !cfg.skipTests && cfg.jrubyHome.None?
    ensures Expected(cfg, report, urlErrors)
            == Run(ExecutionException(HomeMissingMessage), [Info(RunningMessage(cfg.sourceDirectory))], None)
  {
  }

  // ---------------------------------------------------------------------------
  // The runtime's trace

  /** Once past the guards, a runtime is created; its home is set once, to `jrubyHome`,
      and its load service is initialised once, with the unmodified classpath, and both
      happen before any URL is added to its class loader. */
  lemma LoadServiceGetsWholeClasspathFirst(cfg: Config, report: string, urlErrors: map<string, string>)
    requires !cfg.skipTests && cfg.jrubyHome.Some?
    ensures Expected(cfg, report, urlErrors).calls.Some?
    ensures var calls := Expected(cfg, report, urlErrors).calls.value;
      && |calls| >= 2
      && calls[0] == SetHome(cfg.jrubyHome.value)
      && calls[1] == InitLoadService(cfg.classpathElements)
      && Homes(calls) == [cfg.jrubyHome.value]
      && LoadPaths(calls) == [cfg.classpathElements]
      && (forall i :: 0 <= i < |calls| && calls[i].AddUrl? ==> 2 <= i)
  {
    var cp := cfg.classpathElements;
    var k := FirstRejected(cp, urlErrors);
    var setup := [SetHome(cfg.jrubyHome.value)] + [InitLoadService(cp)] + AddUrlCalls(FileUrls(Directories(cp[..k])));
    SetupRecords(cfg.jrubyHome.value, cp, FileUrls(Directories(cp[..k])));
    if k == |cp| {
      var rp := ReportPath(cfg.outputDirectory, cfg.reportName);
      TwoScriptletsRecords(setup, MainScript(Requires(Jars(cp)), cfg.sourceDirectory, rp), FailureCheckScript);
    }
  }

  /** A run that gets through the classpath adds one `file:` URL per directory entry, in
      classpath order, and evaluates exactly two scriptlets: the main script, then the
      failure check. */
  lemma CompletedRunTrace(cfg: Config, report: string, urlErrors: map<string, string>)
    requires !cfg.skipTests && cfg.jrubyHome.Some?
    requires FirstRejected(cfg.classpathElements, urlErrors) == |cfg.classpathElements|
    ensures Expected(cfg, report, urlErrors).calls.Some?
    ensures var calls := Expected(cfg, report, urlErrors).calls.value;
      var rp := ReportPath(cfg.outputDirectory, cfg.reportName);
      && ClassLoaderUrls(calls) == FileUrls(Directories(cfg.classpathElements))
      && Scriptlets(calls)
         == [MainScript(Requires(Jars(cfg.classpathElements)), cfg.sourceDirectory, rp), FailureCheckScript]
      && calls[|calls| - 1] == Eval(FailureCheckScript)
  {
    var cp := cfg.classpathElements;
    assert cp[..|cp|] == cp;
    var setup := [SetHome(cfg.jrubyHome.value)] + [InitLoadService(cp)] + AddUrlCalls(FileUrls(Directories(cp)));
    SetupRecords(cfg.jrubyHome.value, cp, FileUrls(Directories(cp)));
    var rp := ReportPath(cfg.outputDirectory, cfg.reportName);
    TwoScriptletsRecords(setup, MainScript(Requires(Jars(cp)), cfg.sourceDirectory, rp), FailureCheckScript);
  }

  /** A directory URL the URL parser rejects ends `execute` with the parser's message:
      the URLs of the directories before it have been added, and no scriptlet is run. */
  lemma RejectedUrlStopsBeforeScripts(cfg: Config, report: string, urlErrors: map<string, string>)
    requires !cfg.skipTests && cfg.jrubyHome.Some?
    requires FirstRejected(cfg.classpathElements, urlErrors) < |cfg.classpathElements|
    ensures var k := FirstRejected(cfg.classpathElements, urlErrors);
      var r := Expected(cfg, report, urlErrors);
      && r.outcome == ExecutionException(urlErrors[FileUrl(cfg.classpathElements[k])])
      && r.calls.Some?
      && ClassLoaderUrls(r.calls.value) == FileUrls(Directories(cfg.classpathElements[..k]))
      && Scriptlets(r.calls.value) == []
  {
    var cp := cfg.classpathElements;
    var k := FirstRejected(cp, urlErrors);
    SetupRecords(cfg.jrubyHome.value, cp, FileUrls(Directories(cp[..k])));
  }

  /** `ignoreFailure` never turns an error of the configuration or of the classpath into
      a normal return. */
  lemma IgnoreFailureKeepsErrors(cfg: Config, report: string, urlErrors: map<string, string>, ignore: bool)
    requires Expected(cfg, report, urlErrors).outcome.ExecutionException?
    ensures Expected(cfg.(ignoreFailure := ignore), report, urlErrors).outcome
            == Expected(cfg, report, urlErrors).outcome
  {
  }

  // ---------------------------------------------------------------------------
  // The classpath partition

  /** Every classpath entry lands in exactly one of the two outputs: the jars are the
      entries ending in ".jar", the directories are all the others. */
  lemma {:induction false} PartitionCoversClasspath(classpath: seq<string>)
    ensures multiset(Jars(classpath)) + multiset(Directories(classpath)) == multiset(classpath)
    ensures forall p :: p in Jars(classpath) <==> p in classpath && IsJar(p)
    ensures forall p :: p in Directories(classpath) <==> p in classpath && !IsJar(p)
  {
    if classpath != [] {
      PartitionCoversClasspath(classpath[1..]);
      assert classpath == [classpath[0]] + classpath[1..];
    }
  }

  /** Both outputs keep classpath order: the outputs for a concatenation are those of its
      parts, one after the other. */
  lemma PartitionKeepsOrder(a: seq<string>, b: seq<string>)
    ensures Jars(a + b) == Jars(a) + Jars(b)
    ensures Directories(a + b) == Directories(a) + Directories(b)
    ensures Requires(Jars(a + b)) == Requires(Jars(a)) + Requires(Jars(b))
    ensures FileUrls(Directories(a + b)) == FileUrls(Directories(a)) + FileUrls(Directories(b))
  {
    PartitionAppend(a, b);
    RequiresAppend(Jars(a), Jars(b));
    FileUrlsAppend(Directories(a), Directories(b));
  }

  /** The require script holds a require line for each jar. */
  lemma {:induction false} RequiresNameEveryJar(paths: seq<string>)
    ensures forall i :: 0 <= i < |paths| ==> Contains(Requires(paths), RequireLine(paths[i]))
  {
    if paths != [] {
      RequiresNameEveryJar(paths[1..]);
      ContainsInfix("", RequireLine(paths[0]), Requires(paths[1..]));
      assert "" + RequireLine(paths[0]) + Requires(paths[1..]) == Requires(paths);
      forall i | 1 <= i < |paths|
        ensures Contains(Requires(paths), RequireLine(paths[i]))
      {
        assert paths[1..][i - 1] == paths[i];
        ContainsAfter(RequireLine(paths[0]), Requires(paths[1..]), RequireLine(paths[i]));
      }
    }
  }

  lemma ContainsAfter(a: string, b: string, pat: string)
    requires Contains(b, pat)
    ensures Contains(a + b, pat)
  {
    ContainsIff(b, pat);
    var i :| OccursAt(b, i, pat);
    assert (a + b)[|a| + i..|a| + i + |pat|] == b[i..i + |pat|];
    assert OccursAt(a + b, |a| + i, pat);
    ContainsIff(a + b, pat);
  }

  /** Each directory entry gives one class-loader URL, `file:<path>/`, at its own position. */
  lemma DirectoryUrlsAreFileUrls(classpath: seq<string>)
    ensures |FileUrls(Directories(classpath))| == |Directories(classpath)|
    ensures forall i :: 0 <= i < |Directories(classpath)| ==>
      FileUrls(Directories(classpath))[i] == "file:" + Directories(classpath)[i] + "/"
  {
    FileUrlsAt(Directories(classpath));
  }

  lemma {:induction false} FileUrlsAt(paths: seq<string>)
    ensures |FileUrls(paths)| == |paths|
    ensures forall i :: 0 <= i < |paths| ==> FileUrls(paths)[i] == FileUrl(paths[i])
  {
    if paths != [] {
      FileUrlsAt(paths[1..]);
    }
  }

  /** Without rejected URLs the loop gets through the whole classpath. */
  lemma NothingRejectedWithoutUrlErrors(classpath: seq<string>)
    ensures FirstRejected(classpath, map[]) == |classpath|
  {
  }

  // ---------------------------------------------------------------------------
  // The main script

  /** The main script starts with the jar require lines; then come the RSpec requires,
      `spec_dir = '<sourceDirectory>'`, `@report_file = '<reportPath>'`, in that order, and
      it ends with the OptionParser and CommandLine lines. */
  lemma MainScriptLayout(jarRequires: string, sourceDirectory: string, reportPath: string)
    ensures var script := MainScript(jarRequires, sourceDirectory, reportPath);
      var specDirAt := |jarRequires| + |SpecRequires|;
      var reportAt := specDirAt + |SpecDirLine(sourceDirectory)|;
      && OccursAt(script, 0, jarRequires)
      && OccursAt(script, |jarRequires|, SpecRequires)
      && OccursAt(script, specDirAt, SpecDirLine(sourceDirectory))
      && OccursAt(script, reportAt, ReportFileLine(reportPath))
      && reportAt + |ReportFileLine(reportPath)| + |RunnerLines| == |script|
      && EndsWith(script, RunnerLines)
      && Contains(script, reportPath)
  {
    var a := jarRequires + SpecRequires;
    var b := a + SpecDirLine(sourceDirectory);
    var c := b + ReportFileLine(reportPath);
    OccursAtStart(jarRequires, SpecRequires);
    OccursExtended(a, 0, jarRequires, SpecDirLine(sourceDirectory));
    OccursExtended(b, 0, jarRequires, ReportFileLine(reportPath));
    OccursExtended(c, 0, jarRequires, RunnerLines);
    OccursAtEnd(jarRequires, SpecRequires);
    OccursExtended(a, |jarRequires|, SpecRequires, SpecDirLine(sourceDirectory));
    OccursExtended(b, |jarRequires|, SpecRequires, ReportFileLine(reportPath));
    OccursExtended(c, |jarRequires|, SpecRequires, RunnerLines);
    OccursAtEnd(a, SpecDirLine(sourceDirectory));
    OccursExtended(b, |a|, SpecDirLine(sourceDirectory), ReportFileLine(reportPath));
    OccursExtended(c, |a|, SpecDirLine(sourceDirectory), RunnerLines);
    OccursAtEnd(b, ReportFileLine(reportPath));
    OccursExtended(c, |b|, ReportFileLine(reportPath), RunnerLines);
    EndsWithAppended(c, RunnerLines);
    OccursAtEnd("@report_file = '", reportPath);
    OccursExtended("@report_file = '" + reportPath, |"@report_file = '"|, reportPath, "'\n");
    OccursWithin(c + RunnerLines, |b|, ReportFileLine(reportPath), |"@report_file = '"|, reportPath);
    ContainsIff(c + RunnerLines, reportPath);
  }

  /** The report path is the output directory, a slash, and the report name. */
  lemma ReportPathParts(outputDirectory: string, reportName: string)
    ensures var rp := ReportPath(outputDirectory, reportName);
      && |rp| == |outputDirectory| + 1 + |reportName|
      && OccursAt(rp, 0, outputDirectory)
      && rp[|outputDirectory|] == '/'
      && EndsWith(rp, reportName)
  {
    EndsWithAppended(outputDirectory + "/", reportName);
  }

  // ---------------------------------------------------------------------------
  // The failure decision and the result policy

  /** The failure flag is set exactly when ", 0 failures" occurs nowhere in the report. */
  lemma FailureFlagIff(report: string)
    ensures ReportFailed(report) <==> forall i :: !OccursAt(report, i, ZeroFailures)
  {
    ContainsIff(report, ZeroFailures);
  }

  /** A report that says ", 0 failures" anywhere counts as passing. */
  lemma ZeroFailuresPasses(before: string, after: string)
    ensures !ReportFailed(before + ZeroFailures + after)
  {
    ContainsInfix(before, ZeroFailures, after);
  }

  /** The three outcomes of a run that got through the classpath: failing specs throw
      `MojoFailureException` unless `ignoreFailure`, which logs the same message as a
      warning and returns; passing specs log success and return. Every one of them names
      the report path in its last log line. */
  lemma CompletedRunOutcome(cfg: Config, report: string, urlErrors: map<string, string>)
    requires !cfg.skipTests && cfg.jrubyHome.Some?
    requires FirstRejected(cfg.classpathElements, urlErrors) == |cfg.classpathElements|
    ensures var r := Expected(cfg, report, urlErrors);
      var rp := ReportPath(cfg.outputDirectory, cfg.reportName);
      && (r.outcome == FailureException(FailureMessage(rp)) <==> ReportFailed(report) && !cfg.ignoreFailure)
      && (r.outcome == Returned <==> !ReportFailed(report) || cfg.ignoreFailure)
      && |r.log| >= 2
      && r.log[|r.log| - 2] == Info(VerifyingMessage)
      && r.log[|r.log| - 1] == (if ReportFailed(report) then Warn(FailureMessage(rp)) else Info(SuccessMessage(rp)))
      && Contains(r.log[|r.log| - 1].message, rp)
  {
  }

  /** Whatever way a run ends after RSpec has run, the report path it names is the same
      `outputDirectory + "/" + reportName`, and a thrown failure carries it too. */
  lemma ReportPathNamedOnEveryOutcome(cfg: Config, report: string, urlErrors: map<string, string>)
    requires !cfg.skipTests && cfg.jrubyHome.Some?
    requires FirstRejected(cfg.classpathElements, urlErrors) == |cfg.classpathElements|
    ensures var r := Expected(cfg, report, urlErrors);
      var rp := cfg.outputDirectory + "/" + cfg.reportName;
      && Contains(r.log[|r.log| - 1].message, rp)
      && (r.outcome.FailureException? ==> Contains(r.outcome.message, rp))
      && !r.outcome.ExecutionException?
  {
    var rp := cfg.outputDirectory + "/" + cfg.reportName;
    ContainsInfix("RSpec tests failed. See '", rp, "' for details.");
  }

  // ---------------------------------------------------------------------------
  // A worked example

  /** The report path of the worked example. */
  lemma ReportPathExample()
    ensures ReportPath("target", "rspec_report.html") == "target/rspec_report.html"
  {
    assert "target" + "/" + "rspec_report.html" == "target/rspec_report.html";
  }

  /** The classpath of the worked example: one jar, then one directory. */
  lemma ExampleClasspath()
    ensures Jars(["/lib/a.jar", "/classes"]) == ["/lib/a.jar"]
    ensures Directories(["/lib/a.jar", "/classes"]) == ["/classes"]
    ensures Requires(["/lib/a.jar"]) == "require '/lib/a.jar'\n"
    ensures FileUrls(["/classes"]) == ["file:/classes/"]
  {
    var cp := ["/lib/a.jar", "/classes"];
    assert IsJar(cp[0]) by {
      assert cp[0][|cp[0]| - 4..] == ".jar";
    }
    assert !IsJar(cp[1]) by {
      assert cp[1][|cp[1]| - 4..][0] == 's';
    }
    assert cp[1..][1..] == [];
    assert Requires(["/lib/a.jar"]) == "require '/lib/a.jar'\n" + "";
    assert FileUrl("/classes") == "file:/classes/";
    assert FileUrls(["/classes"]) == [FileUrl("/classes")] + FileUrls([]);
  }

  /** One jar and one directory, all specs passing: the jar becomes the first line of
      the main script, the directory becomes the only class-loader URL, and `execute`
      returns after naming "target/rspec_report.html". */
  lemma PassingRunExample(report: string, sourceDirectory: string, home: string)
    requires Contains(report, ZeroFailures)
    ensures var cfg := Config(["/lib/a.jar", "/classes"], sourceDirectory, "target", "rspec_report.html",
                              Some(home), false, false);
      var r := Expected(cfg, report, map[]);
      && r.outcome == Returned
      && |r.log| == 5
      && r.log[4] == Info(SuccessMessage("target/rspec_report.html"))
      && r.calls.Some?
      && ClassLoaderUrls(r.calls.value) == ["file:/classes/"]
      && |Scriptlets(r.calls.value)| == 2
      && OccursAt(Scriptlets(r.calls.value)[0], 0, "require '/lib/a.jar'\n")
  {
    var cp := ["/lib/a.jar", "/classes"];
    var cfg := Config(cp, sourceDirectory, "target", "rspec_report.html", Some(home), false, false);
    ExampleClasspath();
    NothingRejectedWithoutUrlErrors(cp);
    assert Attempted(cp, 2) == cp;
    assert AddingLog(["/classes"]) == [Info(AddingMessage("/classes"))] + AddingLog([]);
    var rp := ReportPath("target", "rspec_report.html");
    ReportPathExample();
    CompletedRunTrace(cfg, report, map[]);
    CompletedRunOutcome(cfg, report, map[]);
    MainScriptLayout("require '/lib/a.jar'\n", sourceDirectory, rp);
  }
}
