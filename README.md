# RSpec Maven plugin: the `spec` goal

A Dafny model of the `spec` goal of the RSpec Maven plugin (`RspecRunnerMojo`). The goal
runs a project's RSpec specs inside an embedded JRuby runtime as a build step:

1. with `skipTests` set it logs a notice and returns;
2. without `jrubyHome` it throws `MojoExecutionException`;
3. otherwise it creates a runtime, sets its home and initialises its load service with the
   test classpath;
4. it walks the classpath: every entry ending in `.jar` becomes a `require '<path>'` line,
   every other entry becomes a `file:<path>/` URL on the runtime's class loader;
5. it evaluates the require lines followed by an RSpec prologue that passes
   `-f html<reportPath>` to RSpec's option parser, where `reportPath` is
   `outputDirectory + "/" + reportName`;
6. it evaluates a second scriptlet that reads the report back from `reportPath` and is true
   exactly when the report does not contain `, 0 failures`;
7. it throws `MojoFailureException`, or only warns (`ignoreFailure`), or logs success.

Files:

- `strings.dfy` (module `Strings`): Java's `endsWith` and the left-to-right substring scan,
  with lemmas tying the scan to "occurs at some position".
- `maven.dfy` (module `Maven`): log lines and the three ways `execute` can end.
- `jruby.dfy` (module `JRuby`): the runtime as a class `Ruby` that records every call made
  on it (`setJRubyHome`, `getLoadService().init`, `getJRubyClassLoader().addURL`,
  `evalScriptlet`), in order. Four projections give the homes set, the load-service lists,
  the class-loader URLs and the scriptlets evaluated.
- `rspec_runner_mojo.dfy` (module `RspecRunnerMojo`): the configuration record, the
  classpath partition, the script text, the failure flag, the result policy, the function
  `Expected` that gives the whole observable effect of one `execute`, and the imperative
  methods `HandleClasspathElements` (the loop) and `Execute`. Each method is proved equal
  to its specification.
- `rspec_runner_properties.dfy` (module `RspecRunnerProperties`): the properties of
  `Expected` and of the partition, proved as lemmas.

Inputs the model takes from outside:

- The text of the report file is a parameter of `Execute` (`report`). The failure flag is
  what the second scriptlet computes from that text.
- `new URL("file:" + path + "/")` is modelled by a parameter `urlErrors`. It maps each URL
  spelling the URL parser rejects to the message of its `MalformedURLException`. The first
  rejected directory entry ends the loop with a `MojoExecutionException` carrying that
  message. The class loader keeps the URLs added before it.
- `getLog()` output is the `log` out-parameter: a list of info and warning lines.
- `Execute` returns the runtime it created, or `null` when it returned or threw before
  `Ruby.newInstance()`, so that the calls made on the runtime can be stated.

`execute` decides pass or fail by scanning the report text for `, 0 failures`
(RspecRunnerMojo.java:121). It composes its RSpec prologue inline (RspecRunnerMojo.java:103-114).

## Model

| member | source | states |
|---|---|---|
| `Strings.ContainsIff` | src/main/java/org/codehaus/mojo/rspec/RspecRunnerMojo.java:121 | the left-to-right scan used for `=~ /, 0 failures/` succeeds exactly when the pattern occurs at some position of the text |
| `JRuby.Ruby.NewInstance` | src/main/java/org/codehaus/mojo/rspec/RspecRunnerMojo.java:88 | `Ruby.newInstance()` gives a runtime on which nothing has been called |
| `JRuby.Ruby.SetJRubyHome` | src/main/java/org/codehaus/mojo/rspec/RspecRunnerMojo.java:90 | setting the home appends exactly that call to the runtime's trace |
| `JRuby.Ruby.LoadServiceInit` | src/main/java/org/codehaus/mojo/rspec/RspecRunnerMojo.java:91 | initialising the load service appends exactly that call, with the list given |
| `JRuby.Ruby.ClassLoaderAddUrl` | src/main/java/org/codehaus/mojo/rspec/RspecRunnerMojo.java:152-153 | adding a URL to the class loader appends exactly that call |
| `JRuby.Ruby.EvalScriptlet` | src/main/java/org/codehaus/mojo/rspec/RspecRunnerMojo.java:116-126 | evaluating a scriptlet appends exactly that call, with the script text |
| `JRuby.AddUrlCallsRecords` | src/main/java/org/codehaus/mojo/rspec/RspecRunnerMojo.java:152-153 | adding a list of URLs one after the other records exactly those URLs in that order, and no home, load-service list or scriptlet |
| `RspecRunnerMojo.FirstRejected` | src/main/java/org/codehaus/mojo/rspec/RspecRunnerMojo.java:145-155 | the loop stops at the first directory entry whose URL cannot be built: every entry before it is a jar or has a valid URL, and the entry at it has neither |
| `RspecRunnerMojo.ResultPolicy` | src/main/java/org/codehaus/mojo/rspec/RspecRunnerMojo.java:128-139 | `MojoFailureException` exactly when specs failed and `ignoreFailure` is off, with the failure message; a normal return otherwise; never an execution error; exactly one log line: the failure warning when specs failed, the success line otherwise, and it names the report path |
| `RspecRunnerMojo.HandleClasspathElements` | src/main/java/org/codehaus/mojo/rspec/RspecRunnerMojo.java:142-157 | the loop adds the `file:` URLs of the directory entries before the first rejected one, in order, and logs one line per directory entry it reaches; it returns the require lines of all jars in order, or the parser's message of the first rejected URL |
| `RspecRunnerMojo.Execute` | src/main/java/org/codehaus/mojo/rspec/RspecRunnerMojo.java:77-140 | the outcome, the log and the runtime trace of `execute` are exactly those of `Expected`; a runtime is created exactly when both guards pass, and it is fresh |
| `RspecRunnerProperties.SkipTestsDoesNothing` | src/main/java/org/codehaus/mojo/rspec/RspecRunnerMojo.java:78-81 | with `skipTests` the run logs the skip notice, returns normally and creates no runtime, whatever the other parameters (a null `jrubyHome` included), the report and the URL parser say |
| `RspecRunnerProperties.MissingHomeStopsBeforeRuntime` | src/main/java/org/codehaus/mojo/rspec/RspecRunnerMojo.java:82-88 | without `jrubyHome` the run throws `MojoExecutionException("$JRUBY_HOME or jrubyHome directory not specified")` after logging only the start line, and creates no runtime |
| `RspecRunnerProperties.LoadServiceGetsWholeClasspathFirst` | src/main/java/org/codehaus/mojo/rspec/RspecRunnerMojo.java:88-96 | past the guards the first call sets the home, the second initialises the load service with the unmodified classpath; each happens exactly once, and every class-loader URL comes after both |
| `RspecRunnerProperties.CompletedRunTrace` | src/main/java/org/codehaus/mojo/rspec/RspecRunnerMojo.java:91-126 | a run that gets through the classpath adds the `file:` URLs of all directory entries in classpath order and evaluates exactly two scriptlets, the main script first and the failure check last |
| `RspecRunnerProperties.RejectedUrlStopsBeforeScripts` | src/main/java/org/codehaus/mojo/rspec/RspecRunnerMojo.java:94-99 | a URL the parser rejects ends the run with `MojoExecutionException` carrying the parser's message; only the earlier directories' URLs were added and no scriptlet was evaluated |
| `RspecRunnerProperties.IgnoreFailureKeepsErrors` | src/main/java/org/codehaus/mojo/rspec/RspecRunnerMojo.java:84-99 | `ignoreFailure` never changes a `MojoExecutionException` outcome |
| `RspecRunnerProperties.PartitionCoversClasspath` | src/main/java/org/codehaus/mojo/rspec/RspecRunnerMojo.java:145-155 | jars and directories together are the classpath as a multiset; an entry is among the jars exactly when it ends in `.jar`, and among the directories exactly when it does not |
| `RspecRunnerProperties.PartitionKeepsOrder` | src/main/java/org/codehaus/mojo/rspec/RspecRunnerMojo.java:145-156 | the jars, the directories, the require script and the URL list of a concatenation are those of its parts, one after the other, so every output keeps classpath order |
| `RspecRunnerProperties.RequiresNameEveryJar` | src/main/java/org/codehaus/mojo/rspec/RspecRunnerMojo.java:146-148 | the require script contains `require '<p>'` followed by a newline for every jar `p` |
| `RspecRunnerProperties.DirectoryUrlsAreFileUrls` | src/main/java/org/codehaus/mojo/rspec/RspecRunnerMojo.java:149-153 | there is one URL per directory entry, and the URL at each position is `"file:" + path + "/"` of the directory at that position |
| `RspecRunnerProperties.NothingRejectedWithoutUrlErrors` | src/main/java/org/codehaus/mojo/rspec/RspecRunnerMojo.java:152-153 | when the URL parser accepts every spelling, the loop gets through the whole classpath |
| `RspecRunnerProperties.MainScriptLayout` | src/main/java/org/codehaus/mojo/rspec/RspecRunnerMojo.java:94-114 | the main script starts with the jar require lines, then `require 'rubygems'` and `require 'spec'`, then `spec_dir = '<sourceDirectory>'`, then `@report_file = '<reportPath>'`, and it ends with the OptionParser and CommandLine lines; it contains the report path |
| `RspecRunnerProperties.ReportPathParts` | src/main/java/org/codehaus/mojo/rspec/RspecRunnerMojo.java:102 | the report path is the output directory, then `/`, then the report name, and nothing else |
| `RspecRunnerProperties.ReportPathExample` | src/main/java/org/codehaus/mojo/rspec/RspecRunnerMojo.java:102 | output directory `target` and report name `rspec_report.html` give `target/rspec_report.html` |
| `RspecRunnerProperties.FailureFlagIff` | src/main/java/org/codehaus/mojo/rspec/RspecRunnerMojo.java:119-126 | the failure flag is true exactly when `, 0 failures` occurs at no position of the report |
| `RspecRunnerProperties.ZeroFailuresPasses` | src/main/java/org/codehaus/mojo/rspec/RspecRunnerMojo.java:121-123 | a report with `, 0 failures` anywhere in it counts as passing |
| `RspecRunnerProperties.CompletedRunOutcome` | src/main/java/org/codehaus/mojo/rspec/RspecRunnerMojo.java:116-139 | after both scriptlets: `MojoFailureException` with the failure message exactly when the flag is set and `ignoreFailure` is off, a normal return otherwise; the last two log lines are the check notice and either the failure warning or the success line, which names the report path |
| `RspecRunnerProperties.ReportPathNamedOnEveryOutcome` | src/main/java/org/codehaus/mojo/rspec/RspecRunnerMojo.java:102-139 | on every outcome after RSpec has run, the last log line and any thrown failure name `outputDirectory + "/" + reportName`, and no execution error is raised |
| `RspecRunnerProperties.ExampleClasspath` | src/main/java/org/codehaus/mojo/rspec/RspecRunnerMojo.java:145-156 | for `["/lib/a.jar", "/classes"]` the jars are `["/lib/a.jar"]`, the directories `["/classes"]`, the require script `require '/lib/a.jar'` and the URLs `["file:/classes/"]` |
| `RspecRunnerProperties.PassingRunExample` | src/main/java/org/codehaus/mojo/rspec/RspecRunnerMojo.java:77-157 | with that classpath and a passing report the run returns normally, its last log line is the success line for `target/rspec_report.html`, the only class-loader URL is `file:/classes/`, and the main script starts with `require '/lib/a.jar'` |

## Left out

- src/main/java/org/codehaus/mojo/rspec/AbstractRspecMojo.java only declares parameter fields and has no behaviour; `RspecRunnerMojo` does not extend it.
- src/main/resources/RSpecRunner.rb is Ruby code that the Java never loads; it is not part of this model.
- What JRuby does with the calls: what the scriptlets do when evaluated, load-service and class-loader semantics. The runtime only records the calls made on it.
- Exceptions raised inside `evalScriptlet` (a Ruby error in a spec run, a missing report file in the failure check) and the `ClassCastException` a non-boolean result would cause. The failure-check scriptlet always yields a boolean, so the model takes its value from the report text.
- The parsing done by `java.net.URL`: it is an input map from rejected spellings to messages, not a model of URL syntax.
- Maven parameter injection and defaults. Apart from `jrubyHome`, the parameters are non-null strings and lists. If one of them were null, Java's string concatenation would write `null` and a null classpath would throw a `NullPointerException`.
- How log lines interleave with runtime calls: the log and the runtime trace are two separate ordered lists.
- Log-message formatting by Maven beyond the text the plugin passes to `info` and `warn`.
- The auxiliary browser-automation server start and stop: no such code exists in the source.
