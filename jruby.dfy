/** The embedded JRuby runtime, seen only through the calls the mojo makes on it. */
module JRuby {

  /** One call made on a runtime. */
  datatype Call =
    | SetHome(home: string)                 // setJRubyHome(home)
    | InitLoadService(paths: seq<string>)   // getLoadService().init(paths)
    | AddUrl(url: string)                   // getJRubyClassLoader().addURL(new URL(url))
    | Eval(script: string)                  // evalScriptlet(script)

  /** A runtime that records, in order, every call made on it. */
  class Ruby {
    var calls: seq<Call>

    /** `Ruby.newInstance()`: a fresh runtime on which nothing has been called yet. */
    constructor NewInstance()
      ensures calls == []
    {
      calls := [];
    }

    method SetJRubyHome(home: string)
      modifies this
      ensures calls == old(calls) + [SetHome(home)]
    {
      calls := calls + [SetHome(home)];
    }

    method LoadServiceInit(paths: seq<string>)
      modifies this
      ensures calls == old(calls) + [InitLoadService(paths)]
    {
      calls := calls + [InitLoadService(paths)];
    }

    method ClassLoaderAddUrl(url: string)
      modifies this
      ensures calls == old(calls) + [AddUrl(url)]
    {
      calls := calls + [AddUrl(url)];
    }

    method EvalScriptlet(script: string)
      modifies this
      ensures calls == old(calls) + [Eval(script)]
    {
      calls := calls + [Eval(script)];
    }
  }

  /** The homes set with `setJRubyHome`, in order. */
  function Homes(calls: seq<Call>): seq<string> {
    if calls == [] then []
    else (if calls[0].SetHome? then [calls[0].home] else []) + Homes(calls[1..])
  }

  /** The lists the load service was initialised with, in order. */
  function LoadPaths(calls: seq<Call>): seq<seq<string>> {
    if calls == [] then []
    else (if calls[0].InitLoadService? then [calls[0].paths] else []) + LoadPaths(calls[1..])
  }

  /** The URLs added to the runtime's class loader, in order. */
  function ClassLoaderUrls(calls: seq<Call>): seq<string> {
    if calls == [] then []
    else (if calls[0].AddUrl? then [calls[0].url] else []) + ClassLoaderUrls(calls[1..])
  }

  /** The scriptlets evaluated, in order. */
  function Scriptlets(calls: seq<Call>): seq<string> {
    if calls == [] then []
    else (if calls[0].Eval? then [calls[0].script] else []) + Scriptlets(calls[1..])
  }

  /** Each of the four records of a trace is the records of its parts, in order. */
  lemma ProjectionsAppend(a: seq<Call>, b: seq<Call>)
    ensures Homes(a + b) == Homes(a) + Homes(b)
    ensures LoadPaths(a + b) == LoadPaths(a) + LoadPaths(b)
    ensures ClassLoaderUrls(a + b) == ClassLoaderUrls(a) + ClassLoaderUrls(b)
    ensures Scriptlets(a + b) == Scriptlets(a) + Scriptlets(b)
  {
    HomesAppend(a, b);
    LoadPathsAppend(a, b);
    ClassLoaderUrlsAppend(a, b);
    ScriptletsAppend(a, b);
  }

  lemma {:induction false} HomesAppend(a: seq<Call>, b: seq<Call>)
    ensures Homes(a + b) == Homes(a) + Homes(b)
  {
    if a == [] {
      assert a + b == b;
    } else {
      assert (a + b)[0] == a[0];
      assert (a + b)[1..] == a[1..] + b;
      HomesAppend(a[1..], b);
    }
  }

  lemma {:induction false} LoadPathsAppend(a: seq<Call>, b: seq<Call>)
    ensures LoadPaths(a + b) == LoadPaths(a) + LoadPaths(b)
  {
    if a == [] {
      assert a + b == b;
    } else {
      assert (a + b)[0] == a[0];
      assert (a + b)[1..] == a[1..] + b;
      LoadPathsAppend(a[1..], b);
    }
  }

  lemma {:induction false} ClassLoaderUrlsAppend(a: seq<Call>, b: seq<Call>)
    ensures ClassLoaderUrls(a + b) == ClassLoaderUrls(a) + ClassLoaderUrls(b)
  {
    if a == [] {
      assert a + b == b;
    } else {
      assert (a + b)[0] == a[0];
      assert (a + b)[1..] == a[1..] + b;
      ClassLoaderUrlsAppend(a[1..], b);
    }
  }

  lemma {:induction false} ScriptletsAppend(a: seq<Call>, b: seq<Call>)
    ensures Scriptlets(a + b) == Scriptlets(a) + Scriptlets(b)
  {
    if a == [] {
      assert a + b == b;
    } else {
      assert (a + b)[0] == a[0];
      assert (a + b)[1..] == a[1..] + b;
      ScriptletsAppend(a[1..], b);
    }
  }

  /** The trace of adding `urls` to the class loader one after the other. */
  function AddUrlCalls(urls: seq<string>): seq<Call> {
    if urls == [] then [] else [AddUrl(urls[0])] + AddUrlCalls(urls[1..])
  }

  /** Adding `urls` records exactly those URLs, and nothing else. */
  lemma {:induction false} AddUrlCallsRecords(urls: seq<string>)
    ensures ClassLoaderUrls(AddUrlCalls(urls)) == urls
    ensures Homes(AddUrlCalls(urls)) == [] && LoadPaths(AddUrlCalls(urls)) == []
    ensures Scriptlets(AddUrlCalls(urls)) == []
  {
    if urls != [] {
      AddUrlCallsRecords(urls[1..]);
      ProjectionsAppend([AddUrl(urls[0])], AddUrlCalls(urls[1..]));
    }
  }

  lemma {:induction false} AddUrlCallsAppend(a: seq<string>, b: seq<string>)
    ensures AddUrlCalls(a + b) == AddUrlCalls(a) + AddUrlCalls(b)
  {
    if a == [] {
      assert a + b == b;
    } else {
      assert (a + b)[0] == a[0];
      assert (a + b)[1..] == a[1..] + b;
      AddUrlCallsAppend(a[1..], b);
    }
  }

  /** The records of a trace that sets the home, initialises the load service and then
      adds `urls` to the class loader. */
  lemma SetupRecords(home: string, paths: seq<string>, urls: seq<string>)
    ensures var calls := [SetHome(home)] + [InitLoadService(paths)] + AddUrlCalls(urls);
      && Homes(calls) == [home] && LoadPaths(calls) == [paths]
      && ClassLoaderUrls(calls) == urls && Scriptlets(calls) == []
  {
    AddUrlCallsRecords(urls);
    ProjectionsAppend([SetHome(home)], [InitLoadService(paths)]);
    ProjectionsAppend([SetHome(home)] + [InitLoadService(paths)], AddUrlCalls(urls));
  }

  /** Evaluating two scriptlets after `calls` records them, in order, and nothing else. */
  lemma TwoScriptletsRecords(calls: seq<Call>, first: string, second: string)
    ensures var all := calls + [Eval(first)] + [Eval(second)];
      && Homes(all) == Homes(calls) && LoadPaths(all) == LoadPaths(calls)
      && ClassLoaderUrls(all) == ClassLoaderUrls(calls)
      && Scriptlets(all) == Scriptlets(calls) + [first, second]
  {
    ProjectionsAppend(calls, [Eval(first)]);
    ProjectionsAppend(calls + [Eval(first)], [Eval(second)]);
  }
}
