/** The launch-strategy resolver behind `ensureBrowser`: routing between the
    ephemeral and the persistent-profile launch, the argument records handed
    to the engine, page selection, and the single retry without the
    executable-path override. The engine is abstract: its answers are a
    script. Optional keys are `Option`s, where `None` is an absent or
    `undefined` key and `Some(false)` is an explicit `false`. */
module Launch {
  import opened Wrappers
  import opened Viewports

  /** The three interchangeable engine variants. */
  datatype BrowserType = Chromium | Firefox | Webkit

  datatype Proxy = Proxy(server: string, username: Option<string>, password: Option<string>)

  /** The options `ensureBrowser` is called with. */
  datatype Settings = Settings(
    browserType: Option<BrowserType>,
    headless: Option<bool>,
    executablePath: Option<string>,
    viewport: Option<Viewport>,
    proxy: Option<Proxy>,
    userAgent: Option<string>,
    userDataDir: Option<string>,
    acceptInsecureCerts: Option<bool>,
    ignoreHTTPSErrors: Option<bool>)

  const NoSettings := Settings(None, None, None, None, None, None, None, None, None)

  const EphemeralViewport := Viewport(1280, 720)
  const PersistentViewport := Viewport(1600, 900)
  const DeviceScaleFactor := 1

  /** Arguments of `launch`. */
  datatype LaunchArgs = LaunchArgs(
    headless: Option<bool>,
    executablePath: Option<string>,
    proxy: Option<Proxy>,
    acceptInsecureCerts: Option<bool>)

  /** Arguments of `newContext` on an ephemeral browser. */
  datatype ContextArgs = ContextArgs(viewport: Viewport, deviceScaleFactor: int, ignoreHTTPSErrors: bool)

  /** Arguments of `launchPersistentContext`, after the profile directory. */
  datatype PersistentArgs = PersistentArgs(
    headless: Option<bool>,
    executablePath: Option<string>,
    proxy: Option<Proxy>,
    userAgent: Option<string>,
    viewport: Viewport,
    deviceScaleFactor: int,
    acceptInsecureCerts: Option<bool>,
    ignoreHTTPSErrors: bool)

  datatype Route = Ephemeral | Persistent(dir: string)

  /** The selected variant; the first one when none is given. */
  function Variant(s: Settings): BrowserType {
    s.browserType.GetOr(Chromium)
  }

  /** A non-empty profile directory selects the persistent path; an absent,
      `undefined` or empty one the ephemeral path. */
  function RouteOf(s: Settings): (r: Route)
    ensures r.Persistent? <==> s.userDataDir.Some? && s.userDataDir.value != ""
    ensures r.Persistent? ==> r.dir == s.userDataDir.value
  {
    if s.userDataDir.Some? && s.userDataDir.value != "" then Persistent(s.userDataDir.value) else Ephemeral
  }

  /** `{headless, executablePath}`, plus `proxy` when one is supplied and
      `acceptInsecureCerts: true` only when that flag is true. */
  function EphemeralLaunchArgs(s: Settings): (a: LaunchArgs)
    ensures a.headless == s.headless && a.executablePath == s.executablePath
    ensures a.proxy == s.proxy
    ensures a.acceptInsecureCerts.Some? <==> s.acceptInsecureCerts == Some(true)
    ensures a.acceptInsecureCerts.Some? ==> a.acceptInsecureCerts.value
  {
    LaunchArgs(s.headless, s.executablePath, s.proxy, if s.acceptInsecureCerts == Some(true) then Some(true) else None)
  }

  /** The ephemeral context: the supplied viewport or 1280x720, scale 1, and
      `ignoreHTTPSErrors` as supplied, false when not. */
  function ContextArgsOf(s: Settings): (c: ContextArgs)
    ensures c.viewport == if s.viewport.Some? then s.viewport.value else EphemeralViewport
    ensures c.deviceScaleFactor == 1
    ensures c.ignoreHTTPSErrors <==> s.ignoreHTTPSErrors == Some(true)
  {
    ContextArgs(s.viewport.GetOr(EphemeralViewport), DeviceScaleFactor, s.ignoreHTTPSErrors.GetOr(false))
  }

  /** The persistent launch: headless and executable path as given, proxy and
      user agent only when supplied, the supplied viewport or 1600x900, scale
      1, `acceptInsecureCerts` passed through whenever supplied (even false),
      `ignoreHTTPSErrors` as supplied, false when not. */
  function PersistentArgsOf(s: Settings): (p: PersistentArgs)
    ensures p.headless == s.headless && p.executablePath == s.executablePath
    ensures p.proxy == s.proxy && p.userAgent == s.userAgent
    ensures p.viewport == if s.viewport.Some? then s.viewport.value else PersistentViewport
    ensures p.deviceScaleFactor == 1
    ensures p.acceptInsecureCerts == s.acceptInsecureCerts
    ensures p.ignoreHTTPSErrors <==> s.ignoreHTTPSErrors == Some(true)
  {
    PersistentArgs(s.headless, s.executablePath, s.proxy, s.userAgent, s.viewport.GetOr(PersistentViewport),
                   DeviceScaleFactor, s.acceptInsecureCerts, s.ignoreHTTPSErrors.GetOr(false))
  }

  /** The retry's arguments: the first attempt's without the executable path. */
  function RetryArgs(a: LaunchArgs): (r: LaunchArgs)
    ensures r.executablePath.None?
    ensures r.headless == a.headless && r.proxy == a.proxy && r.acceptInsecureCerts == a.acceptInsecureCerts
  {
    a.(executablePath := None)
  }

  // ------------------------------------------------------------- resolving

  /** What one engine call does: resolve, or reject with a message. */
  datatype Outcome = Resolves | Rejects(message: string)

  /** The scripted engine. `launches[i]` answers the i-th `launch` call, and
      calls past the end resolve (a mock's default answer);
      `persistent` answers `launchPersistentContext`, whose context already
      holds `existingPages` and creates page `freshPage` when asked. */
  datatype Engine = Engine(
    launches: seq<Outcome>,
    persistent: Outcome,
    contextId: nat,
    existingPages: seq<nat>,
    freshPage: nat)

  /** A page handle; `context` is the back-reference a page opened from a
      persistent context carries to that context. */
  datatype Page = Page(id: nat, context: Option<nat>)

  /** The engine calls made, in order. */
  datatype Call =
    | LaunchCall(browser: BrowserType, args: LaunchArgs)
    | PersistentCall(browser: BrowserType, dir: string, persistentArgs: PersistentArgs)
    | NewContextCall(contextArgs: ContextArgs)
    | NewPageCall

  datatype Resolution = Resolution(calls: seq<Call>, result: Result<Page>)

  function Attempt(e: Engine, i: nat): Outcome {
    if i < |e.launches| then e.launches[i] else Resolves
  }

  /** Page selection in a persistent context: the first existing page, or a
      new one; either way tagged with the context. */
  function SelectPage(e: Engine): (r: (Page, seq<Call>))
    ensures |e.existingPages| > 0 ==> r.0.id == e.existingPages[0] && r.1 == []
    ensures |e.existingPages| == 0 ==> r.0.id == e.freshPage && r.1 == [NewPageCall]
    ensures r.0.context == Some(e.contextId)
  {
    if |e.existingPages| > 0 then (Page(e.existingPages[0], Some(e.contextId)), [])
    else (Page(e.freshPage, Some(e.contextId)), [NewPageCall])
  }

  /** After a successful launch: a context with the context arguments, then
      one page from it. */
  function Open(s: Settings, e: Engine, launched: seq<Call>): Resolution {
    Resolution(launched + [NewContextCall(ContextArgsOf(s)), NewPageCall], Ok(Page(e.freshPage, None)))
  }

  /** `ensureBrowser`: the profile directory picks the route, and the route
      decides the first engine call. The persistent route fails with the
      persistent launcher's rejection; the ephemeral route fails only when
      both the launch and its retry are rejected, with the retry's message. */
  function Resolve(s: Settings, e: Engine): (r: Resolution)
    ensures |r.calls| >= 1
    ensures r.calls[0].PersistentCall? <==> RouteOf(s).Persistent?
    ensures RouteOf(s).Persistent? ==>
      && r.calls[0] == PersistentCall(Variant(s), RouteOf(s).dir, PersistentArgsOf(s))
      && (r.result.Err? <==> e.persistent.Rejects?)
      && (r.result.Err? ==> r.result.message == e.persistent.message)
    ensures RouteOf(s).Ephemeral? ==>
      && r.calls[0] == LaunchCall(Variant(s), EphemeralLaunchArgs(s))
      && (r.result.Err? <==> Attempt(e, 0).Rejects? && Attempt(e, 1).Rejects?)
      && (r.result.Err? ==> r.result.message == Attempt(e, 1).message)
  {
    var b := Variant(s);
    match RouteOf(s)
    case Persistent(dir) =>
      var first := [PersistentCall(b, dir, PersistentArgsOf(s))];
      if e.persistent.Rejects? then Resolution(first, Err(e.persistent.message))
      else
        var (page, more) := SelectPage(e);
        Resolution(first + more, Ok(page))
    case Ephemeral =>
      var a1 := EphemeralLaunchArgs(s);
      if Attempt(e, 0).Resolves? then Open(s, e, [LaunchCall(b, a1)])
      else
        var tried := [LaunchCall(b, a1), LaunchCall(b, RetryArgs(a1))];
        if Attempt(e, 1).Resolves? then Open(s, e, tried)
        else Resolution(tried, Err(Attempt(e, 1).message))
  }

  /** The `launch` calls of a call list. */
  function Launches(calls: seq<Call>): (r: seq<Call>)
    ensures forall c :: c in r <==> c in calls && c.LaunchCall?
  {
    if |calls| == 0 then []
    else if calls[0].LaunchCall? then [calls[0]] + Launches(calls[1..])
    else Launches(calls[1..])
  }

  lemma LaunchesOfAppend(a: seq<Call>, b: seq<Call>)
    ensures Launches(a + b) == Launches(a) + Launches(b)
  {
    if |a| == 0 {
      assert a + b == b;
    } else {
      assert (a + b)[0] == a[0];
      assert (a + b)[1..] == a[1..] + b;
      LaunchesOfAppend(a[1..], b);
    }
  }

  /** A non-empty profile directory launches the selected variant's
      persistent context, exactly once, with the persistent arguments, and
      never calls `launch`; the result's page is the first existing page, or
      a new one when there is none, and points back at the context. */
  lemma PersistentRoute(s: Settings, e: Engine)
    requires s.userDataDir.Some? && s.userDataDir.value != ""
    ensures var r := Resolve(s, e);
      && r.calls[0] == PersistentCall(Variant(s), s.userDataDir.value, PersistentArgsOf(s))
      && Launches(r.calls) == []
      && (e.persistent.Rejects? ==> r.result == Err(e.persistent.message) && |r.calls| == 1)
      && (e.persistent.Resolves? ==>
            && r.result.Ok?
            && r.result.value.context == Some(e.contextId)
            && (|e.existingPages| > 0 ==> r.result.value.id == e.existingPages[0] && NewPageCall !in r.calls)
            && (|e.existingPages| == 0 ==> r.result.value.id == e.freshPage && NewPageCall in r.calls))
  {
    var r := Resolve(s, e);
    if e.persistent.Resolves? {
      var (page, more) := SelectPage(e);
      LaunchesOfAppend([PersistentCall(Variant(s), s.userDataDir.value, PersistentArgsOf(s))], more);
    }
  }

  /** The calls after a successful launch: the launches made, then a context
      and a page; no further launch of either kind. */
  lemma OpenCalls(s: Settings, e: Engine, launched: seq<Call>)
    ensures var r := Open(s, e, launched);
      && |r.calls| == |launched| + 2
      && r.calls[..|launched|] == launched
      && r.calls[|launched|..] == [NewContextCall(ContextArgsOf(s)), NewPageCall]
      && Launches(r.calls) == Launches(launched)
      && r.result == Ok(Page(e.freshPage, None))
  {
    var tail := [NewContextCall(ContextArgsOf(s)), NewPageCall];
    assert Launches(tail) == [] by {
      var last := [NewPageCall];
      assert last[1..] == [];
      assert Launches(last) == [];
      assert tail[1..] == last;
    }
    LaunchesOfAppend(launched, tail);
  }

  lemma TwoLaunches(b: BrowserType, a1: LaunchArgs, a2: LaunchArgs)
    ensures Launches([LaunchCall(b, a1), LaunchCall(b, a2)]) == [LaunchCall(b, a1), LaunchCall(b, a2)]
  {
    var tried := [LaunchCall(b, a1), LaunchCall(b, a2)];
    var rest := [LaunchCall(b, a2)];
    assert tried[1..] == rest;
    assert rest[1..] == [];
    assert Launches(rest) == rest;
  }

  /** Without a non-empty profile directory the ephemeral path runs: the
      first call is `launch` with the ephemeral arguments, and the persistent
      launcher is never called. A rejected first launch is retried exactly
      once with the same arguments minus the executable path; if the retry is
      rejected too, the result is that rejection's message. */
  lemma EphemeralRoute(s: Settings, e: Engine)
    requires s.userDataDir.None? || s.userDataDir.value == ""
    ensures var r := Resolve(s, e);
      var a1 := EphemeralLaunchArgs(s);
      && r.calls[0] == LaunchCall(Variant(s), a1)
      && (forall c :: c in r.calls ==> !c.PersistentCall?)
      && (Attempt(e, 0).Resolves? ==> Launches(r.calls) == [LaunchCall(Variant(s), a1)])
      && (Attempt(e, 0).Rejects? ==>
            Launches(r.calls) == [LaunchCall(Variant(s), a1), LaunchCall(Variant(s), RetryArgs(a1))])
      && (r.result.Err? <==> Attempt(e, 0).Rejects? && Attempt(e, 1).Rejects?)
      && (r.result.Err? ==> r.result.message == Attempt(e, 1).message)
      && (r.result.Ok? ==> r.calls[|r.calls| - 2..] == [NewContextCall(ContextArgsOf(s)), NewPageCall])
  {
    var a1 := EphemeralLaunchArgs(s);
    var b := Variant(s);
    var r := Resolve(s, e);
    if Attempt(e, 0).Resolves? {
      var launched := [LaunchCall(b, a1)];
      assert r == Open(s, e, launched);
      OpenCalls(s, e, launched);
      assert r.calls == launched + r.calls[|launched|..];
    } else {
      var tried := [LaunchCall(b, a1), LaunchCall(b, RetryArgs(a1))];
      TwoLaunches(b, a1, RetryArgs(a1));
      if Attempt(e, 1).Resolves? {
        assert r == Open(s, e, tried);
        OpenCalls(s, e, tried);
        assert r.calls == tried + r.calls[|tried|..];
      } else {
        assert r == Resolution(tried, Err(Attempt(e, 1).message));
      }
    }
  }

  /** Routing looks only at the profile directory, never at the variant. */
  lemma RouteIgnoresVariant(s: Settings, b: BrowserType)
    ensures RouteOf(s.(browserType := Some(b))) == RouteOf(s)
  {
  }

  /** The context arguments do not depend on the proxy, and the launch
      arguments carry the proxy and the certificate flag side by side. */
  lemma ProxyAndCertificatesCombine(s: Settings, p: Proxy)
    requires s.acceptInsecureCerts == Some(true)
    ensures ContextArgsOf(s.(proxy := Some(p))) == ContextArgsOf(s)
    ensures EphemeralLaunchArgs(s.(proxy := Some(p))).proxy == Some(p)
    ensures EphemeralLaunchArgs(s.(proxy := Some(p))).acceptInsecureCerts == Some(true)
  {
  }

  /** The retry keeps everything the first attempt had except the path. */
  lemma RetryDropsOnlyPath(s: Settings)
    ensures RetryArgs(EphemeralLaunchArgs(s)) == EphemeralLaunchArgs(s.(executablePath := None))
  {
  }

  // ------------------------------------------ the scenarios the tests assert

  const TestProxy := Proxy("http://proxy.test:8080", Some("testuser"), Some("testpass"))

  /** Profile directory with each variant and nothing else: persistent
      arguments `{headless: true, executablePath: undefined, viewport:
      1600x900, deviceScaleFactor: 1, ignoreHTTPSErrors: false}`; a supplied
      `acceptInsecureCerts: false` is passed through as false. */
  lemma ProfileDefaults(b: BrowserType, dir: string, e: Engine)
    requires dir != ""
    ensures var s := NoSettings.(browserType := Some(b), headless := Some(true), userDataDir := Some(dir));
      && Resolve(s, e).calls[0] ==
           PersistentCall(b, dir, PersistentArgs(Some(true), None, None, None, Viewport(1600, 900), 1, None, false))
      && PersistentArgsOf(s.(acceptInsecureCerts := Some(false), ignoreHTTPSErrors := Some(false))) ==
           PersistentArgs(Some(true), None, None, None, Viewport(1600, 900), 1, Some(false), false)
  {
  }

  /** `acceptInsecureCerts: true` reaches `launch`; `false` is left out. With
      no certificate or proxy options the launch is `{headless,
      executablePath}` and the context gets `ignoreHTTPSErrors: false`. */
  lemma CertificateFlagExamples(b: BrowserType)
    ensures var s := NoSettings.(browserType := Some(b), headless := Some(true));
      && EphemeralLaunchArgs(s.(acceptInsecureCerts := Some(true))) == LaunchArgs(Some(true), None, None, Some(true))
      && EphemeralLaunchArgs(s.(acceptInsecureCerts := Some(false))) == LaunchArgs(Some(true), None, None, None)
      && EphemeralLaunchArgs(s) == LaunchArgs(Some(true), None, None, None)
      && ContextArgsOf(s) == ContextArgs(Viewport(1280, 720), 1, false)
      && ContextArgsOf(s.(ignoreHTTPSErrors := Some(true))) == ContextArgs(Viewport(1280, 720), 1, true)
  {
  }

  /** One rejection then success: two launches, the second without the path
      and still with the proxy, and the call succeeds. */
  lemma RetryKeepsProxy(e: Engine, m: string)
    requires |e.launches| >= 2 && e.launches[0] == Rejects(m) && e.launches[1] == Resolves
    ensures var s := NoSettings.(browserType := Some(Chromium), headless := Some(true), proxy := Some(TestProxy));
      var r := Resolve(s, e);
      && Launches(r.calls) == [
           LaunchCall(Chromium, LaunchArgs(Some(true), None, Some(TestProxy), None)),
           LaunchCall(Chromium, LaunchArgs(Some(true), None, Some(TestProxy), None))]
      && r.result.Ok?
  {
    var s := NoSettings.(browserType := Some(Chromium), headless := Some(true), proxy := Some(TestProxy));
    EphemeralRoute(s, e);
  }

  /** One rejection then success with `acceptInsecureCerts: true`: the
      second launch still carries the flag but no executable path. */
  lemma RetryKeepsCertificateFlag(e: Engine, m: string)
    requires |e.launches| >= 2 && e.launches[0] == Rejects(m) && e.launches[1] == Resolves
    ensures var s := NoSettings.(browserType := Some(Chromium), headless := Some(true),
                                 acceptInsecureCerts := Some(true), ignoreHTTPSErrors := Some(true));
      var r := Resolve(s, e);
      && Launches(r.calls) == [
           LaunchCall(Chromium, LaunchArgs(Some(true), None, None, Some(true))),
           LaunchCall(Chromium, LaunchArgs(Some(true), None, None, Some(true)))]
      && r.result.Ok?
  {
    var s := NoSettings.(browserType := Some(Chromium), headless := Some(true),
                         acceptInsecureCerts := Some(true), ignoreHTTPSErrors := Some(true));
    EphemeralRoute(s, e);
  }

  /** A launcher that always rejects: two attempts, then the call fails with
      the launcher's message. */
  lemma AlwaysRejectingLaunch(e: Engine, m: string)
    requires |e.launches| >= 2 && e.launches[0] == Rejects(m) && e.launches[1] == Rejects(m)
    ensures var s := NoSettings.(browserType := Some(Chromium), headless := Some(true),
                                 proxy := Some(Proxy("invalid-proxy", None, None)));
      var r := Resolve(s, e);
      |Launches(r.calls)| == 2 && r.result == Err(m)
  {
    var s := NoSettings.(browserType := Some(Chromium), headless := Some(true),
                         proxy := Some(Proxy("invalid-proxy", None, None)));
    EphemeralRoute(s, e);
  }
}
