/**
 * The request handlers of the Git smart-HTTP server and the dispatch between them.
 *
 * A request's observable effects are recorded as a trace: the `git init` it runs, the engine
 * process it spawns, and what it does to the HTTP response (`writeHead`, `write`, `end`, and
 * piping engine output into it). The engine's output is not known here; `BodyOf` gives the
 * response body for any stdout the engine may produce.
 */
module Server {
  import opened Strings
  import opened PktLine
  import opened Routing
  import opened Repository

  /** `parsedUrl.query.service`: absent, one value, or several values when the parameter repeats. */
  datatype QueryValue = Absent | Single(value: string) | Repeated(values: seq<string>)

  datatype Request = Request(httpMethod: string, pathname: string, service: QueryValue)

  datatype Effect =
    | ExecSync(command: string)                 // `execSync`: run a command to completion
    | Spawn(program: string, args: seq<string>) // `spawn`: start the pack-protocol engine
    | WriteHead(status: nat, contentType: string)
    | Write(chunk: string)
    | End(chunk: string)
    | PipeStdoutToResponse                      // `git.stdout.pipe(res)`
    | PipeRequestToStdin                        // `req.pipe(git.stdin)`
    | DrainStderr                               // `git.stderr.on('data', ...)`

  /** What handling a request did, and which repositories exist afterwards. */
  datatype Outcome = Outcome(effects: seq<Effect>, repos: set<string>)

  const TEXT_PLAIN: string := "text/plain"
  const ENGINE: string := "git"

  /** The engine command for a service; anything but upload-pack is taken to be receive-pack. */
  function CommandFor(service: string): string {
    if service == UPLOAD_PACK then "upload-pack" else "receive-pack"
  }

  function AdvertiseArgs(service: string, path: string): seq<string> {
    [CommandFor(service), "--stateless-rpc", "--advertise-refs", path]
  }

  function RpcArgs(service: string, path: string): seq<string> {
    [CommandFor(service), "--stateless-rpc", path]
  }

  function AdvertisementType(service: string): string {
    "application/x-" + service + "-advertisement"
  }

  function ResultType(service: string): string {
    "application/x-" + service + "-result"
  }

  /** A complete plain-text response: headers, then the body, then the end of the response. */
  function TextResponse(status: nat, body: string): seq<Effect> {
    [WriteHead(status, TEXT_PLAIN), End(body)]
  }

  function InitEffects(r: Resolution): seq<Effect> {
    if r.RanInit() then [ExecSync(InitCommand(r.path))] else []
  }

  function InitFailureMessage(stderr: string): string {
    "Failed to create repo:\n" + stderr
  }

  /** The service check of `handleInfoRefs`: the query value is exactly one of the two names. */
  predicate IsAcceptedService(query: QueryValue) {
    query == Single(UPLOAD_PACK) || query == Single(RECEIVE_PACK)
  }

  /** What a ref advertisement does once the repository is there. */
  function AdvertiseTrace(service: string, path: string): seq<Effect> {
    [Spawn(ENGINE, AdvertiseArgs(service, path)),
     WriteHead(200, AdvertisementType(service)),
     Write(Preamble(service)),
     PipeStdoutToResponse,
     DrainStderr]
  }

  /** What a service request does once the repository is there. */
  function RpcTrace(service: string, path: string): seq<Effect> {
    [Spawn(ENGINE, RpcArgs(service, path)),
     WriteHead(200, ResultType(service)),
     PipeRequestToStdin,
     PipeStdoutToResponse,
     DrainStderr]
  }

  /** Everything a handler does from resolution on: init if it ran, then a 500 or the success trace. */
  function AfterResolution(r: Resolution, success: seq<Effect>): seq<Effect> {
    InitEffects(r) + (if r.InitFailed? then TextResponse(500, InitFailureMessage(r.stderr)) else success)
  }

  // ---------------------------------------------------------------------------
  // The handlers as functions of the request and the repositories that exist

  /** `handleInfoRefs`. */
  function InfoRefsOutcome(pathname: string, query: QueryValue, repos: set<string>, init: InitOutcome): Outcome {
    match MatchInfoRefs(pathname)
    case None => Outcome(TextResponse(400, "Invalid info/refs path"), repos)
    case Some(name) =>
      if !IsAcceptedService(query) then Outcome(TextResponse(400, "Unsupported service"), repos)
      else
        AdvertiseOutcome(name, query.value, repos, init)
  }

  /** The part of `handleInfoRefs` after validation: resolve, spawn in advertise mode, respond. */
  function AdvertiseOutcome(name: string, service: string, repos: set<string>, init: InitOutcome): Outcome {
    var r := ResolveIn(repos, name, init);
    Outcome(AfterResolution(r, AdvertiseTrace(service, r.path)), ReposAfter(repos, r))
  }

  /** `handleGitService`, given the name and service the router captured. */
  function GitServiceOutcome(name: string, service: string, repos: set<string>, init: InitOutcome): Outcome {
    var r := ResolveIn(repos, name, init);
    Outcome(AfterResolution(r, RpcTrace(service, r.path)), ReposAfter(repos, r))
  }

  /** The `createServer` callback. */
  function Handle(req: Request, repos: set<string>, init: InitOutcome): Outcome {
    match Route(req.httpMethod, req.pathname)
    case InfoRefsHandler => InfoRefsOutcome(req.pathname, req.service, repos, init)
    case ServiceHandler(name, service) => GitServiceOutcome(name, service, repos, init)
    case NotFoundHandler => Outcome(TextResponse(404, "404 Not Found"), repos)
  }

  // ---------------------------------------------------------------------------
  // What a client observes of a trace

  /** The status of the first `writeHead`. */
  function StatusOf(t: seq<Effect>): Option<nat> {
    if t == [] then None
    else if t[0].WriteHead? then Some(t[0].status)
    else StatusOf(t[1..])
  }

  /** The content type of the first `writeHead`. */
  function ContentTypeOf(t: seq<Effect>): Option<string> {
    if t == [] then None
    else if t[0].WriteHead? then Some(t[0].contentType)
    else ContentTypeOf(t[1..])
  }

  /** The response body when the engine writes `stdout`: written chunks and piped output, in order. */
  function BodyOf(t: seq<Effect>, stdout: string): string {
    if t == [] then ""
    else
      var rest := BodyOf(t[1..], stdout);
      match t[0]
      case Write(chunk) => chunk + rest
      case End(chunk) => chunk + rest
      case PipeStdoutToResponse => stdout + rest
      case _ => rest
  }

  /** The program and arguments of the first spawned process. */
  function SpawnOf(t: seq<Effect>): Option<(string, seq<string>)> {
    if t == [] then None
    else if t[0].Spawn? then Some((t[0].program, t[0].args))
    else SpawnOf(t[1..])
  }

  predicate RunsInit(t: seq<Effect>) {
    exists i :: 0 <= i < |t| && t[i].ExecSync?
  }

  predicate StartsProcess(t: seq<Effect>) {
    exists i :: 0 <= i < |t| && (t[i].Spawn? || t[i].ExecSync?)
  }

  predicate IsBodyEffect(e: Effect) {
    e.Write? || e.End? || e.PipeStdoutToResponse?
  }

  /** Headers go out exactly once and before any part of the body. */
  predicate HeadBeforeBody(t: seq<Effect>) {
    if t == [] then false
    else if t[0].WriteHead? then forall i :: 1 <= i < |t| ==> !t[i].WriteHead?
    else !IsBodyEffect(t[0]) && HeadBeforeBody(t[1..])
  }

  /** Nothing is piped to or from a process before the process is spawned. */
  predicate SpawnBeforePipes(t: seq<Effect>) {
    if t == [] then true
    else if t[0].Spawn? then true
    else !t[0].PipeStdoutToResponse? && !t[0].PipeRequestToStdin? && !t[0].DrainStderr?
         && SpawnBeforePipes(t[1..])
  }

  // ---------------------------------------------------------------------------
  // The handlers as the server runs them: step by step against the repository store

  method HandleInfoRefs(store: RepoStore, pathname: string, query: QueryValue, init: InitOutcome)
    returns (effects: seq<Effect>)
    modifies store
    ensures Outcome(effects, store.existing) == InfoRefsOutcome(pathname, query, old(store.existing), init)
  {
    var m := MatchInfoRefs(pathname);
    if m.None? {
      effects := [WriteHead(400, TEXT_PLAIN), End("Invalid info/refs path")];
      return;
    }
    var name := m.value;
    if !IsAcceptedService(query) {
      effects := [WriteHead(400, TEXT_PLAIN), End("Unsupported service")];
      return;
    }
    effects := AdvertiseRefs(store, name, query.value, init);
  }

  method AdvertiseRefs(store: RepoStore, name: string, service: string, init: InitOutcome)
    returns (effects: seq<Effect>)
    modifies store
    ensures Outcome(effects, store.existing) == AdvertiseOutcome(name, service, old(store.existing), init)
  {
    var r := store.Resolve(name, init);
    effects := InitEffects(r);
    if r.InitFailed? {
      effects := effects + [WriteHead(500, TEXT_PLAIN), End(InitFailureMessage(r.stderr))];
      return;
    }
    var response := [Spawn(ENGINE, AdvertiseArgs(service, r.path))];
    var pktLine := Preamble(service);
    response := response + [WriteHead(200, AdvertisementType(service))];
    response := response + [Write(pktLine)];
    response := response + [PipeStdoutToResponse, DrainStderr];
    assert response == AdvertiseTrace(service, r.path);
    effects := effects + response;
  }

  method HandleGitService(store: RepoStore, name: string, service: string, init: InitOutcome)
    returns (effects: seq<Effect>)
    modifies store
    ensures Outcome(effects, store.existing) == GitServiceOutcome(name, service, old(store.existing), init)
  {
    var r := store.Resolve(name, init);
    effects := InitEffects(r);
    if r.InitFailed? {
      effects := effects + [WriteHead(500, TEXT_PLAIN), End(InitFailureMessage(r.stderr))];
      return;
    }
    var response := [Spawn(ENGINE, RpcArgs(service, r.path))];
    response := response + [WriteHead(200, ResultType(service))];
    response := response + [PipeRequestToStdin, PipeStdoutToResponse, DrainStderr];
    assert response == RpcTrace(service, r.path);
    effects := effects + response;
  }

  method Dispatch(store: RepoStore, req: Request, init: InitOutcome) returns (effects: seq<Effect>)
    modifies store
    ensures Outcome(effects, store.existing) == Handle(req, old(store.existing), init)
  {
    var h := Route(req.httpMethod, req.pathname);
    match h
    case InfoRefsHandler =>
      effects := HandleInfoRefs(store, req.pathname, req.service, init);
    case ServiceHandler(name, service) =>
      effects := HandleGitService(store, name, service, init);
    case NotFoundHandler =>
      effects := [WriteHead(404, TEXT_PLAIN), End("404 Not Found")];
  }

  // ---------------------------------------------------------------------------
  // Properties

  /** The engine command is the service name without its `git-` prefix. */
  lemma CommandMatchesService(service: string)
    requires IsService(service)
    ensures "git-" + CommandFor(service) == service
  {
  }

  lemma TextResponseObserved(status: nat, body: string, stdout: string)
    ensures var t := TextResponse(status, body);
      StatusOf(t) == Some(status) && ContentTypeOf(t) == Some(TEXT_PLAIN)
      && BodyOf(t, stdout) == body && HeadBeforeBody(t) && SpawnBeforePipes(t)
      && !StartsProcess(t) && SpawnOf(t) == None
  {
    var t := TextResponse(status, body);
    assert t[1..] == [End(body)];
    assert t[1..][1..] == [];
    assert BodyOf(t[1..][1..], stdout) == "";
    assert BodyOf(t[1..], stdout) == body + "" == body;
    assert SpawnOf(t[1..]) == SpawnOf(t[1..][1..]) == None;
  }

  lemma AdvertiseTraceObserved(service: string, path: string, stdout: string)
    ensures var t := AdvertiseTrace(service, path);
      StatusOf(t) == Some(200) && ContentTypeOf(t) == Some(AdvertisementType(service))
      && BodyOf(t, stdout) == Preamble(service) + stdout
      && SpawnOf(t) == Some((ENGINE, AdvertiseArgs(service, path)))
      && HeadBeforeBody(t) && SpawnBeforePipes(t) && !RunsInit(t)
      && PipeRequestToStdin !in t
  {
    WritePrefixObserved(AdvertiseArgs(service, path), AdvertisementType(service), Preamble(service), stdout);
  }

  /** The advertisement's shape, with the preamble left abstract. */
  lemma WritePrefixObserved(argv: seq<string>, contentType: string, prefix: string, stdout: string)
    ensures var t := [Spawn(ENGINE, argv), WriteHead(200, contentType), Write(prefix), PipeStdoutToResponse, DrainStderr];
      StatusOf(t) == Some(200) && ContentTypeOf(t) == Some(contentType)
      && BodyOf(t, stdout) == prefix + stdout
      && SpawnOf(t) == Some((ENGINE, argv))
      && HeadBeforeBody(t) && SpawnBeforePipes(t) && !RunsInit(t)
  {
    var t := [Spawn(ENGINE, argv), WriteHead(200, contentType), Write(prefix), PipeStdoutToResponse, DrainStderr];
    var t2 := [Write(prefix), PipeStdoutToResponse, DrainStderr];
    assert t[1..][1..] == t2;
    assert t2[1..][1..] == [DrainStderr] && t2[1..][1..][1..] == [];
    assert BodyOf([DrainStderr], stdout) == "";
    assert BodyOf(t2[1..], stdout) == stdout + "" == stdout;
    assert BodyOf(t2, stdout) == prefix + stdout;
  }

  lemma RpcTraceObserved(service: string, path: string, stdout: string)
    ensures var t := RpcTrace(service, path);
      StatusOf(t) == Some(200) && ContentTypeOf(t) == Some(ResultType(service))
      && BodyOf(t, stdout) == stdout
      && SpawnOf(t) == Some((ENGINE, RpcArgs(service, path)))
      && HeadBeforeBody(t) && SpawnBeforePipes(t) && !RunsInit(t)
      && PipeRequestToStdin in t
  {
    var t := RpcTrace(service, path);
    assert t[2] == PipeRequestToStdin;
    var t2 := [PipeRequestToStdin, PipeStdoutToResponse, DrainStderr];
    assert t[1..][1..] == t2;
    assert t2[1..][1..] == [DrainStderr] && t2[1..][1..][1..] == [];
    assert BodyOf([DrainStderr], stdout) == "";
    assert BodyOf(t2[1..], stdout) == stdout + "" == stdout;
    assert BodyOf(t2, stdout) == stdout;
  }

  /** The `git init` a request may run before responding does not change what the client observes. */
  lemma InitEffectsObserved(r: Resolution, t: seq<Effect>, stdout: string)
    ensures var e := InitEffects(r) + t;
      StatusOf(e) == StatusOf(t) && ContentTypeOf(e) == ContentTypeOf(t)
      && BodyOf(e, stdout) == BodyOf(t, stdout) && SpawnOf(e) == SpawnOf(t)
      && HeadBeforeBody(e) == HeadBeforeBody(t) && SpawnBeforePipes(e) == SpawnBeforePipes(t)
      && (RunsInit(e) <==> r.RanInit() || RunsInit(t))
      && (PipeRequestToStdin in e <==> PipeRequestToStdin in t)
  {
    var e := InitEffects(r) + t;
    if r.RanInit() {
      assert e[1..] == t;
      assert e[0].ExecSync?;
      if RunsInit(t) {
        var i :| 0 <= i < |t| && t[i].ExecSync?;
        assert e[i + 1] == t[i];
      }
    } else {
      assert e == t;
    }
  }

  /** Anything other than a GET containing `/info/refs` or a POST to a pack path is a plain 404. */
  lemma NotFoundResponse(req: Request, repos: set<string>, init: InitOutcome)
    requires Route(req.httpMethod, req.pathname) == NotFoundHandler
    ensures Handle(req, repos, init) == Outcome(TextResponse(404, "404 Not Found"), repos)
  {
  }

  /** The path is checked first: a bad info/refs path is a 400 whatever the service parameter says. */
  lemma InfoRefsBadPath(pathname: string, query: QueryValue, repos: set<string>, init: InitOutcome)
    requires forall name :: IsRepoName(name) ==> pathname != InfoRefsPath(name)
    ensures InfoRefsOutcome(pathname, query, repos, init)
      == Outcome(TextResponse(400, "Invalid info/refs path"), repos)
  {
  }

  /** On a good path, a missing, repeated or unknown service is a 400, before anything is created. */
  lemma InfoRefsBadService(name: string, query: QueryValue, repos: set<string>, init: InitOutcome)
    requires IsRepoName(name) && !IsAcceptedService(query)
    ensures InfoRefsOutcome(InfoRefsPath(name), query, repos, init)
      == Outcome(TextResponse(400, "Unsupported service"), repos)
  {
    MatchInfoRefsOf(name);
  }

  /**
   * From resolution on, a handler either fails with a plain 500 carrying init's diagnostic and
   * spawns nothing, or behaves as its success trace; init shows up exactly when it ran.
   */
  lemma AfterResolutionObserved(r: Resolution, success: seq<Effect>, stdout: string)
    requires HeadBeforeBody(success) && SpawnBeforePipes(success) && !RunsInit(success)
    requires StatusOf(success) == Some(200)
    ensures var e := AfterResolution(r, success);
      HeadBeforeBody(e) && SpawnBeforePipes(e) && (RunsInit(e) <==> r.RanInit())
      && (r.InitFailed? ==>
            StatusOf(e) == Some(500) && ContentTypeOf(e) == Some(TEXT_PLAIN)
            && BodyOf(e, stdout) == InitFailureMessage(r.stderr) && SpawnOf(e) == None)
      && (!r.InitFailed? ==>
            StatusOf(e) == Some(200) && ContentTypeOf(e) == ContentTypeOf(success)
            && BodyOf(e, stdout) == BodyOf(success, stdout) && SpawnOf(e) == SpawnOf(success)
            && (PipeRequestToStdin in e <==> PipeRequestToStdin in success))
  {
    if r.InitFailed? {
      var t := TextResponse(500, InitFailureMessage(r.stderr));
      TextResponseObserved(500, InitFailureMessage(r.stderr), stdout);
      InitEffectsObserved(r, t, stdout);
      assert !RunsInit(t);
    } else {
      InitEffectsObserved(r, success, stdout);
    }
  }

  /** The name a request resolves, if it gets as far as resolution. */
  function ResolvedName(req: Request): Option<string> {
    match Route(req.httpMethod, req.pathname)
    case InfoRefsHandler =>
      if MatchInfoRefs(req.pathname).Some? && IsAcceptedService(req.service)
      then MatchInfoRefs(req.pathname) else None
    case ServiceHandler(name, _) => Some(name)
    case NotFoundHandler => None
  }

  /**
   * A request that gets to resolution: its outcome is that of resolving its name, followed by
   * the trace of the handler it was routed to.
   */
  lemma HandleAfterResolution(req: Request, repos: set<string>, init: InitOutcome)
    requires ResolvedName(req).Some?
    ensures var r := ResolveIn(repos, ResolvedName(req).value, init);
      Handle(req, repos, init) == Outcome(AfterResolution(r, SuccessTrace(req, r.path)), ReposAfter(repos, r))
  {
  }

  /** The success trace of the handler a request that reaches resolution is routed to. */
  function SuccessTrace(req: Request, path: string): seq<Effect>
    requires ResolvedName(req).Some?
  {
    match Route(req.httpMethod, req.pathname)
    case InfoRefsHandler => AdvertiseTrace(req.service.value, path)
    case ServiceHandler(_, service) => RpcTrace(service, path)
  }

  /** A failed init answers 500 with the diagnostic, spawns nothing and creates nothing. */
  lemma InitFailureResponse(req: Request, repos: set<string>, init: InitOutcome, stdout: string)
    requires init.InitFails?
    requires ResolvedName(req).Some? && RepoPath(ResolvedName(req).value) !in repos
    ensures var o := Handle(req, repos, init);
      o.effects == [ExecSync(InitCommand(RepoPath(ResolvedName(req).value)))]
                   + TextResponse(500, InitFailureMessage(init.stderr))
      && o.repos == repos
      && StatusOf(o.effects) == Some(500) && ContentTypeOf(o.effects) == Some(TEXT_PLAIN)
      && BodyOf(o.effects, stdout) == InitFailureMessage(init.stderr)
      && SpawnOf(o.effects) == None
  {
    var r := ResolveIn(repos, ResolvedName(req).value, init);
    HandleAfterResolution(req, repos, init);
    SuccessTraceObserved(req, r.path, stdout);
    AfterResolutionObserved(r, SuccessTrace(req, r.path), stdout);
  }

  lemma SuccessTraceObserved(req: Request, path: string, stdout: string)
    requires ResolvedName(req).Some?
    ensures var t := SuccessTrace(req, path);
      HeadBeforeBody(t) && SpawnBeforePipes(t) && !RunsInit(t) && StatusOf(t) == Some(200)
      && SpawnOf(t).Some?
  {
    match Route(req.httpMethod, req.pathname)
    case InfoRefsHandler => AdvertiseTraceObserved(req.service.value, path, stdout);
    case ServiceHandler(_, service) => RpcTraceObserved(service, path, stdout);
  }

  /** A valid info/refs request is handled by advertising that name's repository. */
  lemma InfoRefsRequest(name: string, service: string, repos: set<string>, init: InitOutcome)
    requires IsRepoName(name) && IsService(service)
    ensures Handle(Request("GET", InfoRefsPath(name), Single(service)), repos, init)
      == AdvertiseOutcome(name, service, repos, init)
  {
    RouteGetInfoRefsPath(name);
    MatchInfoRefsOf(name);
  }

  /**
   * A POST to a pack path is handled by running that service on that name's repository;
   * the query string plays no part, whatever `service` it carries.
   */
  lemma GitServiceRequest(name: string, service: string, q: QueryValue, repos: set<string>, init: InitOutcome)
    requires IsRepoName(name) && IsService(service)
    ensures Handle(Request("POST", ServicePath(name, service), q), repos, init)
      == GitServiceOutcome(name, service, repos, init)
  {
    RoutePostServicePath(name, service);
  }

  /**
   * A well-formed ref-advertisement request for a repository that exists or can be created:
   * 200 with the advertisement content type, the engine spawned in advertise mode against the
   * resolved path, and a body that is the pkt-line preamble followed by the engine's output.
   */
  lemma InfoRefsSuccess(name: string, service: string, repos: set<string>, init: InitOutcome, stdout: string)
    requires IsRepoName(name) && IsService(service)
    requires RepoPath(name) in repos || init.InitSucceeds?
    ensures var o := Handle(Request("GET", InfoRefsPath(name), Single(service)), repos, init);
      StatusOf(o.effects) == Some(200)
      && ContentTypeOf(o.effects) == Some(AdvertisementType(service))
      && BodyOf(o.effects, stdout) == Preamble(service) + stdout
      && SpawnOf(o.effects) == Some((ENGINE, [CommandFor(service), "--stateless-rpc", "--advertise-refs", RepoPath(name)]))
      && PipeRequestToStdin !in o.effects
      && (RunsInit(o.effects) <==> RepoPath(name) !in repos)
      && o.repos == repos + {RepoPath(name)}
  {
    InfoRefsRequest(name, service, repos, init);
    AdvertiseOutcomeObserved(name, service, repos, init, stdout);
  }

  /** What a client observes of the advertisement once the name and service are known good. */
  lemma AdvertiseOutcomeObserved(name: string, service: string, repos: set<string>, init: InitOutcome, stdout: string)
    requires RepoPath(name) in repos || init.InitSucceeds?
    ensures var o := AdvertiseOutcome(name, service, repos, init);
      StatusOf(o.effects) == Some(200)
      && ContentTypeOf(o.effects) == Some(AdvertisementType(service))
      && BodyOf(o.effects, stdout) == Preamble(service) + stdout
      && SpawnOf(o.effects) == Some((ENGINE, AdvertiseArgs(service, RepoPath(name))))
      && PipeRequestToStdin !in o.effects
      && (RunsInit(o.effects) <==> RepoPath(name) !in repos)
      && o.repos == repos + {RepoPath(name)}
  {
    var r := ResolveIn(repos, name, init);
    AdvertiseTraceObserved(service, r.path, stdout);
    AfterResolutionObserved(r, AdvertiseTrace(service, r.path), stdout);
  }

  /**
   * A POST to a pack path for a repository that exists or can be created: 200 with the result
   * content type, the engine spawned in stateless-RPC mode, the request body piped into it,
   * and a body that is exactly the engine's output.
   */
  lemma GitServiceSuccess(name: string, service: string, q: QueryValue, repos: set<string>, init: InitOutcome,
                          stdout: string)
    requires IsRepoName(name) && IsService(service)
    requires RepoPath(name) in repos || init.InitSucceeds?
    ensures var o := Handle(Request("POST", ServicePath(name, service), q), repos, init);
      StatusOf(o.effects) == Some(200)
      && ContentTypeOf(o.effects) == Some(ResultType(service))
      && BodyOf(o.effects, stdout) == stdout
      && SpawnOf(o.effects) == Some((ENGINE, [CommandFor(service), "--stateless-rpc", RepoPath(name)]))
      && PipeRequestToStdin in o.effects
      && (RunsInit(o.effects) <==> RepoPath(name) !in repos)
      && o.repos == repos + {RepoPath(name)}
  {
    GitServiceRequest(name, service, q, repos, init);
    GitServiceOutcomeObserved(name, service, repos, init, stdout);
  }

  /** What a client observes of a pack service run once the name and service are known good. */
  lemma GitServiceOutcomeObserved(name: string, service: string, repos: set<string>, init: InitOutcome, stdout: string)
    requires RepoPath(name) in repos || init.InitSucceeds?
    ensures var o := GitServiceOutcome(name, service, repos, init);
      StatusOf(o.effects) == Some(200)
      && ContentTypeOf(o.effects) == Some(ResultType(service))
      && BodyOf(o.effects, stdout) == stdout
      && SpawnOf(o.effects) == Some((ENGINE, RpcArgs(service, RepoPath(name))))
      && PipeRequestToStdin in o.effects
      && (RunsInit(o.effects) <==> RepoPath(name) !in repos)
      && o.repos == repos + {RepoPath(name)}
  {
    var r := ResolveIn(repos, name, init);
    RpcTraceObserved(service, r.path, stdout);
    AfterResolutionObserved(r, RpcTrace(service, r.path), stdout);
    var e := AfterResolution(r, RpcTrace(service, r.path));
    assert e[|e| - 3] == PipeRequestToStdin;
  }

  /**
   * Every response is well formed (one `writeHead`, before any body; pipes only after the spawn),
   * and only a 200 spawns the engine. A request that stops before resolution runs no process and
   * leaves the repositories alone. One that resolves can only add its own repository, runs init
   * only if that repository was absent, and is a 200 exactly when the repository then exists.
   */
  lemma ResponsesWellFormed(req: Request, repos: set<string>, init: InitOutcome)
    ensures var o := Handle(req, repos, init);
      HeadBeforeBody(o.effects) && SpawnBeforePipes(o.effects)
      && (SpawnOf(o.effects).Some? ==> StatusOf(o.effects) == Some(200))
      && (ResolvedName(req).None? ==> !StartsProcess(o.effects) && o.repos == repos)
      && (ResolvedName(req).Some? ==>
            var path := RepoPath(ResolvedName(req).value);
            repos <= o.repos && o.repos - repos <= {path}
            && (RunsInit(o.effects) <==> path !in repos)
            && (StatusOf(o.effects) == Some(200) <==> path in o.repos))
  {
    var o := Handle(req, repos, init);
    if ResolvedName(req).Some? {
      var r := ResolveIn(repos, ResolvedName(req).value, init);
      HandleAfterResolution(req, repos, init);
      SuccessTraceObserved(req, r.path, "");
      AfterResolutionObserved(r, SuccessTrace(req, r.path), "");
    } else {
      match Route(req.httpMethod, req.pathname)
      case NotFoundHandler =>
        TextResponseObserved(404, "404 Not Found", "");
      case InfoRefsHandler =>
        if MatchInfoRefs(req.pathname).None? {
          TextResponseObserved(400, "Invalid info/refs path", "");
        } else {
          TextResponseObserved(400, "Unsupported service", "");
        }
    }
  }

  /**
   * A second request for a repository the first one served with a 200 never runs init,
   * whatever init would have done, and leaves the repositories as the first request left them.
   */
  lemma SecondRequestNeverInits(first: Request, second: Request, repos: set<string>, init1: InitOutcome, init2: InitOutcome)
    requires ResolvedName(first).Some? && ResolvedName(second) == ResolvedName(first)
    requires StatusOf(Handle(first, repos, init1).effects) == Some(200)
    ensures var after := Handle(first, repos, init1).repos;
      !RunsInit(Handle(second, after, init2).effects)
      && Handle(second, after, init2).repos == after
  {
    ResponsesWellFormed(first, repos, init1);
    ResponsesWellFormed(second, Handle(first, repos, init1).repos, init2);
  }

  // ---------------------------------------------------------------------------
  // Worked requests

  /** GET of an info/refs path with a trailing segment reaches the handler and is a 400, not a 404. */
  lemma NestedInfoRefsIsBadRequest(service: QueryValue, repos: set<string>, init: InitOutcome)
    ensures Handle(Request("GET", "/x/info/refs/y", service), repos, init)
      == Outcome(TextResponse(400, "Invalid info/refs path"), repos)
  {
    NestedInfoRefsReachesHandler();
  }

  /** A first clone of `foo` creates `repo/foo.git` and answers with the upload-pack advertisement. */
  lemma FirstCloneCreatesRepository(stdout: string)
    ensures var o := Handle(Request("GET", "/foo.git/info/refs", Single("git-upload-pack")), {}, InitSucceeds);
      StatusOf(o.effects) == Some(200)
      && RunsInit(o.effects)
      && ContentTypeOf(o.effects) == Some("application/x-git-upload-pack-advertisement")
      && BodyOf(o.effects, stdout) == "001e# service=git-upload-pack\n0000" + stdout
      && o.repos == {"repo/foo.git"}
  {
    FooPaths();
    InfoRefsSuccess("foo", UPLOAD_PACK, {}, InitSucceeds, stdout);
    UploadPackPreamble();
  }

  lemma FooPaths()
    ensures InfoRefsPath("foo") == "/foo.git/info/refs"
    ensures RepoPath("foo") == "repo/foo.git"
    ensures AdvertisementType(UPLOAD_PACK) == "application/x-git-upload-pack-advertisement"
  {
  }

  /** Info/refs without a usable service parameter is a 400 "Unsupported service". */
  lemma MissingOrUnknownService(repos: set<string>, init: InitOutcome)
    ensures Handle(Request("GET", "/foo.git/info/refs", Absent), repos, init)
      == Outcome(TextResponse(400, "Unsupported service"), repos)
    ensures Handle(Request("GET", "/foo.git/info/refs", Single("something-else")), repos, init)
      == Outcome(TextResponse(400, "Unsupported service"), repos)
    ensures Handle(Request("GET", "/foo.git/info/refs", Repeated([UPLOAD_PACK, UPLOAD_PACK])), repos, init)
      == Outcome(TextResponse(400, "Unsupported service"), repos)
  {
    FooPaths();
    RouteGetInfoRefsPath("foo");
    InfoRefsBadService("foo", Absent, repos, init);
    InfoRefsBadService("foo", Single("something-else"), repos, init);
    InfoRefsBadService("foo", Repeated([UPLOAD_PACK, UPLOAD_PACK]), repos, init);
  }

  /** Other paths and other methods are 404. */
  lemma UnroutedRequests(repos: set<string>, init: InitOutcome)
    ensures Handle(Request("GET", "/anything/else", Absent), repos, init)
      == Outcome(TextResponse(404, "404 Not Found"), repos)
    ensures Handle(Request("DELETE", "/foo.git/info/refs", Single(UPLOAD_PACK)), repos, init)
      == Outcome(TextResponse(404, "404 Not Found"), repos)
  {
    AnythingElseIsNotRouted();
    RouteOtherMethods("DELETE", "/foo.git/info/refs");
  }

  /** The characters of `/anything/else` that rule `/info/refs` out at each position. */
  lemma AnythingElseChars(p: string)
    requires p == "/anything/else"
    ensures |p| == 14 && p[1] == 'a' && forall j :: 0 < j < 5 ==> p[j] != '/'
  {
  }

  lemma AnythingElseIsNotRouted()
    ensures Route("GET", "/anything/else") == NotFoundHandler
  {
    var p := "/anything/else";
    var m := INFO_REFS_MARKER;
    AnythingElseChars(p);
    ContainsIffOccurs(p, m);
    // Position 0 fails at its second character; positions 1 to 4 do not start with `/`.
    forall i | 0 <= i && i + |m| <= |p| ensures !OccursAt(p, m, i) {
      var w := p[i..i + |m|];
      if i == 0 {
        assert w[1] == p[1] != m[1];
      } else {
        assert w[0] == p[i] != m[0];
      }
    }
  }

}
