# Git smart-HTTP server: a verified model of its decision core

`index.js` is a small Node.js server for Git's smart HTTP protocol. It answers two kinds of
request:

- `GET /<repo>.git/info/refs?service=git-upload-pack|git-receive-pack` returns the ref
  advertisement. The server writes a pkt-line service announcement, then streams the output of
  `git <cmd> --stateless-rpc --advertise-refs <path>`.
- `POST /<repo>.git/git-upload-pack|git-receive-pack` runs the pack exchange. It pipes the
  request body into `git <cmd> --stateless-rpc <path>` and that process's output back to the
  client.

On first use of a bare repository under `repo/`, the server creates it with `git init --bare`;
if that fails, the answer is a plain-text 500. An info/refs request with a malformed path or an
unsupported `service` parameter is a plain-text 400. Every request that is neither a GET whose
pathname contains `/info/refs` nor a POST to a pack path is a plain-text 404.

This project models the deterministic part of that behaviour. Every response is a function of
five inputs: the method, the pathname, the `service` query value, the set of repositories that
exist, and how `git init` ends. The modules are:

- `Strings`: `Option` and JavaScript's `String.prototype.includes`. `Contains` is proved equal to
  "occurs at some position".
- `PktLine`: the length field, built as JavaScript builds it (`n.toString(16).padStart(4, '0')`),
  and pkt-line encoding. Also the two-packet preamble, `# service=<svc>\n` followed by the
  flush-pkt `0000`. It includes a reader for pkt-lines, so the framing is proved by a round trip.
  The preambles are proved to be exactly `001e# service=git-upload-pack\n0000` and
  `001f# service=git-receive-pack\n0000`. This is the "pkt-line Format" section of
  gitprotocol-common(5) and the "Smart Server Response" of gitprotocol-http(5).
- `Routing`: the two anchored patterns, dispatch on method and pathname, and the handler chosen.
  The info/refs pattern is `^/([^/]+)<literal suffix>$`, so a match means a leading `/`, the
  suffix, and a non-empty slash-free middle. The service pattern ends in a choice between two
  literal suffixes, `.git/git-upload-pack` and `.git/git-receive-pack`; `MatchServicePath` tries
  each of them in turn with the same single-suffix matcher.
- `Repository`: the repository path `repo/<name>.git` and the check-then-create resolution.
  The class `RepoStore` holds the set of existing repository paths. Its `Resolve` method changes
  that set as `existsSync` followed by `execSync('git init --bare …')` changes the filesystem.
- `Server`: each handler is a method over a `RepoStore` that returns the trace of effects it
  performs. The effects are `execSync`, `spawn`, `writeHead`, `write`, `end`, the two pipes, and
  the stderr drain. Each method is proved equal to a pure outcome function (`InfoRefsOutcome`,
  `GitServiceOutcome`, `Handle`). The remaining lemmas state what the source promises about those
  functions: status, content type, body, spawned argv, repository creation and idempotence.

Routing checks only that a GET's pathname contains `/info/refs` (index.js:14). The handler then
applies the full pattern (index.js:34), so `GET /x/info/refs/y` is a 400 "Invalid info/refs
path", not a 404 (`Routing.NestedInfoRefsReachesHandler`, `Server.NestedInfoRefsIsBadRequest`).

## Model

| member | source | states |
|---|---|---|
| Strings.ContainsIffOccurs | index.js:14 | `includes` holds exactly when the marker occurs at some position of the pathname |
| Strings.Contains | index.js:14 | `pathname.includes(sub)`, defined by trying each start position in turn; `Strings.ContainsIffOccurs` proves it equal to "occurs at some position" |
| PktLine.LengthField | index.js:68 | `(n).toString(16).padStart(4, '0')`, defined as `PadStart(ToHex(n), 4, '0')`; its properties are stated by `PktLine.LengthFieldExact`, `PktLine.LengthFieldOf30` and `PktLine.LengthFieldOf31` |
| PktLine.Encode | index.js:67-68 | one data pkt-line, the length field for the payload length plus four followed by the payload; `PktLine.EncodeRoundTrip` proves the reader gives the payload back |
| PktLine.ServiceHeader | index.js:66 | the header `# service=<svc>\n`; its two concrete values are stated by `PktLine.UploadPackHeader` and `PktLine.ReceivePackHeader` |
| PktLine.Preamble | index.js:66-68 | the header as one pkt-line followed by the flush-pkt `0000`; `PktLine.PreambleDecodes`, `PktLine.PreambleClosedForm` and `PktLine.PreambleIsAscii` state its properties |
| PktLine.HexDigitValue | index.js:68 | the value of a hexadecimal digit, either case, is below 16 |
| PktLine.ToHex | index.js:68 | `toString(16)` is non-empty, is lower-case hexadecimal, and reads back as the number |
| PktLine.PadStart | index.js:68 | `padStart` yields at least the width; it ends with the original string and is filled only before it |
| PktLine.LengthFieldExact | index.js:68 | a length below 0x10000 gives exactly four lower-case hex digits that parse back to it; from 0x10000 on, the field grows past four characters |
| PktLine.ParseLength | index.js:68 | a parsed four-character length field is below 16^4 |
| PktLine.ReadPacket | index.js:66-68 | reading a packet consumes input, so the rest is strictly shorter |
| PktLine.EncodeRoundTrip | index.js:66-68 | reading an encoded pkt-line of legal length gives back its payload and exactly what followed it |
| PktLine.FlushRoundTrip | index.js:68 | the flush-pkt `0000` reads as a flush and consumes four characters |
| PktLine.PreambleDecodes | index.js:66-68 | the preamble's length field holds the header length plus four; it decodes as one data packet with the header, then exactly the flush-pkt |
| PktLine.LengthFieldOf30 | index.js:68 | the upload-pack header's length field is `001e` |
| PktLine.LengthFieldOf31 | index.js:68 | the receive-pack header's length field is `001f` |
| PktLine.UploadPackPreamble | index.js:66-68 | the upload-pack preamble is byte for byte `001e# service=git-upload-pack\n0000` |
| PktLine.ReceivePackPreamble | index.js:66-68 | the receive-pack preamble is byte for byte `001f# service=git-receive-pack\n0000` |
| PktLine.PreambleClosedForm | index.js:66-68 | both preambles the server can send, written out |
| PktLine.PreambleIsAscii | index.js:66-68 | for an ASCII service name the preamble is ASCII, so `.length` counts its bytes |
| Routing.MatchCapture | index.js:18 | a match of `^/([^/]+)<suffix>$` captures a non-empty, slash-free name, and the path is `/` + name + suffix |
| Routing.MatchCaptureComplete | index.js:18 | every non-empty, slash-free name matches, and it is what is captured |
| Routing.MatchInfoRefs | index.js:34 | the info/refs pattern matches exactly the paths `/<name>.git/info/refs` for a single-segment name, capturing that name (both directions) |
| Routing.MatchInfoRefsOf | index.js:34 | an info/refs path of a valid name is matched with that name |
| Routing.MatchServicePath | index.js:18-22 | the service pattern matches exactly `/<name>.git/<service>` for a single-segment name and one of the two services, capturing both (both directions) |
| Routing.MatchServicePathOf | index.js:20-22 | a pack path is matched with its own name and service; a receive-pack path never matches as upload-pack |
| Routing.Route | index.js:14-27 | the service handler is chosen only with a valid name and service whose pack path is the request path |
| Routing.RouteGet | index.js:14-15 | a GET goes to the info/refs handler exactly when `/info/refs` occurs in its pathname, otherwise to 404 |
| Routing.RouteGetInfoRefsPath | index.js:14-15 | every well-formed info/refs GET reaches the info/refs handler |
| Routing.RoutePost | index.js:16-23 | a POST goes to the service handler exactly when its path is a pack path, otherwise to 404 |
| Routing.RoutePostServicePath | index.js:16-23 | a POST to a pack path reaches the service handler with that name and service |
| Routing.RouteOtherMethods | index.js:24-27 | a method other than GET and POST is never routed |
| Routing.RoutePostInfoRefsPath | index.js:16-27 | a POST to an info/refs path is not routed |
| Routing.RouteGetServicePath | index.js:14-27 | a GET to a pack path is not routed, because `/info/refs` never occurs in it |
| Routing.ServicePathSlashes | index.js:18 | a pack path has slashes only at the start and before the service |
| Routing.PatternsDisjoint | index.js:18-34 | no path matches both patterns |
| Routing.NestedInfoRefsReachesHandler | index.js:14-15 | `/x/info/refs/y` reaches the info/refs handler, yet the full pattern rejects it |
| Repository.RepoPath | index.js:51 | `path.join('repo', name + '.git')`, defined as `repo/` + name + `.git`; `Repository.RepoPathIsChildOfRoot` and `Repository.RepoPathInjective` state its properties |
| Repository.InitCommand | index.js:55 | the command line `git init --bare <path>`; `Server.InitFailureResponse` shows it is what a failing request runs |
| Repository.ResolveIn | index.js:51-61 | the path is `repo/<name>.git`; init runs exactly when the path is absent; resolution fails exactly when it is absent and init fails, and then carries init's stderr |
| Repository.ReposAfter | index.js:52-55 | resolution only adds its own path, and the path exists afterwards exactly when it existed or was created |
| Repository.ResolveOutcome | index.js:52-61 | a resolution that did not fail leaves the repository in place; a failed one changes nothing |
| Repository.ResolveIdempotent | index.js:52-61 | after a resolution that did not fail, resolving the same name finds it, never inits and changes nothing, whatever init would do |
| Repository.RepoPathIsChildOfRoot | index.js:51 | the resolved path is `repo/` followed by one segment, `<name>.git`, which is never `.` or `..` |
| Repository.RepoPathInjective | index.js:85 | distinct names resolve to distinct paths |
| Repository.RepoStore.constructor | index.js:52 | a store starts with the given set of repository paths |
| Repository.RepoStore.Resolve | index.js:85-95 | check-then-create returns the resolution of the set before the call and leaves the set the resolution implies |
| Server.HandleInfoRefs | index.js:32-49 | the handler's effects and new repository set are those of the info/refs outcome on the old set: path check, then service check, then advertisement |
| Server.AdvertiseRefs | index.js:51-76 | resolution, then spawn in advertise mode, the 200 head, the preamble write and the pipes, or init's 500 |
| Server.HandleGitService | index.js:84-106 | resolution, then spawn in stateless-RPC mode, the 200 head and both pipes, or init's 500 |
| Server.Dispatch | index.js:9-27 | the server callback's effects and new repository set are those of `Handle` on the old set |
| Server.CommandFor | index.js:63 | the ternary choosing `upload-pack` for `git-upload-pack` and `receive-pack` otherwise; `Server.CommandMatchesService` proves it is the service name without `git-` |
| Server.IsAcceptedService | index.js:45 | the query value is a single string equal to one of the two services; `Server.InfoRefsBadService` and `Server.MissingOrUnknownService` state what happens otherwise |
| Server.InfoRefsOutcome | index.js:32-76 | the info/refs handler's outcome: path check, then service check, then advertisement; `Server.InfoRefsBadPath`, `Server.InfoRefsBadService` and `Server.InfoRefsSuccess` state its cases, and `Server.HandleInfoRefs` is proved equal to it |
| Server.AdvertiseOutcome | index.js:51-76 | resolution followed by the advertisement trace or init's 500; `Server.AdvertiseOutcomeObserved` states what a client observes, and `Server.AdvertiseRefs` is proved equal to it |
| Server.GitServiceOutcome | index.js:84-106 | resolution followed by the stateless-RPC trace or init's 500; `Server.GitServiceOutcomeObserved` states what a client observes, and `Server.HandleGitService` is proved equal to it |
| Server.Handle | index.js:9-27 | the whole callback's outcome, by the route chosen; `Server.ResponsesWellFormed`, `Server.NotFoundResponse`, `Server.InitFailureResponse`, `Server.InfoRefsSuccess`, `Server.GitServiceSuccess` and `Server.SecondRequestNeverInits` state its properties, and `Server.Dispatch` is proved equal to it |
| Server.AdvertiseArgs | index.js:64 | the argv `<cmd> --stateless-rpc --advertise-refs <path>`; `Server.AdvertiseTraceObserved` and `Server.InfoRefsSuccess` state it is what the advertisement spawns |
| Server.RpcArgs | index.js:98 | the argv `<cmd> --stateless-rpc <path>`; `Server.RpcTraceObserved` and `Server.GitServiceSuccess` state it is what a service run spawns |
| Server.AdvertisementType | index.js:71 | the content type `application/x-<svc>-advertisement`; `Server.AdvertiseTraceObserved` states it is the advertisement's type |
| Server.ResultType | index.js:101 | the content type `application/x-<svc>-result`; `Server.RpcTraceObserved` states it is a service run's type |
| Server.TextResponse | index.js:25-26 | a `text/plain` head with the given status, then the body, as at lines 25-26, 37-38, 46-47 and 57-58; `Server.TextResponseObserved` states what a client observes of it |
| Server.InitFailureMessage | index.js:58 | `Failed to create repo:\n` followed by init's stderr; `Server.AfterResolutionObserved` and `Server.InitFailureResponse` state it is the 500's body |
| Server.InitEffects | index.js:55 | the `execSync` of the init command when resolution ran it, nothing otherwise; `Server.InitEffectsObserved` states that it changes nothing a client observes |
| Server.AdvertiseTrace | index.js:63-76 | spawn, 200 head, preamble write, stdout pipe, stderr drain; `Server.AdvertiseTraceObserved` states its status, type, body, argv and that it never reads the request |
| Server.RpcTrace | index.js:97-106 | spawn, 200 head, request pipe, stdout pipe, stderr drain; `Server.RpcTraceObserved` states its status, type, body, argv and that it pipes the request in |
| Server.AfterResolution | index.js:52-61 | the init effect, then init's 500 or the given success trace; `Server.AfterResolutionObserved` states what a client observes in each case |
| Server.CommandMatchesService | index.js:63 | the engine command is the service name without its `git-` prefix |
| Server.TextResponseObserved | index.js:25-26 | a text response is that status, `text/plain`, that body, and spawns nothing |
| Server.AdvertiseTraceObserved | index.js:63-76 | the advertisement is 200 with `application/x-<svc>-advertisement`; body is preamble then engine output; spawns `git <cmd> --stateless-rpc --advertise-refs <path>` |
| Server.RpcTraceObserved | index.js:97-106 | the service run is 200 with `application/x-<svc>-result`; body is exactly engine output; spawns `git <cmd> --stateless-rpc <path>`; pipes the request in |
| Server.InitEffectsObserved | index.js:52-55 | running `git init` first changes nothing the client sees |
| Server.AfterResolutionObserved | index.js:52-61 | once resolved, a handler answers 500 `text/plain` with `Failed to create repo:\n` + stderr and spawns nothing, or answers as its success trace |
| Server.NotFoundResponse | index.js:24-27 | an unrouted request is 404 `text/plain` `404 Not Found` and changes nothing |
| Server.InfoRefsBadPath | index.js:34-40 | a path failing the info/refs pattern is 400 `Invalid info/refs path` whatever the service, and changes nothing |
| Server.InfoRefsBadService | index.js:42-49 | on a good path, a missing, repeated or unknown service is 400 `Unsupported service`, before anything is created |
| Server.HandleAfterResolution | index.js:51-61 | a request that gets to resolution answers by its resolution followed by its handler's trace |
| Server.SuccessTraceObserved | index.js:63-106 | a handler's success trace is a well-formed 200 that spawns the engine |
| Server.InitFailureResponse | index.js:54-60 | a failed init answers with the init command, then 500 with the diagnostic; it spawns nothing and creates nothing |
| Server.InfoRefsRequest | index.js:14-15 | a well-formed info/refs GET is handled as the advertisement for that name and service |
| Server.GitServiceRequest | index.js:16-23 | a POST to a pack path is handled as that service on that name, whatever query string it carries |
| Server.AdvertiseOutcomeObserved | index.js:51-76 | what a client observes of an advertisement once the repository exists or can be created |
| Server.GitServiceOutcomeObserved | index.js:85-106 | what a client observes of a service run once the repository exists or can be created |
| Server.InfoRefsSuccess | index.js:32-76 | a good info/refs request on a repository that exists or can be created: 200, advertisement type, preamble before engine bytes, exact argv, the request never piped to the engine, init iff absent, repository exists afterwards |
| Server.GitServiceSuccess | index.js:84-106 | a POST to a pack path on such a repository, with any query string: 200, result type, body exactly engine output, exact argv, request piped in, init iff absent, repository exists afterwards |
| Server.WritePrefixObserved | index.js:70-76 | a trace that writes a prefix before piping engine output has that prefix before the engine's bytes in its body |
| Server.ResponsesWellFormed | index.js:9-113 | every response sets headers once, before any body, and pipes only after a spawn; only a 200 spawns; a request stopped before resolution runs nothing and changes nothing; a resolved one adds only its own repository, inits iff absent, and is 200 iff the repository then exists |
| Server.SecondRequestNeverInits | index.js:52-61 | after a 200 for a repository, another request for it never runs init and changes nothing |
| Server.NestedInfoRefsIsBadRequest | index.js:14-40 | `GET /x/info/refs/y` is 400 `Invalid info/refs path`, not 404 |
| Server.FirstCloneCreatesRepository | index.js:32-75 | the first upload-pack advertisement of `foo` runs init and creates `repo/foo.git`; it is 200 with the upload-pack advertisement type and body `001e# service=git-upload-pack\n0000` + engine output |
| Server.FooPaths | index.js:51 | the info/refs path, repository path and advertisement type for `foo`, written out |
| Server.MissingOrUnknownService | index.js:43-49 | `/foo.git/info/refs` with no service, an unknown one, or a repeated one is 400 `Unsupported service` |
| Server.UnroutedRequests | index.js:14-27 | `GET /anything/else` and `DELETE /foo.git/info/refs` are 404 `404 Not Found` |
| Server.AnythingElseIsNotRouted | index.js:14 | `/anything/else` does not contain `/info/refs` |

## Left out

- The HTTP server itself, `listen`, the port and console logging (index.js:1-9, 28-30, 53, 87) are I/O. They are not modelled.
- `url.parse` is not modelled. The pathname is taken as given, with no percent-decoding. The
  `service` query value is either absent, one string, or a list (a repeated parameter); only a
  single string can pass the equality check.
- Process I/O is not modelled, beyond the effect trace that records each step: the real
  `spawn`, the streaming of `git.stdout` to the response and of the request into `git.stdin`,
  the stderr drain, and the exit-code logging. The engine output appears only as the `stdout`
  parameter of the observation lemmas. Backpressure, client disconnects and non-zero exit codes
  are concurrency and foreign I/O.
- The filesystem is modelled as the set of existing repository paths. `existsSync` is
  membership in that set. How `execSync('git init --bare …')` ends is a parameter. A failed init
  is taken to leave the filesystem as it was.
- Between the existence check and the creation, another request may create the same repository.
  This check-then-create race is concurrency and is not modelled.
- The shell parses `git init --bare ${repoPath}` without quoting (index.js:55, 89). `url.parse`
  percent-escapes spaces, quotes, backquotes, `|`, `<`, `>`, `{`, `}` and `^` in the pathname,
  but `[^/]+` still lets `;`, `&`, `$`, `(`, `)` and `*` through, so the command line is open
  to expansion and injection. The model records the command as a string and does not model
  the shell.
- A successful init is taken to create exactly `RepoPath(name)` (`Repository.ReposAfter`). For
  a name the shell rewrites, such as `*` or `$(echo)a`, it may create another path, and the next
  request would find the repository absent and run init again. So `Server.SecondRequestNeverInits`,
  `Repository.ResolveIdempotent` and the repository-set clauses of `Server.ResponsesWellFormed`
  hold only for names the shell leaves unchanged.
- JavaScript strings are UTF-16, so `.length` counts code units, not bytes. The closed forms and
  `PktLine.PreambleIsAscii` cover the two ASCII service names the server accepts.
- `PktLine.ReadPacket` is a reader used only to state the round trip. It accepts either case of
  hex digits and does not enforce the 65520-byte maximum on what it reads.
- `path.join` is taken to join with `/`, as it does on POSIX systems; on Windows it would use
  `\`, which the set of repository paths does not model.
- `err.stderr` may be a Buffer in Node.js. It is modelled as the string it is converted to.
