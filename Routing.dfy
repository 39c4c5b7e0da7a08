/**
 * Request routing of the server: the two URL patterns it recognises and the dispatch
 * on method and pathname that picks a handler.
 *
 * Each pattern is anchored and starts with `^/([^/]+)`. The info/refs pattern then has one
 * literal suffix; the service pattern ends in a choice between two literal suffixes, tried
 * in turn. For one literal suffix a match is decided by a fixed prefix `/`, the suffix, and
 * a non-empty slash-free middle, which is the captured repository name.
 */
module Routing {
  import opened Strings

  const UPLOAD_PACK: string := "git-upload-pack"
  const RECEIVE_PACK: string := "git-receive-pack"

  /** The literal tail of `^/([^/]+)\.git/info/refs$`. */
  const INFO_REFS_SUFFIX: string := ".git/info/refs"

  /** What the router looks for, anywhere in the pathname, to pick the info/refs handler. */
  const INFO_REFS_MARKER: string := "/info/refs"

  /** A name the capture group `([^/]+)` can produce: one non-empty path segment. */
  predicate IsRepoName(name: string) {
    |name| > 0 && '/' !in name
  }

  /** The two pack services the server offers. */
  predicate IsService(service: string) {
    service == UPLOAD_PACK || service == RECEIVE_PACK
  }

  function InfoRefsPath(name: string): string {
    "/" + name + INFO_REFS_SUFFIX
  }

  function ServicePath(name: string, service: string): string {
    "/" + name + ".git/" + service
  }

  /** The anchored pattern `^/([^/]+)<suffix>$` for a literal `suffix`: its capture, if it matches. */
  function MatchCapture(pathname: string, suffix: string): (r: Option<string>)
    ensures r.Some? ==> IsRepoName(r.value) && pathname == "/" + r.value + suffix
  {
    var end := |pathname| - |suffix|;
    if |pathname| > |suffix| + 1 && pathname[0] == '/' && pathname[end..] == suffix
       && '/' !in pathname[1..end]
    then
      assert pathname == "/" + pathname[1..end] + suffix;
      Some(pathname[1..end])
    else None
  }

  /** Every slash-free non-empty name is matched, and it is what the pattern captures. */
  lemma MatchCaptureComplete(name: string, suffix: string)
    requires IsRepoName(name)
    ensures MatchCapture("/" + name + suffix, suffix) == Some(name)
  {
    var p := "/" + name + suffix;
    assert p[|p| - |suffix|..] == suffix;
    assert p[1..|p| - |suffix|] == name;
  }

  lemma MatchCaptureCompleteAll(suffix: string)
    ensures forall name :: IsRepoName(name) ==> MatchCapture("/" + name + suffix, suffix) == Some(name)
  {
    forall name | IsRepoName(name)
      ensures MatchCapture("/" + name + suffix, suffix) == Some(name)
    {
      MatchCaptureComplete(name, suffix);
    }
  }

  /**
   * `pathname.match(/^\/([^/]+)\.git\/info\/refs$/)`: the repository name, exactly when the
   * pathname is `/<name>.git/info/refs` for a single-segment name.
   */
  function MatchInfoRefs(pathname: string): (r: Option<string>)
    ensures r.Some? ==> IsRepoName(r.value) && pathname == InfoRefsPath(r.value)
    ensures r.None? ==> forall name :: IsRepoName(name) ==> pathname != InfoRefsPath(name)
  {
    MatchCaptureCompleteAll(INFO_REFS_SUFFIX);
    MatchCapture(pathname, INFO_REFS_SUFFIX)
  }

  lemma MatchInfoRefsOf(name: string)
    requires IsRepoName(name)
    ensures MatchInfoRefs(InfoRefsPath(name)) == Some(name)
  {
    MatchCaptureComplete(name, INFO_REFS_SUFFIX);
  }

  lemma ServicePathSplit(name: string, service: string)
    ensures ServicePath(name, service) == "/" + name + (".git/" + service)
  {
  }

  /**
   * `pathname.match(/^\/([^/]+)\.git\/(git-(upload|receive)-pack)$/)`: the repository name and
   * the service (capture groups 1 and 2), exactly when the pathname is `/<name>.git/<service>`.
   */
  function MatchServicePath(pathname: string): (r: Option<(string, string)>)
    ensures r.Some? ==>
      IsRepoName(r.value.0) && IsService(r.value.1) && pathname == ServicePath(r.value.0, r.value.1)
    ensures r.None? ==>
      forall name, service :: IsRepoName(name) && IsService(service) ==> pathname != ServicePath(name, service)
  {
    MatchCaptureCompleteAll(".git/" + UPLOAD_PACK);
    MatchCaptureCompleteAll(".git/" + RECEIVE_PACK);
    assert forall name, service :: ServicePath(name, service) == "/" + name + (".git/" + service);
    match MatchCapture(pathname, ".git/" + UPLOAD_PACK)
    case Some(name) => Some((name, UPLOAD_PACK))
    case None =>
      match MatchCapture(pathname, ".git/" + RECEIVE_PACK)
      case Some(name) => Some((name, RECEIVE_PACK))
      case None => None
  }

  lemma MatchServicePathOf(name: string, service: string)
    requires IsRepoName(name) && IsService(service)
    ensures MatchServicePath(ServicePath(name, service)) == Some((name, service))
  {
    var p := ServicePath(name, service);
    ServicePathSplit(name, service);
    if service == UPLOAD_PACK {
      MatchCaptureComplete(name, ".git/" + UPLOAD_PACK);
    } else {
      MatchCaptureComplete(name, ".git/" + RECEIVE_PACK);
      // The receive-pack path does not end in the upload-pack suffix.
      var suffix := ".git/" + UPLOAD_PACK;
      assert p[|p| - 15] == 'i';
      assert suffix[5] == 'g';
      assert p[|p| - |suffix|..] != suffix;
    }
  }

  /** The handler a request is dispatched to by the server's `createServer` callback. */
  datatype Handler =
    | InfoRefsHandler
    | ServiceHandler(repoName: string, service: string)
    | NotFoundHandler

  /**
   * The dispatch: a GET whose pathname merely contains `/info/refs` goes to the info/refs
   * handler (which checks the full pattern itself); a POST whose pathname matches the
   * service pattern goes to the service handler with the captured name and service.
   */
  function Route(httpMethod: string, pathname: string): (h: Handler)
    ensures h.ServiceHandler? ==>
      IsRepoName(h.repoName) && IsService(h.service) && pathname == ServicePath(h.repoName, h.service)
  {
    if httpMethod == "GET" && Contains(pathname, INFO_REFS_MARKER) then InfoRefsHandler
    else if httpMethod == "POST" && MatchServicePath(pathname).Some? then
      ServiceHandler(MatchServicePath(pathname).value.0, MatchServicePath(pathname).value.1)
    else NotFoundHandler
  }

  /** A GET goes to the info/refs handler exactly when `/info/refs` occurs in its pathname. */
  lemma RouteGet(pathname: string)
    ensures Route("GET", pathname) == InfoRefsHandler <==> exists i :: OccursAt(pathname, INFO_REFS_MARKER, i)
    ensures Route("GET", pathname) != InfoRefsHandler ==> Route("GET", pathname) == NotFoundHandler
  {
    ContainsIffOccurs(pathname, INFO_REFS_MARKER);
  }

  lemma RouteGetInfoRefsPath(name: string)
    requires IsRepoName(name)
    ensures Route("GET", InfoRefsPath(name)) == InfoRefsHandler
  {
    var p := InfoRefsPath(name);
    assert p[|name| + 5..|name| + 5 + |INFO_REFS_MARKER|] == INFO_REFS_MARKER;
    ContainsAt(p, INFO_REFS_MARKER, |name| + 5);
  }

  /** A POST goes to the service handler exactly for `/<name>.git/<service>`, with that name and service. */
  lemma RoutePost(pathname: string)
    ensures Route("POST", pathname).ServiceHandler? <==>
      exists name, service :: IsRepoName(name) && IsService(service) && pathname == ServicePath(name, service)
    ensures !Route("POST", pathname).ServiceHandler? ==> Route("POST", pathname) == NotFoundHandler
  {
  }

  lemma RoutePostServicePath(name: string, service: string)
    requires IsRepoName(name) && IsService(service)
    ensures Route("POST", ServicePath(name, service)) == ServiceHandler(name, service)
  {
    MatchServicePathOf(name, service);
  }

  /** Any method other than GET and POST is not found, whatever the pathname. */
  lemma RouteOtherMethods(httpMethod: string, pathname: string)
    requires httpMethod != "GET" && httpMethod != "POST"
    ensures Route(httpMethod, pathname) == NotFoundHandler
  {
  }

  /** The two patterns never match the same pathname. */
  lemma PatternsDisjoint(name: string, other: string, service: string)
    requires IsService(service)
    ensures InfoRefsPath(name) != ServicePath(other, service)
  {
    var a := InfoRefsPath(name);
    var b := ServicePath(other, service);
    assert a[|a| - 1] == 's';
    assert b[|b| - 1] == 'k';
  }

  /** A POST to an info/refs path is not routed. */
  lemma RoutePostInfoRefsPath(name: string)
    ensures Route("POST", InfoRefsPath(name)) == NotFoundHandler
  {
    var p := InfoRefsPath(name);
    if MatchServicePath(p).Some? {
      var m := MatchServicePath(p).value;
      PatternsDisjoint(name, m.0, m.1);
    }
  }

  /** A pack path has exactly two slashes: the leading one and the one before the service. */
  lemma ServicePathSlashes(name: string, service: string)
    requires IsRepoName(name) && IsService(service)
    ensures var p := ServicePath(name, service);
      (forall j :: 0 < j < |p| && j != |name| + 5 ==> p[j] != '/')
      && p[|name| + 6] == 'g'
  {
    var p := ServicePath(name, service);
    forall j | 0 < j < |p| && j != |name| + 5
      ensures p[j] != '/'
    {
      if j <= |name| {
        assert p[j] == name[j - 1];
      } else if |name| + 5 < j {
        assert p[j] == service[j - |name| - 6];
      }
    }
  }

  /** A GET to a pack path is not routed: `/info/refs` never occurs in it. */
  lemma RouteGetServicePath(name: string, service: string)
    requires IsRepoName(name) && IsService(service)
    ensures Route("GET", ServicePath(name, service)) == NotFoundHandler
  {
    var p := ServicePath(name, service);
    var m := INFO_REFS_MARKER;
    ContainsIffOccurs(p, m);
    ServicePathSlashes(name, service);
    forall i | 0 <= i && i + |m| <= |p|
      ensures !OccursAt(p, m, i)
    {
      // The marker has slashes five apart and an `i` after the first; the path has neither.
      var w := p[i..i + |m|];
      if i == |name| + 5 {
        assert w[1] == p[i + 1] == 'g';
      } else if i == 0 {
        assert w[5] == p[5] != '/';
      } else {
        assert w[0] == p[i] != '/';
      }
    }
  }

  /**
   * Routing by substring lets through GETs the info/refs pattern rejects:
   * `/x/info/refs/y` reaches the info/refs handler, whose full match then fails.
   */
  lemma NestedInfoRefsReachesHandler()
    ensures Route("GET", "/x/info/refs/y") == InfoRefsHandler
    ensures MatchInfoRefs("/x/info/refs/y") == None
  {
    var p := "/x/info/refs/y";
    assert p[2..2 + |INFO_REFS_MARKER|] == INFO_REFS_MARKER;
    ContainsAt(p, INFO_REFS_MARKER, 2);
    assert p[|p| - 1] == 'y';
  }
}
