/**
 The request dispatcher (backend/src/server.ts): route table, admin check and maintenance gate.

 A path is the list of its segments, "/admin/jobs" being ["admin", "jobs"] and a doubled or trailing
 slash giving an empty segment. The route patterns are anchored and never match across a slash, so
 they are lists of pieces.
 */
module Dispatcher {
  import opened Wrappers

  type Path = seq<string>

  /** A literal segment, `[^/]+`, or `[a-z0-9_]+`. */
  datatype Piece = Lit(text: string) | Any | Name

  datatype Route = Route(verb: string, pattern: seq<Piece>, admin: bool)

  datatype RouteId =
    | HealthLive | HealthReady | Health | HealthCheck | Metrics
    | Jobs | Job | JobRetry | Cleanup | CacheStats | CacheClear
    | MyAccess | SubmitAccess | ListAccess | ReviewAccess
    | VerificationProgress | MaintenanceStatus | MaintenanceShow | MaintenanceOn | MaintenanceOff
    | Deliveries | Delivery | Redeliver | Reindex | ReindexJob
    | Verification | Verifications | Certificate

  function RouteOf(id: RouteId): Route {
    match id
    case HealthLive => Route("GET", [Lit("health"), Lit("live")], false)
    case HealthReady => Route("GET", [Lit("health"), Lit("ready")], false)
    case Health => Route("GET", [Lit("health")], false)
    case HealthCheck => Route("POST", [Lit("admin"), Lit("health"), Name, Lit("check")], true)
    case Metrics => Route("GET", [Lit("metrics")], false)
    case Jobs => Route("GET", [Lit("admin"), Lit("jobs")], true)
    case Job => Route("GET", [Lit("admin"), Lit("jobs"), Any], true)
    case JobRetry => Route("POST", [Lit("admin"), Lit("jobs"), Any, Lit("retry")], true)
    case Cleanup => Route("POST", [Lit("admin"), Lit("maintenance"), Lit("cleanup")], true)
    case CacheStats => Route("GET", [Lit("admin"), Lit("cache")], true)
    case CacheClear => Route("DELETE", [Lit("admin"), Lit("cache")], true)
    case MyAccess => Route("GET", [Lit("api"), Lit("access-requests"), Lit("me")], false)
    case SubmitAccess => Route("POST", [Lit("api"), Lit("access-requests")], false)
    case ListAccess => Route("GET", [Lit("admin"), Lit("access-requests")], true)
    case ReviewAccess => Route("POST", [Lit("admin"), Lit("access-requests"), Any, Lit("review")], true)
    case VerificationProgress => Route("GET", [Lit("api"), Lit("verifications"), Any, Lit("progress")], false)
    case MaintenanceStatus => Route("GET", [Lit("api"), Lit("status"), Lit("maintenance")], false)
    case MaintenanceShow => Route("GET", [Lit("admin"), Lit("maintenance")], true)
    case MaintenanceOn => Route("PUT", [Lit("admin"), Lit("maintenance")], true)
    case MaintenanceOff => Route("DELETE", [Lit("admin"), Lit("maintenance")], true)
    case Deliveries => Route("GET", [Lit("admin"), Lit("webhooks"), Lit("deliveries")], true)
    case Delivery => Route("GET", [Lit("admin"), Lit("webhooks"), Lit("deliveries"), Any], true)
    case Redeliver => Route("POST", [Lit("admin"), Lit("webhooks"), Lit("deliveries"), Any, Lit("redeliver")], true)
    case Reindex => Route("POST", [Lit("api"), Lit("admin"), Lit("reindex")], true)
    case ReindexJob => Route("GET", [Lit("api"), Lit("admin"), Lit("reindex"), Any], true)
    case Verification => Route("GET", [Lit("api"), Lit("verifications"), Any], false)
    case Verifications => Route("GET", [Lit("api"), Lit("verifications")], false)
    case Certificate => Route("GET", [Lit("api"), Lit("certificates"), Any], false)
  }

  predicate PieceMatches(p: Piece, segment: string) {
    match p
    case Lit(text) => segment == text
    case Any => segment != ""
    case Name => segment != "" && forall i :: 0 <= i < |segment| ==> 'a' <= segment[i] <= 'z' || '0' <= segment[i] <= '9' || segment[i] == '_'
  }

  predicate Matches(r: Route, verb: string, path: Path) {
    r.verb == verb && |r.pattern| == |path| && forall i :: 0 <= i < |path| ==> PieceMatches(r.pattern[i], path[i])
  }

  /** `routes.find(...)` over a table in some order. */
  function Find(table: seq<RouteId>, verb: string, path: Path): Option<RouteId> {
    if table == [] then None
    else if Matches(RouteOf(table[0]), verb, path) then Some(table[0])
    else Find(table[1..], verb, path)
  }

  /** The table in the order it is written. */
  const ROUTES: seq<RouteId> := [
    HealthLive, HealthReady, Health, HealthCheck, Metrics, Jobs, Job, JobRetry, Cleanup, CacheStats, CacheClear,
    MyAccess, SubmitAccess, ListAccess, ReviewAccess, VerificationProgress, MaintenanceStatus, MaintenanceShow,
    MaintenanceOn, MaintenanceOff, Deliveries, Delivery, Redeliver, Reindex, ReindexJob, Verification, Verifications, Certificate]

  // --- One route per request ------------------------------------------------------------------

  predicate Word(segment: string) {
    segment != "" && forall i :: 0 <= i < |segment| ==> 'a' <= segment[i] <= 'z' || '0' <= segment[i] <= '9' || segment[i] == '_'
  }

  function ResolveGetShort(path: Path): Option<RouteId>
    requires |path| <= 2
  {
    if |path| == 0 then None
    else if |path| == 1 then (if path[0] == "health" then Some(Health) else if path[0] == "metrics" then Some(Metrics) else None)
    else
      match path[0]
      case "health" => (if path[1] == "live" then Some(HealthLive) else if path[1] == "ready" then Some(HealthReady) else None)
      case "admin" => (
        match path[1]
        case "jobs" => Some(Jobs)
        case "cache" => Some(CacheStats)
        case "access-requests" => Some(ListAccess)
        case "maintenance" => Some(MaintenanceShow)
        case _ => None)
      case "api" => (if path[1] == "verifications" then Some(Verifications) else None)
      case _ => None
  }

  function ResolveGetThree(path: Path): Option<RouteId>
    requires |path| == 3
  {
    var last := path[2];
    if path[0] == "admin" then
      if path[1] == "jobs" && last != "" then Some(Job)
      else if path[1] == "webhooks" && last == "deliveries" then Some(Deliveries)
      else None
    else if path[0] == "api" then
      match path[1]
      case "access-requests" => (if last == "me" then Some(MyAccess) else None)
      case "status" => (if last == "maintenance" then Some(MaintenanceStatus) else None)
      case "verifications" => (if last != "" then Some(Verification) else None)
      case "certificates" => (if last != "" then Some(Certificate) else None)
      case _ => None
    else None
  }

  function ResolveGetLong(path: Path): Option<RouteId>
    requires |path| > 3
  {
    var last := path[3];
    if |path| > 4 then None
    else if path[0] == "admin" && path[1] == "webhooks" && path[2] == "deliveries" && last != "" then Some(Delivery)
    else if path[0] == "api" && path[1] == "admin" && path[2] == "reindex" && last != "" then Some(ReindexJob)
    else if path[0] == "api" && path[1] == "verifications" && path[2] != "" && last == "progress" then Some(VerificationProgress)
    else None
  }

  function ResolvePost(path: Path): Option<RouteId>
    requires |path| > 1
  {
    var last := path[|path| - 1];
    if |path| == 2 then (if path[0] == "api" && last == "access-requests" then Some(SubmitAccess) else None)
    else if |path| == 3 then
      if path[0] == "admin" && path[1] == "maintenance" && last == "cleanup" then Some(Cleanup)
      else if path[0] == "api" && path[1] == "admin" && last == "reindex" then Some(Reindex)
      else None
    else if |path| == 4 && path[0] == "admin" && path[2] != "" then
      if path[1] == "health" && Word(path[2]) && last == "check" then Some(HealthCheck)
      else if path[1] == "jobs" && last == "retry" then Some(JobRetry)
      else if path[1] == "access-requests" && last == "review" then Some(ReviewAccess)
      else None
    else if |path| == 5 && path[0] == "admin" && path[1] == "webhooks" && path[2] == "deliveries" && path[3] != "" && last == "redeliver" then
      Some(Redeliver)
    else None
  }

  /** What each method and path is for. */
  function Resolve(verb: string, path: Path): Option<RouteId> {
    if verb == "GET" then (if |path| <= 2 then ResolveGetShort(path) else if |path| == 3 then ResolveGetThree(path) else ResolveGetLong(path))
    else if verb == "POST" && |path| > 1 then ResolvePost(path)
    else if |path| != 2 || path[0] != "admin" then None
    else if verb == "PUT" && path[1] == "maintenance" then Some(MaintenanceOn)
    else if verb == "DELETE" && path[1] == "maintenance" then Some(MaintenanceOff)
    else if verb == "DELETE" && path[1] == "cache" then Some(CacheClear)
    else None
  }

  lemma Spelled(path: Path, pattern: seq<Piece>)
    requires |path| == |pattern| && forall i :: 0 <= i < |path| ==> PieceMatches(pattern[i], path[i])
    ensures forall i :: 0 <= i < |path| && pattern[i].Lit? ==> path[i] == pattern[i].text
    ensures forall i :: 0 <= i < |path| && !pattern[i].Lit? ==> path[i] != ""
    ensures forall i :: 0 <= i < |path| && pattern[i].Name? ==> Word(path[i])
  {
  }

  lemma ShortGetFound(id: RouteId, path: Path)
    requires |path| <= 2 && Matches(RouteOf(id), "GET", path)
    ensures ResolveGetShort(path) == Some(id)
  {
    Spelled(path, RouteOf(id).pattern);
    hide Matches, PieceMatches;
  }

  lemma ShortGetMatches(path: Path)
    requires |path| <= 2 && ResolveGetShort(path).Some?
    ensures Matches(RouteOf(ResolveGetShort(path).value), "GET", path)
  {
  }

  lemma ThreeGetFound(id: RouteId, path: Path)
    requires |path| == 3 && Matches(RouteOf(id), "GET", path)
    ensures ResolveGetThree(path) == Some(id)
  {
    Spelled(path, RouteOf(id).pattern);
    hide Matches, PieceMatches;
  }

  lemma ThreeGetMatches(path: Path)
    requires |path| == 3 && ResolveGetThree(path).Some?
    ensures Matches(RouteOf(ResolveGetThree(path).value), "GET", path)
  {
  }

  lemma LongGetFound(id: RouteId, path: Path)
    requires |path| > 3 && Matches(RouteOf(id), "GET", path)
    ensures ResolveGetLong(path) == Some(id)
  {
    Spelled(path, RouteOf(id).pattern);
    hide Matches, PieceMatches;
  }

  lemma LongGetMatches(path: Path)
    requires |path| > 3 && ResolveGetLong(path).Some?
    ensures Matches(RouteOf(ResolveGetLong(path).value), "GET", path)
  {
  }

  lemma PostFound(id: RouteId, path: Path)
    requires |path| > 1 && Matches(RouteOf(id), "POST", path)
    ensures ResolvePost(path) == Some(id)
  {
    Spelled(path, RouteOf(id).pattern);
    hide Matches, PieceMatches;
  }

  lemma PostMatches(path: Path)
    requires |path| > 1 && ResolvePost(path).Some?
    ensures Matches(RouteOf(ResolvePost(path).value), "POST", path)
  {
  }

  lemma OtherMatches(id: RouteId, verb: string, path: Path)
    requires verb != "GET" && (verb == "POST" ==> |path| <= 1)
    ensures Resolve(verb, path) == Some(id) <==> Matches(RouteOf(id), verb, path)
  {
    if Matches(RouteOf(id), verb, path) {
      Spelled(path, RouteOf(id).pattern);
      hide Matches, PieceMatches;
    }
  }

  /** A route matches exactly when the path is for it. */
  lemma MatchesMeansResolved(id: RouteId, verb: string, path: Path)
    ensures Resolve(verb, path) == Some(id) <==> Matches(RouteOf(id), verb, path)
  {
    hide Matches, RouteOf, ResolveGetShort, ResolveGetThree, ResolveGetLong, ResolvePost;
    if verb == "GET" && |path| <= 2 {
      if Matches(RouteOf(id), "GET", path) { ShortGetFound(id, path); }
      if ResolveGetShort(path).Some? { ShortGetMatches(path); }
    } else if verb == "GET" && |path| == 3 {
      if Matches(RouteOf(id), "GET", path) { ThreeGetFound(id, path); }
      if ResolveGetThree(path).Some? { ThreeGetMatches(path); }
    } else if verb == "GET" {
      if Matches(RouteOf(id), "GET", path) { LongGetFound(id, path); }
      if ResolveGetLong(path).Some? { LongGetMatches(path); }
    } else if verb == "POST" && |path| > 1 {
      if Matches(RouteOf(id), "POST", path) { PostFound(id, path); }
      if ResolvePost(path).Some? { PostMatches(path); }
    } else {
      OtherMatches(id, verb, path);
    }
  }

  /** At most one route matches a request. */
  lemma AtMostOneRoute(a: RouteId, b: RouteId, verb: string, path: Path)
    requires Matches(RouteOf(a), verb, path) && Matches(RouteOf(b), verb, path)
    ensures a == b
  {
    MatchesMeansResolved(a, verb, path);
    MatchesMeansResolved(b, verb, path);
  }

  /** The scan finds the one matching route, wherever it stands in the table. */
  lemma {:induction false} FindMeansMatch(table: seq<RouteId>, id: RouteId, verb: string, path: Path)
    ensures Find(table, verb, path) == Some(id) <==> id in table && Matches(RouteOf(id), verb, path)
  {
    if table != [] {
      FindMeansMatch(table[1..], id, verb, path);
      if Matches(RouteOf(table[0]), verb, path) && Matches(RouteOf(id), verb, path) {
        AtMostOneRoute(table[0], id, verb, path);
      }
    }
  }

  /** Dispatch does not depend on the order of the table. */
  lemma OrderDoesNotMatter(table: seq<RouteId>, other: seq<RouteId>, verb: string, path: Path)
    requires forall id :: id in table <==> id in other
    ensures Find(table, verb, path) == Find(other, verb, path)
  {
    match Find(table, verb, path)
    case Some(id) =>
      FindMeansMatch(table, id, verb, path);
      FindMeansMatch(other, id, verb, path);
    case None =>
      if Find(other, verb, path).Some? {
        FindMeansMatch(other, Find(other, verb, path).value, verb, path);
        FindMeansMatch(table, Find(other, verb, path).value, verb, path);
      }
  }

  // --- The gate -------------------------------------------------------------------------------

  const SAFE_METHODS := {"GET", "HEAD", "OPTIONS"}

  datatype Outcome = NotFound | Unauthorized | AdminDisabled | UnderMaintenance | Handled(id: RouteId)

  predicate IsAdmin(adminToken: string, authorization: Option<string>) {
    adminToken != "" && authorization.GetOr("") == "Bearer " + adminToken
  }

  predicate Exempt(id: RouteId, path: Path) {
    RouteOf(id).admin || (path != [] && "health" <= path[0]) || path == ["metrics"]
  }

  function Dispatch(verb: string, path: Path, adminToken: string, authorization: Option<string>, maintenance: bool): Outcome {
    var route := Find(ROUTES, verb, path);
    if route.None? then NotFound
    else if RouteOf(route.value).admin && !IsAdmin(adminToken, authorization) then
      if adminToken != "" then Unauthorized else AdminDisabled
    else if maintenance && verb !in SAFE_METHODS && !Exempt(route.value, path) then UnderMaintenance
    else Handled(route.value)
  }

  lemma AllRoutesListed(id: RouteId)
    ensures id in ROUTES
  {
  }

  lemma Routed(id: RouteId, verb: string, path: Path)
    ensures Find(ROUTES, verb, path) == Some(id) <==> Matches(RouteOf(id), verb, path)
    ensures RouteOf(id).admin ==> Exempt(id, path)
  {
    AllRoutesListed(id);
    FindMeansMatch(ROUTES, id, verb, path);
  }

  /** The one public route that writes is not exempt. */
  lemma PublicWritesAreNotExempt(id: RouteId, verb: string, path: Path)
    requires Matches(RouteOf(id), verb, path) && verb !in SAFE_METHODS && !RouteOf(id).admin
    ensures !Exempt(id, path)
  {
  }

  /**
   Which handler runs, exactly: the route that matches, provided an admin route is asked for by an
   administrator, and, during maintenance, the method only reads or the route is an admin one. The
   exemption of the health and metrics paths lets nothing else through.
   */
  lemma WhenHandled(id: RouteId, verb: string, path: Path, adminToken: string, authorization: Option<string>, maintenance: bool)
    ensures Dispatch(verb, path, adminToken, authorization, maintenance) == Handled(id) <==>
            && Matches(RouteOf(id), verb, path)
            && (RouteOf(id).admin ==> IsAdmin(adminToken, authorization))
            && (maintenance ==> verb in SAFE_METHODS || RouteOf(id).admin)
  {
    hide RouteOf, IsAdmin, Find, ROUTES, Matches, Exempt;
    Routed(id, verb, path);
    if Matches(RouteOf(id), verb, path) && verb !in SAFE_METHODS && !RouteOf(id).admin {
      PublicWritesAreNotExempt(id, verb, path);
    }
  }

  /** During maintenance no handler runs for a request that is not an administrator's and not GET, HEAD or OPTIONS. */
  lemma MaintenanceStopsWrites(verb: string, path: Path, adminToken: string, authorization: Option<string>)
    requires verb !in SAFE_METHODS && !IsAdmin(adminToken, authorization)
    ensures !Dispatch(verb, path, adminToken, authorization, true).Handled?
  {
    var outcome := Dispatch(verb, path, adminToken, authorization, true);
    if outcome.Handled? {
      WhenHandled(outcome.id, verb, path, adminToken, authorization, true);
    }
  }

  // --- The same, path by path -----------------------------------------------------------------

  /** The table and its scan find exactly what each method and path is for. */
  lemma FindIsResolve(verb: string, path: Path)
    ensures Find(ROUTES, verb, path) == Resolve(verb, path)
  {
    hide RouteOf, Matches, Resolve, Find, ROUTES;
    var found, meant := Find(ROUTES, verb, path), Resolve(verb, path);
    if found.Some? {
      Routed(found.value, verb, path);
      MatchesMeansResolved(found.value, verb, path);
    } else if meant.Some? {
      Routed(meant.value, verb, path);
      MatchesMeansResolved(meant.value, verb, path);
    }
  }

  /** Paths for administrators. */
  predicate AdminPath(path: Path) { |path| > 0 && (path[0] == "admin" || (|path| > 1 && path[0] == "api" && path[1] == "admin")) }

  predicate ShowsToken(adminToken: string, authorization: Option<string>) {
    adminToken != "" && authorization == Some("Bearer " + adminToken)
  }

  lemma AdminRoutesAreAdminPaths(id: RouteId, verb: string, path: Path)
    requires Matches(RouteOf(id), verb, path)
    ensures RouteOf(id).admin <==> AdminPath(path)
  {
    var pattern := RouteOf(id).pattern;
    assert PieceMatches(pattern[0], path[0]);
    if |path| > 1 { assert PieceMatches(pattern[1], path[1]); }
  }

  /**
   What every request is answered: by its method and path, the token it shows if the path is an
   administrator's, and during maintenance by whether it only reads.
   */
  lemma WhatIsAnswered(verb: string, path: Path, adminToken: string, authorization: Option<string>, maintenance: bool)
    ensures var meant := Resolve(verb, path);
            var readOnly := verb == "GET" || verb == "HEAD" || verb == "OPTIONS";
            Dispatch(verb, path, adminToken, authorization, maintenance) ==
              if meant.None? then NotFound
              else if AdminPath(path) then
                if ShowsToken(adminToken, authorization) then Handled(meant.value) else if adminToken == "" then AdminDisabled else Unauthorized
              else if maintenance && !readOnly then UnderMaintenance
              else Handled(meant.value)
  {
    FindIsResolve(verb, path);
    var meant := Resolve(verb, path);
    if meant.Some? {
      var id := meant.value;
      Routed(id, verb, path);
      AdminRoutesAreAdminPaths(id, verb, path);
      TokensShown(adminToken, authorization);
      hide RouteOf, Find, ROUTES, Matches, Resolve, IsAdmin;
      if !AdminPath(path) && verb !in SAFE_METHODS { PublicWritesAreNotExempt(id, verb, path); }
      hide Exempt;
    }
  }

  lemma TokensShown(adminToken: string, authorization: Option<string>)
    ensures IsAdmin(adminToken, authorization) <==> ShowsToken(adminToken, authorization)
  {
    if authorization.None? { assert |"Bearer " + adminToken| > 0; }
  }

  /** So nothing under an administrator's path runs without the token, and elsewhere the token plays no part. */
  lemma TokensGuardAdminPaths(verb: string, path: Path, adminToken: string, authorization: Option<string>, maintenance: bool,
                              otherToken: string, otherAuthorization: Option<string>)
    ensures AdminPath(path) && Dispatch(verb, path, adminToken, authorization, maintenance).Handled? ==>
              adminToken != "" && authorization == Some("Bearer " + adminToken)
    ensures !AdminPath(path) ==>
              Dispatch(verb, path, adminToken, authorization, maintenance) == Dispatch(verb, path, otherToken, otherAuthorization, maintenance)
  {
    WhatIsAnswered(verb, path, adminToken, authorization, maintenance);
    WhatIsAnswered(verb, path, otherToken, otherAuthorization, maintenance);
    hide Dispatch, Resolve;
  }
}
