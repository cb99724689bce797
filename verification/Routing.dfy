/** The proxy's routing table (proxy/internal/routing/table.go), the poller that keeps it up to date
    by differences (proxy/internal/poller/poller.go) and the orchestrator's out-of-band route writes
    (setRoute in proxy/internal/handler/handler.go). JSON is an inverse pair, so a route state holds
    the decoded values. */
module Routing {
  import opened Text
  import opened Ports
  import Store

  datatype Route = Route(upstream: string, isPublic: bool, basicAuth: Option<seq<Store.BasicAuthUser>>,
                         security: Option<Store.Security>)

  /** The poller's memory of a route. */
  datatype RouteState = RouteState(upstream: string, isPublic: bool, proxyPort: int,
                                   basicAuth: Option<seq<Store.BasicAuthUser>>, security: Option<Store.Security>)

  const ZERO := RouteState("", false, 0, None, None)

  function RouteOf(s: RouteState): Route { Route(s.upstream, s.isPublic, s.basicAuth, s.security) }

  // ---------------------------------------------------------------- the full rebuild

  /** Does the deployment get a route? */
  predicate Routable(d: Store.Deployment) {
    d.domain != "" && NormalizeDomain(d.domain) != "" && UpstreamFromPorts(d.ports, d.proxyPort) != ""
  }

  /** The dynamic routes of an empty table after setting the route of each deployment in turn. */
  function Rebuild(deployments: seq<Store.Deployment>): map<string, Route> {
    if deployments == [] then map[]
    else
      var d := deployments[|deployments| - 1];
      var routes := Rebuild(deployments[..|deployments| - 1]);
      if Routable(d)
      then routes[NormalizeDomain(d.domain) := Route(UpstreamFromPorts(d.ports, d.proxyPort), d.isPublic, d.basicAuth,
                                                     d.security)]
      else routes
  }

  function StateOf(d: Store.Deployment): RouteState {
    RouteState(UpstreamFromPorts(d.ports, d.proxyPort), d.isPublic, d.proxyPort, d.basicAuth, d.security)
  }

  /** The snapshot that a sync compares with the previous one. */
  function Snapshot(deployments: seq<Store.Deployment>): map<string, RouteState> {
    if deployments == [] then map[]
    else
      var d := deployments[|deployments| - 1];
      var before := Snapshot(deployments[..|deployments| - 1]);
      if Routable(d) then before[NormalizeDomain(d.domain) := StateOf(d)] else before
  }

  lemma {:induction false} SnapshotIsRebuild(deployments: seq<Store.Deployment>)
    ensures Snapshot(deployments).Keys == Rebuild(deployments).Keys
    ensures forall k :: k in Snapshot(deployments) ==>
              Rebuild(deployments)[k] == RouteOf(Snapshot(deployments)[k]) && Snapshot(deployments)[k].upstream != ""
  {
    hide NormalizeDomain, UpstreamFromPorts;
    if deployments != [] { SnapshotIsRebuild(deployments[..|deployments| - 1]); }
  }

  // ---------------------------------------------------------------- the interleaving

  datatype Phase = Waiting | Syncing(listing: seq<Store.Deployment>, toSet: set<string>, toDelete: set<string>)

  /** dirty holds the domains that setRoute wrote since the poller last set or deleted them; listed
      is the listing of the last completed sync. */
  datatype State = State(dynamic: map<string, Route>, statics: map<string, string>, last: map<string, RouteState>,
                         phase: Phase, listed: seq<Store.Deployment>, dirty: set<string>)

  datatype Event =
    | SyncBegin(listing: seq<Store.Deployment>)
    | PollerSet(domain: string)
    | PollerDelete(domain: string)
    | SyncEnd
    | SetRoute(domain: string, upstream: string)
    | SetStatic(domain: string, upstream: string)

  const INITIAL := State(map[], map[], map[], Waiting, [], {})

  function Lookup(last: map<string, RouteState>, domain: string): RouteState {
    if domain in last then last[domain] else ZERO
  }

  function Changed(last: map<string, RouteState>, current: map<string, RouteState>): set<string> {
    set k | k in current && Lookup(last, k) != current[k]
  }

  /** One step; table calls are atomic, and setRoute may come between any two of a sync's calls. A
      step that the phase does not allow changes nothing, like a failed listing. */
  function Next(s: State, e: Event): State {
    match e
    case SyncBegin(listing) =>
      if s.phase.Syncing? then s
      else s.(phase := Syncing(listing, Changed(s.last, Snapshot(listing)), s.last.Keys - Snapshot(listing).Keys))
    case PollerSet(domain) =>
      if s.phase.Waiting? || domain !in s.phase.toSet || domain !in Snapshot(s.phase.listing) then s
      else s.(dynamic := s.dynamic[domain := RouteOf(Snapshot(s.phase.listing)[domain])],
              phase := s.phase.(toSet := s.phase.toSet - {domain}), dirty := s.dirty - {domain})
    case PollerDelete(domain) =>
      if s.phase.Waiting? || domain !in s.phase.toDelete then s
      else s.(dynamic := s.dynamic - {domain}, phase := s.phase.(toDelete := s.phase.toDelete - {domain}),
              dirty := s.dirty - {domain})
    case SyncEnd =>
      if s.phase.Waiting? || s.phase.toSet != {} || s.phase.toDelete != {} then s
      else s.(last := Snapshot(s.phase.listing), listed := s.phase.listing, phase := Waiting)
    case SetRoute(domain, upstream) =>
      if domain == "" || upstream == "" then s
      else
        var k := NormalizeDomain(domain);
        s.(dynamic := s.dynamic[k := Route(upstream, false, None, None)], dirty := s.dirty + {k})
    case SetStatic(domain, upstream) => s.(statics := s.statics[domain := upstream])
  }

  function Run(s: State, events: seq<Event>): State {
    if events == [] then s else Next(Run(s, events[..|events| - 1]), events[|events| - 1])
  }

  function GetRoute(dynamic: map<string, Route>, statics: map<string, string>, domain: string): Option<Route> {
    if domain in statics then Some(Route(statics[domain], false, None, None))
    else if domain in dynamic then Some(dynamic[domain]) else None
  }

  // ---------------------------------------------------------------- what every interleaving keeps

  predicate AgreesAt(a: map<string, Route>, b: map<string, Route>, k: string) {
    (k in a <==> k in b) && (k in a ==> a[k] == b[k])
  }

  /** Has the sync under way still to handle this domain? */
  predicate Pending(s: State, k: string) { s.phase.Syncing? && (k in s.phase.toSet || k in s.phase.toDelete) }

  /** The listing that a clean domain's route must come from. */
  function Reference(s: State, k: string): seq<Store.Deployment> {
    if s.phase.Waiting? || Pending(s, k) then s.listed else s.phase.listing
  }

  ghost predicate Inv(s: State) {
    && s.last == Snapshot(s.listed)
    && (forall k :: k !in s.dirty ==> AgreesAt(s.dynamic, Rebuild(Reference(s, k)), k))
    && (s.phase.Syncing? ==> s.phase.toSet <= Snapshot(s.phase.listing).Keys &&
                             s.phase.toDelete !! Snapshot(s.phase.listing).Keys)
  }

  /** A domain with the same remembered state needs no table call. */
  lemma UnchangedAgrees(before: seq<Store.Deployment>, after: seq<Store.Deployment>, k: string)
    requires k !in Changed(Snapshot(before), Snapshot(after)) && k !in Snapshot(before).Keys - Snapshot(after).Keys
    ensures AgreesAt(Rebuild(before), Rebuild(after), k)
  {
    hide Snapshot, Rebuild;
    SnapshotIsRebuild(before);
    SnapshotIsRebuild(after);
  }

  lemma NextKeepsInv(s: State, e: Event)
    requires Inv(s)
    ensures Inv(Next(s, e))
  {
    hide Snapshot, Rebuild, NormalizeDomain;
    var t := Next(s, e);
    if e.SyncBegin? && s.phase.Waiting? {
      forall k | k !in t.dirty ensures AgreesAt(t.dynamic, Rebuild(Reference(t, k)), k) {
        if !Pending(t, k) { UnchangedAgrees(s.listed, e.listing, k); }
      }
    } else if s.phase.Syncing? {
      SnapshotIsRebuild(s.phase.listing);
    }
  }

  lemma {:induction false} RunKeepsInv(events: seq<Event>)
    ensures Inv(Run(INITIAL, events))
  {
    if events != [] {
      RunKeepsInv(events[..|events| - 1]);
      NextKeepsInv(Run(INITIAL, events[..|events| - 1]), events[|events| - 1]);
    }
  }

  /** The incremental poller refines the full rebuild: after any interleaving, outside a sync, every
      domain that setRoute did not write since the poller last touched it has exactly the dynamic
      route of a rebuild from the last listing; and a static route always wins. */
  lemma PollerRefinesRebuild(events: seq<Event>, domain: string)
    ensures var s := Run(INITIAL, events);
            (s.phase.Waiting? && domain !in s.dirty ==> AgreesAt(s.dynamic, Rebuild(s.listed), domain)) &&
            (s.phase.Syncing? && domain !in s.dirty ==>
               (AgreesAt(s.dynamic, Rebuild(s.listed), domain) ||
                AgreesAt(s.dynamic, Rebuild(s.phase.listing), domain))) &&
            (domain in s.statics ==>
               GetRoute(s.dynamic, s.statics, domain) == Some(Route(s.statics[domain], false, None, None)))
  {
    hide Run, Snapshot, Rebuild;
    RunKeepsInv(events);
  }

  // ---------------------------------------------------------------- what a lookup answers

  /** The deployment asks for a route of the domain. */
  predicate AsksFor(d: Store.Deployment, domain: string) { Routable(d) && NormalizeDomain(d.domain) == domain }

  /** The i-th deployment is the last one that asks for the domain. */
  predicate LastAsking(deployments: seq<Store.Deployment>, i: int, domain: string) {
    && 0 <= i < |deployments| && AsksFor(deployments[i], domain)
    && forall j :: i < j < |deployments| ==> !AsksFor(deployments[j], domain)
  }

  predicate Serves(r: Route, d: Store.Deployment) {
    && r.upstream == UpstreamFromPorts(d.ports, d.proxyPort) && r.isPublic == d.isPublic
    && r.basicAuth == d.basicAuth && r.security == d.security
  }

  ghost predicate Answers(r: Option<Route>, deployments: seq<Store.Deployment>, domain: string) {
    match r
    case None => forall i :: 0 <= i < |deployments| ==> !AsksFor(deployments[i], domain)
    case Some(route) => exists i :: LastAsking(deployments, i, domain) && Serves(route, deployments[i])
  }

  lemma {:induction false} RebuildAnswers(deployments: seq<Store.Deployment>, domain: string)
    ensures var routes := Rebuild(deployments);
            Answers(if domain in routes then Some(routes[domain]) else None, deployments, domain)
  {
    hide NormalizeDomain, UpstreamFromPorts;
    if deployments != [] {
      var n := |deployments| - 1;
      var front, routes := deployments[..n], Rebuild(deployments[..n]);
      RebuildAnswers(front, domain);
      if AsksFor(deployments[n], domain) {
        assert LastAsking(deployments, n, domain);
      } else if domain in routes {
        var i :| LastAsking(front, i, domain) && Serves(routes[domain], front[i]);
        assert LastAsking(deployments, i, domain);
      }
    }
  }

  /** Outside a sync a domain without a static route, and not written since, is answered with the
      upstream, visibility, users and settings of the last listed deployment that asks for it, and
      with no route exactly when none does. */
  lemma LookupServes(events: seq<Event>, domain: string)
    requires var s := Run(INITIAL, events);
             s.phase.Waiting? && domain !in s.dirty && domain !in s.statics
    ensures var s := Run(INITIAL, events);
            Answers(GetRoute(s.dynamic, s.statics, domain), s.listed, domain)
  {
    hide Run, Rebuild, Snapshot, Routable, NormalizeDomain, UpstreamFromPorts;
    RunKeepsInv(events);
    RebuildAnswers(Run(INITIAL, events).listed, domain);
  }

  /** A request to the route endpoint that names both sets a private route without users or settings
      for the domain, whatever was there, and no other; any other request changes nothing. */
  lemma SetRouteServes(s: State, domain: string, upstream: string, other: string)
    ensures var t := Next(s, SetRoute(domain, upstream));
            if domain == "" || upstream == "" then t == s
            else
              var asked := if other in s.statics then Some(Route(s.statics[other], false, None, None))
                           else if other == NormalizeDomain(domain) then Some(Route(upstream, false, None, None))
                           else if other in s.dynamic then Some(s.dynamic[other]) else None;
              GetRoute(t.dynamic, t.statics, other) == asked
  {
    hide NormalizeDomain, Snapshot;
  }

  // ---------------------------------------------------------------- table, poller and handler

  class Table {
    var dynamicRoutes: map<string, Route>
    var staticRoutes: map<string, string>

    constructor ()
      ensures dynamicRoutes == map[] && staticRoutes == map[]
    {
      dynamicRoutes, staticRoutes := map[], map[];
    }

    method Set(domain: string, upstream: string, isPublic: bool, basicAuth: Option<seq<Store.BasicAuthUser>>,
               security: Option<Store.Security>)
      modifies this
      ensures dynamicRoutes == old(dynamicRoutes)[domain := Route(upstream, isPublic, basicAuth, security)]
      ensures staticRoutes == old(staticRoutes)
    {
      dynamicRoutes := dynamicRoutes[domain := Route(upstream, isPublic, basicAuth, security)];
    }

    method SetStatic(domain: string, upstream: string)
      modifies this
      ensures staticRoutes == old(staticRoutes)[domain := upstream] && dynamicRoutes == old(dynamicRoutes)
    {
      staticRoutes := staticRoutes[domain := upstream];
    }

    method Get(domain: string) returns (r: Option<Route>)
      ensures r == GetRoute(dynamicRoutes, staticRoutes, domain)
    {
      if domain in staticRoutes { return Some(Route(staticRoutes[domain], false, None, None)); }
      if domain in dynamicRoutes { return Some(dynamicRoutes[domain]); }
      return None;
    }

    method Delete(domain: string)
      modifies this
      ensures dynamicRoutes == old(dynamicRoutes) - {domain} && staticRoutes == old(staticRoutes)
    {
      dynamicRoutes := dynamicRoutes - {domain};
    }
  }

  /** POST /internal/routes with a decoded body; the answer is the HTTP status. */
  method HandleSetRoute(table: Table, domain: string, upstream: string, ghost s: State) returns (status: int)
    requires s.dynamic == table.dynamicRoutes && s.statics == table.staticRoutes
    modifies table
    ensures status == (if domain == "" || upstream == "" then 400 else 204)
    ensures var t := Next(s, SetRoute(domain, upstream));
            t.dynamic == table.dynamicRoutes && t.statics == table.staticRoutes
  {
    hide NormalizeDomain, Snapshot;
    if domain == "" || upstream == "" { return 400; }
    table.Set(NormalizeDomain(domain), upstream, false, None, None);
    return 204;
  }

  lemma RunMore(s: State, events: seq<Event>, e: Event)
    ensures Run(s, events + [e]) == Next(Run(s, events), e)
  {
    assert (events + [e])[..|events|] == events;
  }

  class Poller {
    const table: Table
    var last: map<string, RouteState>

    constructor (table: Table)
      ensures this.table == table && last == map[]
    {
      this.table, last := table, map[];
    }

    ghost predicate Shows(s: State)
      reads this, table
    {
      s.dynamic == table.dynamicRoutes && s.statics == table.staticRoutes && s.last == last
    }

    /** The table shows s, which is in the middle of a sync with this listing. */
    ghost predicate Midway(s: State, listing: seq<Store.Deployment>, toSet: set<string>, toDelete: set<string>)
      reads this, table
    {
      Shows(s) && s.phase == Syncing(listing, toSet, toDelete)
    }

    /** Between two table calls of a sync, the route endpoint may serve any number of requests. */
    method Interrupted(ghost s: State, ghost done: seq<Event>) returns (ghost events: seq<Event>)
      requires Shows(Run(s, done))
      modifies table
      ensures Shows(Run(s, events)) && Run(s, events).phase == Run(s, done).phase
    {
      hide Run, NormalizeDomain;
      events := done;
      var requests :| requests >= 0;
      for i := 0 to requests
        invariant Shows(Run(s, events)) && Run(s, events).phase == Run(s, done).phase
      {
        var domain: string := *;
        var upstream: string := *;
        var _ := HandleSetRoute(table, domain, upstream, Run(s, events));
        RunMore(s, events, SetRoute(domain, upstream));
        events := events + [SetRoute(domain, upstream)];
      }
    }

    /** One sync, whatever setRoute writes between its table calls, is a run of steps from one waiting
        state to another that ends with the new listing. */
    method Sync(listing: Option<seq<Store.Deployment>>, ghost s: State) returns (ghost events: seq<Event>)
      requires Shows(s) && s.phase.Waiting?
      modifies this, table
      ensures Shows(Run(s, events)) && Run(s, events).phase.Waiting?
      ensures listing.Some? ==> Run(s, events).listed == listing.value
      ensures listing.None? ==> events == []
    {
      events := [];
      if listing.None? { return; }
      hide Snapshot;
      var current := TakeSnapshot(listing.value);
      RunMore(s, [], SyncBegin(listing.value));
      events := SetChanged(listing.value, current, s, [] + [SyncBegin(listing.value)]);
      events := DeleteGone(listing.value, current, s, events);
      RunMore(s, events, SyncEnd);
      events := events + [SyncEnd];
      last := current;
    }

    method SetChanged(ghost listing: seq<Store.Deployment>, current: map<string, RouteState>, ghost s: State,
                      ghost done: seq<Event>)
      returns (ghost events: seq<Event>)
      requires current == Snapshot(listing)
      requires Midway(Run(s, done), listing, Changed(last, current), last.Keys - current.Keys)
      modifies table
      ensures Midway(Run(s, events), listing, {}, last.Keys - current.Keys)
    {
      hide Snapshot, Run;
      events := done;
      var domains := current.Keys;
      while domains != {}
        invariant domains <= current.Keys
        invariant Midway(Run(s, events), listing, Changed(last, current) * domains, last.Keys - current.Keys)
      {
        events := Interrupted(s, events);
        var domain :| domain in domains;
        var route := current[domain];
        if Lookup(last, domain) != route {
          table.Set(domain, route.upstream, route.isPublic, route.basicAuth, route.security);
          RunMore(s, events, PollerSet(domain));
          events := events + [PollerSet(domain)];
        }
        assert Changed(last, current) * (domains - {domain}) == (Changed(last, current) * domains) - {domain};
        domains := domains - {domain};
      }
    }

    method DeleteGone(ghost listing: seq<Store.Deployment>, current: map<string, RouteState>, ghost s: State,
                      ghost done: seq<Event>)
      returns (ghost events: seq<Event>)
      requires Midway(Run(s, done), listing, {}, last.Keys - current.Keys)
      modifies table
      ensures Midway(Run(s, events), listing, {}, {})
    {
      hide Snapshot, Run;
      events := done;
      var known := last.Keys;
      while known != {}
        invariant known <= last.Keys && Midway(Run(s, events), listing, {}, (last.Keys - current.Keys) * known)
      {
        events := Interrupted(s, events);
        var domain :| domain in known;
        if domain !in current {
          table.Delete(domain);
          RunMore(s, events, PollerDelete(domain));
          events := events + [PollerDelete(domain)];
        }
        assert (last.Keys - current.Keys) * (known - {domain}) == ((last.Keys - current.Keys) * known) - {domain};
        known := known - {domain};
      }
    }
  }

  method TakeSnapshot(deployments: seq<Store.Deployment>) returns (current: map<string, RouteState>)
    ensures current == Snapshot(deployments)
  {
    hide NormalizeDomain, UpstreamFromPorts;
    current := map[];
    for i := 0 to |deployments|
      invariant current == Snapshot(deployments[..i])
    {
      assert deployments[..i + 1][..i] == deployments[..i];
      var d := deployments[i];
      if d.domain == "" { continue; }
      var domain := NormalizeDomain(d.domain);
      if domain == "" { continue; }
      var upstream := UpstreamFromPorts(d.ports, d.proxyPort);
      if upstream == "" { continue; }
      current := current[domain := RouteState(upstream, d.isPublic, d.proxyPort, d.basicAuth, d.security)];
    }
    assert deployments[..|deployments|] == deployments;
  }
}
