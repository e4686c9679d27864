/**
 * Which targets an inbound webhook goes to: `receive_webhook` takes the active
 * records of the registry, `handle_specific_webhook` one fixed staging URL per
 * known service key. The dispatch itself is represented by the job handed to
 * the background task: the targets and the event.
 */
module Routing {
  import opened Wrappers
  import opened Seqs
  import opened Registry
  import opened Forwarding

  /** The self-contained unit of work spawned for delivery. */
  datatype DispatchJob = DispatchJob(targets: seq<Endpoint>, event: WebhookEvent)

  /** The handler's immediate answer. */
  datatype Ack =
    | Accepted(job: DispatchJob)  // 200 {"status": "accepted"}, the job is spawned
    | NoActiveEndpoints           // 200 {"status": "no_active_endpoints"}, nothing spawned
    | NotFound                    // 404, nothing spawned

  predicate IsActive(e: Endpoint) {
    e.isActive
  }

  /** `endpoints.iter().filter(|e| e.is_active).cloned().collect()`. */
  function ActiveTargets(s: seq<Endpoint>): (r: seq<Endpoint>)
    ensures forall i | 0 <= i < |r| :: r[i] in s && r[i].isActive
    ensures forall i | 0 <= i < |s| && s[i].isActive :: s[i] in r
    ensures r == [] <==> forall i | 0 <= i < |s| :: !s[i].isActive
  {
    FilterEmptyIff(s, IsActive);
    Filter(s, IsActive)
  }

  /**
   * The active targets keep registry order: those before a record, then the
   * record if it is active, then those after it.
   */
  lemma ActiveTargetsSplit(s: seq<Endpoint>, i: nat)
    requires i < |s|
    ensures ActiveTargets(s) == ActiveTargets(s[..i]) + (if s[i].isActive then [s[i]] else []) + ActiveTargets(s[i + 1..])
    ensures ActiveTargets(RemoveAt(s, i)) == ActiveTargets(s[..i]) + ActiveTargets(s[i + 1..])
  {
    assert s == s[..i] + [s[i]] + s[i + 1..];
    FilterAppend(s[..i] + [s[i]], s[i + 1..], IsActive);
    FilterAppend(s[..i], [s[i]], IsActive);
    assert Filter([s[i]], IsActive) == Filter([], IsActive) + (if s[i].isActive then [s[i]] else []);
    assert RemoveAt(s, i) == s[..i] + s[i + 1..];
    FilterAppend(s[..i], s[i + 1..], IsActive);
  }

  /** A registration adds its record at the end of the targets when it is active, and nothing otherwise. */
  lemma ActiveTargetsAppend(s: seq<Endpoint>, e: Endpoint)
    ensures ActiveTargets(s + [e]) == ActiveTargets(s) + (if e.isActive then [e] else [])
  {
    FilterAppend(s, [e], IsActive);
    assert Filter([e], IsActive) == Filter([], IsActive) + (if e.isActive then [e] else []);
  }

  /**
   * With unique ids, once `update_endpoint` has switched a record off no
   * dispatch from `receive_webhook` goes to its id.
   */
  lemma DeactivatedNotDispatched(s: seq<Endpoint>, i: nat)
    requires i < |s| && UniqueIds(s)
    ensures forall e | e in ActiveTargets(s[i := s[i].(isActive := false)]) :: e.id != s[i].id
  {
    var s' := s[i := s[i].(isActive := false)];
    var r := ActiveTargets(s');
    forall e | e in r ensures e.id != s[i].id {
      var k :| 0 <= k < |r| && r[k] == e;
      var j :| 0 <= j < |s'| && s'[j] == e;
      assert j != i;
      assert s'[j] == s[j];
    }
  }

  /** With the default registry every record is a target, in order. */
  lemma DefaultTargets()
    ensures ActiveTargets(Defaults()) == Defaults()
  {
    FilterAllKept(Defaults(), IsActive);
  }

  /**
   * `receive_webhook`, given the registry as read under the lock: no active
   * record gives `no_active_endpoints` and no job; otherwise the job carries
   * the active records in registry order and the event.
   */
  function ReceiveWebhook(endpoints: seq<Endpoint>, event: WebhookEvent): (r: Ack)
    ensures r.NoActiveEndpoints? <==> forall i | 0 <= i < |endpoints| :: !endpoints[i].isActive
    ensures !r.NotFound?
    ensures r.Accepted? ==> r.job.targets != [] && r.job.targets == ActiveTargets(endpoints) && r.job.event == event
  {
    var targets := ActiveTargets(endpoints);
    if targets == [] then NoActiveEndpoints else Accepted(DispatchJob(targets, event))
  }

  /** The service keys with a static route. */
  const SERVICES: set<string> := {"fincra", "splice", "useorange", "galoy"}

  /** The `match` of `handle_specific_webhook`: a known key names its staging URL. */
  function StaticRoute(service: string): (r: Option<string>)
    ensures r.Some? <==> service in SERVICES
    ensures r.Some? ==> r.value == STAGING + service
  {
    match service
    case "fincra" => Some("https://staging.webhook.api.mavapay.co/webhook/fincra")
    case "splice" => Some("https://staging.webhook.api.mavapay.co/webhook/splice")
    case "useorange" => Some("https://staging.webhook.api.mavapay.co/webhook/useorange")
    case "galoy" => Some("https://staging.webhook.api.mavapay.co/webhook/galoy")
    case _ => None
  }

  /** Different keys lead to different URLs. */
  lemma StaticRoutesDistinct(a: string, b: string)
    requires StaticRoute(a).Some? && StaticRoute(a) == StaticRoute(b)
    ensures a == b
  {
    assert (STAGING + a)[|STAGING|..] == a;
    assert (STAGING + b)[|STAGING|..] == b;
  }

  /** The default registry and the static routes agree: each default record's id is a key routed to its URL. */
  lemma DefaultsAreStaticRoutes()
    ensures forall i | 0 <= i < |Defaults()| :: StaticRoute(Defaults()[i].id) == Some(Defaults()[i].url)
    ensures forall k | k in SERVICES :: exists i | 0 <= i < |Defaults()| :: Defaults()[i].id == k
  {
    var d := Defaults();
    assert d[0].id == "fincra" && d[1].id == "splice" && d[2].id == "useorange" && d[3].id == "galoy";
  }

  /**
   * `handle_specific_webhook`: an unknown key is a 404; a known one spawns a
   * job for the single, active endpoint built from the key and its URL.
   */
  function HandleSpecificWebhook(service: string, event: WebhookEvent): (r: Ack)
    ensures r.NotFound? <==> service !in SERVICES
    ensures !r.NoActiveEndpoints?
    ensures r.Accepted? ==>
      && |r.job.targets| == 1
      && r.job.targets[0].id == service
      && r.job.targets[0].url == STAGING + service
      && r.job.targets[0].isActive
      && r.job.event == event
  {
    match StaticRoute(service)
    case None => NotFound
    case Some(url) =>
      Accepted(DispatchJob([Endpoint(service, url, "Static " + service + " endpoint", true)], event))
  }
}
