/**
 * The endpoint registry: the in-memory list of forwarding targets that the
 * handlers `register_endpoint`, `list_endpoints`, `update_endpoint` and
 * `delete_endpoint` change in place, and the copy of it last written to
 * `endpoints.json`.
 */
module Registry {
  import opened Wrappers
  import opened Text
  import opened Urls

  /** `WebhookEndpoint`: one forwarding target. */
  datatype Endpoint = Endpoint(id: string, url: string, name: string, isActive: bool)

  /** `CreateWebhookRequest`: the body of a registration request. */
  datatype CreateRequest = CreateRequest(url: string, name: string, isActive: bool)

  /** The two "400 Bad Request" answers of a registration. */
  datatype RegisterError =
    | InvalidUrl(details: string)  // "Invalid URL format", with the parser's message
    | EmptyName                    // "Name cannot be empty"

  /**
   * The checks a registration passes before the registry is touched: the URL
   * must parse, then the name must not be empty once trimmed.
   */
  function Validate(req: CreateRequest, parse: Parser): (r: Result<(), RegisterError>)
    ensures r.Success? <==> Parses(parse, req.url) && !IsBlank(req.name)
    ensures !Parses(parse, req.url) ==> r == Failure(InvalidUrl(parse(req.url).error))
    ensures r == Failure(EmptyName) <==> Parses(parse, req.url) && IsBlank(req.name)
  {
    if parse(req.url).Failure? then Failure(InvalidUrl(parse(req.url).error))
    else if Trim(req.name) == [] then Failure(EmptyName)
    else Success(())
  }

  /** No two records share an id. */
  predicate UniqueIds(s: seq<Endpoint>) {
    forall i, j | 0 <= i < |s| && 0 <= j < |s| && s[i].id == s[j].id :: i == j
  }

  /** No record carries `id`. */
  predicate IdAbsent(s: seq<Endpoint>, id: string) {
    forall j | 0 <= j < |s| :: s[j].id != id
  }

  /** The position of the first record whose id is `id`, as `iter().position` finds it. */
  function FindIndex(s: seq<Endpoint>, id: string): (r: Option<nat>)
    ensures r.None? <==> IdAbsent(s, id)
    ensures r.Some? ==> r.value < |s| && s[r.value].id == id && IdAbsent(s[..r.value], id)
  {
    if s == [] then None
    else if s[0].id == id then Some(0)
    else match FindIndex(s[1..], id)
      case None => None
      case Some(k) =>
        assert forall j | 1 <= j <= k :: s[j] == s[1..][j - 1];
        Some(k + 1)
  }

  /** `Vec::remove(i)`: the list without its `i`-th record, the others in their order. */
  function RemoveAt(s: seq<Endpoint>, i: nat): (r: seq<Endpoint>)
    requires i < |s|
    ensures |r| == |s| - 1
    ensures forall j | 0 <= j < i :: r[j] == s[j]
    ensures forall j | i <= j < |r| :: r[j] == s[j + 1]
    ensures multiset(r) + multiset{s[i]} == multiset(s)
  {
    assert s == s[..i] + [s[i]] + s[i + 1..];
    s[..i] + s[i + 1..]
  }

  /** The target every default record and static route shares the prefix of. */
  const STAGING := "https://staging.webhook.api.mavapay.co/webhook/"

  /** The four staging endpoints `load_endpoints` falls back to. */
  function Defaults(): (r: seq<Endpoint>)
    ensures |r| == 4 && UniqueIds(r)
    ensures forall i | 0 <= i < |r| :: r[i].isActive && r[i].url == STAGING + r[i].id
  {
    [ Endpoint("fincra", STAGING + "fincra", "Fincra Staging", true),
      Endpoint("splice", STAGING + "splice", "Splice Staging", true),
      Endpoint("useorange", STAGING + "useorange", "UseOrange Staging", true),
      Endpoint("galoy", STAGING + "galoy", "Galoy Staging", true) ]
  }

  /** Appending a record whose id is new keeps the ids unique. */
  lemma AppendKeepsIdsUnique(s: seq<Endpoint>, e: Endpoint)
    requires UniqueIds(s) && IdAbsent(s, e.id)
    ensures UniqueIds(s + [e])
  {
    var t := s + [e];
    assert forall k | 0 <= k < |s| :: t[k] == s[k];
    assert t[|s|] == e;
  }

  /** Removing a record keeps the ids unique, and when they were unique its id is gone afterwards. */
  lemma RemoveAtKeepsIdsUnique(s: seq<Endpoint>, i: nat)
    requires i < |s| && UniqueIds(s)
    ensures UniqueIds(RemoveAt(s, i))
    ensures IdAbsent(RemoveAt(s, i), s[i].id)
  {
    var r := RemoveAt(s, i);
    forall a, b | 0 <= a < |r| && 0 <= b < |r| && r[a].id == r[b].id ensures a == b {
      var a' := if a < i then a else a + 1;
      var b' := if b < i then b else b + 1;
      assert r[a] == s[a'] && r[b] == s[b'];
    }
    forall j | 0 <= j < |r| ensures r[j].id != s[i].id {
      var j' := if j < i then j else j + 1;
      assert r[j] == s[j'];
    }
  }

  /**
   * Deleting an id twice: with unique ids, the first delete removes the only
   * record carrying it, so the second one finds nothing.
   */
  lemma DeleteTwiceNotFound(s: seq<Endpoint>, id: string)
    requires UniqueIds(s) && FindIndex(s, id).Some?
    ensures FindIndex(RemoveAt(s, FindIndex(s, id).value), id).None?
  {
    RemoveAtKeepsIdsUnique(s, FindIndex(s, id).value);
  }

  /** The shared application state: the endpoint list and what was last saved of it. */
  class AppState {
    /** The registry, `RwLock<Vec<WebhookEndpoint>>` in the source. */
    var endpoints: seq<Endpoint>
    /** The collection last written to `endpoints.json`; `None` when no readable one was written. */
    var saved: Option<seq<Endpoint>>

    /**
     * `load_endpoints` followed by the creation of the state. `stored` is what
     * reading and parsing `endpoints.json` gave (`None` when the file is absent,
     * unreadable or malformed); `writeOk` is whether saving the defaults succeeds.
     */
    constructor Load(stored: Option<seq<Endpoint>>, writeOk: bool)
      ensures stored.Some? ==> endpoints == stored.value && saved == stored
      ensures stored.None? ==> endpoints == Defaults() && saved == (if writeOk then Some(Defaults()) else None)
    {
      if stored.Some? {
        endpoints := stored.value;
        saved := stored;
      } else {
        endpoints := Defaults();
        saved := if writeOk then Some(Defaults()) else None;
      }
    }

    /** `save_endpoints`: a failed write is only logged, the list in memory is kept. */
    method Save(writeOk: bool)
      modifies this`saved
      ensures saved == if writeOk then Some(endpoints) else old(saved)
    {
      if writeOk {
        saved := Some(endpoints);
      }
    }

    /** `register_endpoint`, with `freshId` the id `Uuid::new_v4` produced. */
    method RegisterEndpoint(req: CreateRequest, freshId: string, parse: Parser, writeOk: bool)
      returns (r: Result<seq<Endpoint>, RegisterError>)
      modifies this
      ensures Validate(req, parse).Failure? ==>
        r == Failure(Validate(req, parse).error) && endpoints == old(endpoints) && saved == old(saved)
      ensures Validate(req, parse).Success? ==>
        && endpoints == old(endpoints) + [Endpoint(freshId, req.url, req.name, req.isActive)]
        && r == Success(endpoints)
        && saved == (if writeOk then Some(endpoints) else old(saved))
      ensures UniqueIds(old(endpoints)) && IdAbsent(old(endpoints), freshId) ==> UniqueIds(endpoints)
    {
      var valid := Validate(req, parse);
      if valid.Failure? {
        return Failure(valid.error);
      }
      var e := Endpoint(freshId, req.url, req.name, req.isActive);
      if UniqueIds(endpoints) && IdAbsent(endpoints, freshId) {
        AppendKeepsIdsUnique(endpoints, e);
      }
      endpoints := endpoints + [e];
      Save(writeOk);
      r := Success(endpoints);
    }

    /** `list_endpoints`: a copy of the whole list. */
    method ListEndpoints() returns (s: seq<Endpoint>)
      ensures s == endpoints
    {
      s := endpoints;
    }

    /** `iter().position(|e| e.id == id)`: a front-to-back scan for the first match. */
    method Position(id: string) returns (pos: Option<nat>)
      ensures pos == FindIndex(endpoints, id)
    {
      var i := 0;
      while i < |endpoints|
        invariant i <= |endpoints|
        invariant IdAbsent(endpoints[..i], id)
      {
        if endpoints[i].id == id {
          return Some(i);
        }
        i := i + 1;
      }
      assert endpoints[..i] == endpoints;
      pos := None;
    }

    /** `update_endpoint`: set `isActive` on the first record with `id`. */
    method UpdateEndpoint(id: string, isActive: bool, writeOk: bool) returns (r: Option<Endpoint>)
      modifies this
      ensures FindIndex(old(endpoints), id).None? ==>
        r.None? && endpoints == old(endpoints) && saved == old(saved)
      ensures FindIndex(old(endpoints), id).Some? ==>
        var i := FindIndex(old(endpoints), id).value;
        && endpoints == old(endpoints)[i := old(endpoints)[i].(isActive := isActive)]
        && r == Some(endpoints[i])
        && saved == (if writeOk then Some(endpoints) else old(saved))
      ensures r.Some? ==> r.value.id == id && r.value.isActive == isActive
      ensures UniqueIds(old(endpoints)) ==> UniqueIds(endpoints)
    {
      var pos := Position(id);
      if pos.None? {
        return None;
      }
      var i := pos.value;
      endpoints := endpoints[i := endpoints[i].(isActive := isActive)];
      Save(writeOk);
      r := Some(endpoints[i]);
    }

    /** `delete_endpoint`: remove the first record with `id`. */
    method DeleteEndpoint(id: string, writeOk: bool) returns (r: Option<seq<Endpoint>>)
      modifies this
      ensures FindIndex(old(endpoints), id).None? ==>
        r.None? && endpoints == old(endpoints) && saved == old(saved)
      ensures FindIndex(old(endpoints), id).Some? ==>
        && endpoints == RemoveAt(old(endpoints), FindIndex(old(endpoints), id).value)
        && r == Some(endpoints)
        && saved == (if writeOk then Some(endpoints) else old(saved))
      ensures UniqueIds(old(endpoints)) ==> UniqueIds(endpoints) && IdAbsent(endpoints, id)
    {
      var pos := Position(id);
      if pos.None? {
        return None;
      }
      var i := pos.value;
      if UniqueIds(endpoints) {
        RemoveAtKeepsIdsUnique(endpoints, i);
      }
      endpoints := RemoveAt(endpoints, i);
      Save(writeOk);
      r := Some(endpoints);
    }
  }
}
