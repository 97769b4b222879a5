/**
 * The request engine of octodns_api/manager.py: `ApiManager` resolves a
 * zone name against the configuration, reads a zone from its first source,
 * finds records by name and type, and turns a single-record write or delete
 * into a plan on the zone's first target that is applied only when the
 * target reports changes.
 */
module Manager {
  import opened Wrappers
  import opened Values

  /** A record as octoDNS holds it: name relative to the zone ('' is the apex), type tag, and the rest of its data. */
  datatype Record = Record(name: string, rtype: string, data: map<string, Value>)

  /** A zone: its name and its records, in the order `zone.records` yields them. */
  datatype Zone = Zone(name: string, records: seq<Record>)

  /**
   * A zone's entry under `zones:`. `None` stands for a list that is absent
   * or null; `zone_config.get(..., [])` followed by `if not` treats both
   * like an empty list.
   */
  datatype ZoneConfig = ZoneConfig(sources: Option<seq<string>>, targets: Option<seq<string>>) {
    function Sources(): seq<string> {
      sources.GetOr([])
    }

    function Targets(): seq<string> {
      targets.GetOr([])
    }
  }

  /** A provider's backing store: the records it holds for each zone name. */
  datatype Provider = Provider(store: map<string, seq<Record>>)

  /**
   * The diff a target computes between what it holds and a desired zone.
   * Its contents are octoDNS's business; plans are told apart by `id`.
   */
  datatype Plan = Plan(id: nat)

  /** The arguments `sync_zone` passes to octoDNS's `Manager.sync`. */
  datatype SyncRequest = SyncRequest(eligibleZones: seq<string>, dryRun: bool, force: bool)

  /** What `Manager.sync` returns, and the providers after it ran. */
  datatype SyncRun = SyncRun(result: int, providers: map<string, Provider>)

  /** The dictionary `sync_zone` returns. */
  datatype SyncReport = SyncReport(zone: string, dryRun: bool, result: int)

  /** A call the engine makes on a provider or on octoDNS's manager. */
  datatype Call =
    | Populate(provider: string, zone: string, lenient: bool)
    | PlanFor(provider: string, desired: Zone)
    | Apply(provider: string, plan: Plan)
    | Sync(request: SyncRequest)

  /**
   * The failures of the engine. All but `InvalidRecord` are raised as
   * ApiManagerException; `InvalidRecord` stands for whatever `Record.new`
   * raises on a malformed payload.
   */
  datatype Error =
    | NotConfigured(zone: string)
    | NoSources(zone: string)
    | NoTargets(zone: string)
    | SourceNotFound(source: string)
    | TargetNotFound(target: string)
    | InvalidRecord

  /** The text of an ApiManagerException. */
  function Message(e: Error): (m: string)
    requires !e.InvalidRecord?
    ensures m == Frame(e).0 + Subject(e) + Frame(e).1
  {
    match e
    case NotConfigured(z) => "Zone " + z + " not configured"
    case NoSources(z) => "Zone " + z + " has no sources configured"
    case NoTargets(z) => "Zone " + z + " has no targets configured"
    case SourceNotFound(s) => "Source " + s + " not found"
    case TargetNotFound(t) => "Target " + t + " not found"
  }

  /** The fixed text before and after the name in each message. */
  function Frame(e: Error): (string, string)
    requires !e.InvalidRecord?
  {
    match e
    case NotConfigured(_) => ("Zone ", " not configured")
    case NoSources(_) => ("Zone ", " has no sources configured")
    case NoTargets(_) => ("Zone ", " has no targets configured")
    case SourceNotFound(_) => ("Source ", " not found")
    case TargetNotFound(_) => ("Target ", " not found")
  }

  /** The zone, source or target an error names. */
  function Subject(e: Error): string
    requires !e.InvalidRecord?
  {
    if e.SourceNotFound? then e.source else if e.TargetNotFound? then e.target else e.zone
  }

  /** A string built as head + name + tail gives back each of its parts. */
  lemma Unframe(head: string, name: string, tail: string)
    ensures var m := head + name + tail;
      && |m| == |head| + |name| + |tail|
      && m[..|head|] == head && m[|head|..|m| - |tail|] == name && m[|m| - |tail|..] == tail
  {
  }

  /** The first character of a frame, and for zones the 15th-last one, tell the kind of error. */
  lemma FrameDistinct(e1: Error, e2: Error)
    requires !e1.InvalidRecord? && !e2.InvalidRecord?
    requires Frame(e1).0[0] == Frame(e2).0[0]
    requires Frame(e1).0 == "Zone " ==> Frame(e1).1[|Frame(e1).1| - 15] == Frame(e2).1[|Frame(e2).1| - 15]
    ensures Frame(e1) == Frame(e2)
    ensures Subject(e1) == Subject(e2) ==> e1 == e2
  {
  }

  /**
   * The text of an exception tells which error it is and for which zone,
   * source or target: two errors with the same message are the same error.
   */
  lemma MessageIdentifiesError(e1: Error, e2: Error)
    requires !e1.InvalidRecord? && !e2.InvalidRecord?
    ensures Message(e1) == Message(e2) ==> e1 == e2
  {
    if Message(e1) == Message(e2) {
      var m := Message(e1);
      var h1, s1, t1 := Frame(e1).0, Subject(e1), Frame(e1).1;
      var h2, s2, t2 := Frame(e2).0, Subject(e2), Frame(e2).1;
      Unframe(h1, s1, t1);
      Unframe(h2, s2, t2);
      assert h1[0] == m[0] == h2[0];
      if h1 == "Zone " {
        assert t1[|t1| - 15] == m[|m| - 15] == t2[|t2| - 15];
      }
      FrameDistinct(e1, e2);
    }
  }

  // ----- zone names -----

  predicate EndsWithDot(s: string) {
    s != [] && s[|s| - 1] == '.'
  }

  /** The trailing-dot normalisation every entry point starts with. */
  function Normalize(zoneName: string): (n: string)
    ensures EndsWithDot(n)
    ensures zoneName <= n && |n| <= |zoneName| + 1
    ensures EndsWithDot(zoneName) ==> n == zoneName
  {
    if EndsWithDot(zoneName) then zoneName else zoneName + "."
  }

  /** A name without the trailing dot gets exactly one appended. */
  lemma NormalizeAppendsOneDot(zoneName: string)
    requires !EndsWithDot(zoneName)
    ensures Normalize(zoneName) == zoneName + "."
  {
  }

  /** Normalising twice is normalising once. */
  lemma NormalizeIdempotent(zoneName: string)
    ensures Normalize(Normalize(zoneName)) == Normalize(zoneName)
  {
  }

  // ----- finding a record -----

  predicate Matches(record: Record, name: string, rtype: string) {
    record.name == name && record.rtype == rtype
  }

  /** The first record matching both name and type, if there is one. */
  function FirstMatch(records: seq<Record>, name: string, rtype: string): (found: Option<Record>)
    ensures found.None? <==> forall i :: 0 <= i < |records| ==> !Matches(records[i], name, rtype)
    ensures found.Some? ==>
      exists i :: 0 <= i < |records| && records[i] == found.value && Matches(records[i], name, rtype) &&
        forall j :: 0 <= j < i ==> !Matches(records[j], name, rtype)
  {
    if records == [] then None
    else if Matches(records[0], name, rtype) then Some(records[0])
    else
      var found := FirstMatch(records[1..], name, rtype);
      assert found.Some? ==>
        exists i :: 0 < i < |records| && records[i] == found.value && forall j :: 0 <= j < i ==> !Matches(records[j], name, rtype)
      by {
        if found.Some? {
          var k :| 0 <= k < |records[1..]| && records[1..][k] == found.value && Matches(records[1..][k], name, rtype) &&
            forall j :: 0 <= j < k ==> !Matches(records[1..][j], name, rtype);
          assert records[k + 1] == found.value;
          assert forall j :: 1 <= j < k + 1 ==> records[j] == records[1..][j - 1];
        }
      }
      found
  }

  /** The scan over `zone.records` of get_record and delete_record. */
  method FindRecord(records: seq<Record>, name: string, rtype: string) returns (found: Option<Record>)
    ensures found == FirstMatch(records, name, rtype)
  {
    found := None;
    var i := 0;
    while i < |records|
      invariant 0 <= i <= |records|
      invariant FirstMatch(records, name, rtype) == FirstMatch(records[i..], name, rtype)
    {
      assert records[i..][0] == records[i] && records[i..][1..] == records[i + 1..];
      if Matches(records[i], name, rtype) {
        found := Some(records[i]);
        break;
      }
      i := i + 1;
    }
  }

  // ----- what the engine decides before it changes anything -----

  /** What `populate(zone, lenient=False)` puts into a fresh zone named `zone`. */
  function Populated(provider: Provider, zone: string): seq<Record> {
    if zone in provider.store then provider.store[zone] else []
  }

  /** The outcome of get_zone: the checks in their order, then the zone read from `sources[0]`. */
  function ResolveZone(zones: map<string, ZoneConfig>, registry: map<string, Provider>, zoneName: string): (r: Result<Zone, Error>)
    ensures var n := Normalize(zoneName);
      r == Failure(NotConfigured(n)) <==> n !in zones
    ensures var n := Normalize(zoneName);
      r == Failure(NoSources(n)) <==> n in zones && zones[n].Sources() == []
    ensures var n := Normalize(zoneName);
      r.Success? <==> n in zones && zones[n].Sources() != [] && zones[n].Sources()[0] in registry
    ensures var n := Normalize(zoneName);
      r.Failure? && !r.error.NotConfigured? && !r.error.NoSources? ==>
        n in zones && zones[n].Sources() != [] && r.error == SourceNotFound(zones[n].Sources()[0])
    ensures var n := Normalize(zoneName);
      r.Success? ==> r.value == Zone(n, Populated(registry[zones[n].Sources()[0]], n))
  {
    var name := Normalize(zoneName);
    if name !in zones then Failure(NotConfigured(name))
    else
      var sources := zones[name].Sources();
      if sources == [] then Failure(NoSources(name))
      else if sources[0] !in registry then Failure(SourceNotFound(sources[0]))
      else Success(Zone(name, Populated(registry[sources[0]], name)))
  }

  /** The provider calls get_zone makes: one strict populate by `sources[0]` when it succeeds. */
  function PopulateCalls(zones: map<string, ZoneConfig>, registry: map<string, Provider>, zoneName: string): seq<Call> {
    var n := Normalize(zoneName);
    if ResolveZone(zones, registry, zoneName).Success? then [Populate(zones[n].Sources()[0], n, false)] else []
  }

  /**
   * The failure, if any, that create_or_update_record and delete_record
   * raise before they build a record or look up a target: not configured,
   * then no targets, then get_zone's own failures.
   */
  function MutationPreflight(zones: map<string, ZoneConfig>, registry: map<string, Provider>, zoneName: string): (e: Option<Error>)
    ensures Normalize(zoneName) !in zones ==> e == Some(NotConfigured(Normalize(zoneName)))
    ensures Normalize(zoneName) in zones && zones[Normalize(zoneName)].Targets() == [] ==>
      e == Some(NoTargets(Normalize(zoneName)))
    ensures Normalize(zoneName) in zones && zones[Normalize(zoneName)].Targets() != [] ==>
      && (e.None? <==> ResolveZone(zones, registry, zoneName).Success?)
      && (e.Some? ==> e.value == ResolveZone(zones, registry, zoneName).error)
  {
    var name := Normalize(zoneName);
    if name !in zones then Some(NotConfigured(name))
    else if zones[name].Targets() == [] then Some(NoTargets(name))
    else
      match ResolveZone(zones, registry, name)
      case Failure(err) => Some(err)
      case Success(_) => None
  }

  /** Only `sources[0]` matters to get_zone: the other sources and the other providers may be anything. */
  lemma OnlyFirstSourceConsulted(zones: map<string, ZoneConfig>, registry1: map<string, Provider>,
                                 registry2: map<string, Provider>, zoneName: string)
    requires var n := Normalize(zoneName);
      n in zones && zones[n].Sources() != [] ==>
        var source := zones[n].Sources()[0];
        (source in registry1 <==> source in registry2) &&
        (source in registry1 ==> registry1[source] == registry2[source])
    ensures ResolveZone(zones, registry1, zoneName) == ResolveZone(zones, registry2, zoneName)
  {
  }

  /** A zone with targets but no sources fails as get_zone does, with "no sources". */
  lemma TargetsCheckedBeforeSources(zones: map<string, ZoneConfig>, registry: map<string, Provider>, zoneName: string)
    requires Normalize(zoneName) in zones
    requires zones[Normalize(zoneName)].Targets() != [] && zones[Normalize(zoneName)].Sources() == []
    ensures MutationPreflight(zones, registry, zoneName) == Some(NoSources(Normalize(zoneName)))
  {
  }

  /** `record_data.get('name', '')`. */
  function RecordName(recordData: map<string, Value>): (name: Value)
    ensures "name" in recordData ==> name == recordData["name"]
    ensures "name" !in recordData ==> name == Str("")
  {
    Get(Dict(recordData), "name", Str("")).value
  }

  /** `names` lists every element of `keys` exactly once. */
  ghost predicate EnumeratesOnce(names: seq<string>, keys: set<string>) {
    && (forall n :: n in names <==> n in keys)
    && (forall i, j :: 0 <= i < j < |names| ==> names[i] != names[j])
  }

  /**
   * ApiManager over the parts of octoDNS's Manager it uses: the `zones`
   * configuration, the provider registry, and the operations of octoDNS
   * it calls (Record.new, plan, apply, Manager.sync), which are given.
   */
  class ApiManager {
    /** `config['zones']`. */
    const zones: map<string, ZoneConfig>
    /** The keys of `config['zones']` in the order the configuration lists them. */
    const zoneOrder: seq<string>
    /** `manager.providers`, with each provider's state. */
    var providers: map<string, Provider>
    /** `Record.new(zone, name, data)`; `None` when it raises. */
    const build: (Zone, Value, map<string, Value>) -> Option<Record>
    /** `provider.plan(desired)`; `None` when there is nothing to change. */
    const plan: (Provider, Zone) -> Option<Plan>
    /** `provider.apply(plan)`: the provider's state afterwards. */
    const apply: (Provider, Plan) -> Provider
    /** `Manager.sync(...)`. */
    const sync: (map<string, Provider>, SyncRequest) -> SyncRun
    /** Every call made on a provider or on the manager, in order. */
    ghost var calls: seq<Call>

    ghost predicate Valid() {
      EnumeratesOnce(zoneOrder, zones.Keys)
    }

    constructor (zones: map<string, ZoneConfig>, zoneOrder: seq<string>, providers: map<string, Provider>,
                 build: (Zone, Value, map<string, Value>) -> Option<Record>, plan: (Provider, Zone) -> Option<Plan>,
                 apply: (Provider, Plan) -> Provider, sync: (map<string, Provider>, SyncRequest) -> SyncRun)
      requires EnumeratesOnce(zoneOrder, zones.Keys)
      ensures Valid()
      ensures this.zones == zones && this.zoneOrder == zoneOrder && this.providers == providers
      ensures this.build == build && this.plan == plan && this.apply == apply && this.sync == sync
      ensures calls == []
    {
      this.zones := zones;
      this.zoneOrder := zoneOrder;
      this.providers := providers;
      this.build := build;
      this.plan := plan;
      this.apply := apply;
      this.sync := sync;
      calls := [];
    }

    /** list_zones: every configured zone name once, in configuration order. */
    function ListZones(): (names: seq<string>)
      requires Valid()
      ensures forall n :: n in names <==> n in zones
      ensures forall i, j :: 0 <= i < j < |names| ==> names[i] != names[j]
    {
      zoneOrder
    }

    /** get_zone: a fresh zone under the normalised name, populated once and strictly by `sources[0]`. */
    method GetZone(zoneName: string) returns (r: Result<Zone, Error>)
      modifies this
      ensures providers == old(providers)
      ensures r == ResolveZone(zones, old(providers), zoneName)
      ensures calls == old(calls) + PopulateCalls(zones, old(providers), zoneName)
    {
      var name := Normalize(zoneName);
      if name !in zones {
        return Failure(NotConfigured(name));
      }
      var sources := zones[name].Sources();
      if sources == [] {
        return Failure(NoSources(name));
      }
      var zone := Zone(name, []);
      var sourceName := sources[0];
      if sourceName !in providers {
        return Failure(SourceNotFound(sourceName));
      }
      zone := zone.(records := Populated(providers[sourceName], name));
      calls := calls + [Populate(sourceName, name, false)];
      return Success(zone);
    }

    /** get_record: get_zone's outcome, then the first record matching name and type, or none. */
    method GetRecord(zoneName: string, recordName: string, recordType: string) returns (r: Result<Option<Record>, Error>)
      modifies this
      ensures providers == old(providers)
      ensures calls == old(calls) + PopulateCalls(zones, old(providers), zoneName)
      ensures var z := ResolveZone(zones, old(providers), zoneName);
        && (z.Failure? ==> r == Failure(z.error))
        && (z.Success? ==> r == Success(FirstMatch(z.value.records, recordName, recordType)))
    {
      var zone :- GetZone(zoneName);
      var found := FindRecord(zone.records, recordName, recordType);
      return Success(found);
    }

    /**
     * create_or_update_record, in its declared two-parameter form. The
     * desired zone handed to `targets[0]` holds only the new record; the
     * plan is applied, once, exactly when there is one, and the returned
     * flag says whether it was.
     */
    method CreateOrUpdateRecord(zoneName: string, recordData: map<string, Value>) returns (r: Result<(Record, bool), Error>)
      modifies this
      ensures MutationPreflight(zones, old(providers), zoneName).Some? ==>
        && r == Failure(MutationPreflight(zones, old(providers), zoneName).value)
        && calls == old(calls) && providers == old(providers)
      ensures MutationPreflight(zones, old(providers), zoneName).None? ==>
        var name := Normalize(zoneName);
        var current := ResolveZone(zones, old(providers), zoneName).value;
        var targetName := zones[name].Targets()[0];
        var built := build(current, RecordName(recordData), recordData);
        var read := old(calls) + PopulateCalls(zones, old(providers), zoneName);
        if built.None? then
          r == Failure(InvalidRecord) && calls == read && providers == old(providers)
        else if targetName !in old(providers) then
          r == Failure(TargetNotFound(targetName)) && calls == read && providers == old(providers)
        else
          var desired := Zone(name, [built.value]);
          var planned := plan(old(providers)[targetName], desired);
          && r == Success((built.value, planned.Some?))
          && calls == read + [PlanFor(targetName, desired)] + (if planned.Some? then [Apply(targetName, planned.value)] else [])
          && providers == if planned.Some? then old(providers)[targetName := apply(old(providers)[targetName], planned.value)]
                          else old(providers)
    {
      var name := Normalize(zoneName);
      if name !in zones {
        return Failure(NotConfigured(name));
      }
      var targets := zones[name].Targets();
      if targets == [] {
        return Failure(NoTargets(name));
      }
      NormalizeIdempotent(zoneName);
      var zone :- GetZone(name);
      var built := build(zone, RecordName(recordData), recordData);
      if built.None? {
        return Failure(InvalidRecord);
      }
      var newRecord := built.value;
      // create_or_update_record first adds newRecord to `zone` with replace=True, which octoDNS may refuse; that step is not modelled.
      var desired := Zone(name, [newRecord]);
      var targetName := targets[0];
      if targetName !in providers {
        return Failure(TargetNotFound(targetName));
      }
      var target := providers[targetName];
      var planned := plan(target, desired);
      calls := calls + [PlanFor(targetName, desired)];
      if planned.Some? {
        providers := providers[targetName := apply(target, planned.value)];
        calls := calls + [Apply(targetName, planned.value)];
        return Success((newRecord, true));
      }
      return Success((newRecord, false));
    }

    /**
     * delete_record: false, with no target looked up, when no record
     * matches name and type; otherwise an empty desired zone is planned on
     * `targets[0]` and applied, once, exactly when there is a plan.
     */
    method DeleteRecord(zoneName: string, recordName: string, recordType: string) returns (r: Result<bool, Error>)
      modifies this
      ensures MutationPreflight(zones, old(providers), zoneName).Some? ==>
        && r == Failure(MutationPreflight(zones, old(providers), zoneName).value)
        && calls == old(calls) && providers == old(providers)
      ensures MutationPreflight(zones, old(providers), zoneName).None? ==>
        var name := Normalize(zoneName);
        var current := ResolveZone(zones, old(providers), zoneName).value;
        var targetName := zones[name].Targets()[0];
        var read := old(calls) + PopulateCalls(zones, old(providers), zoneName);
        if FirstMatch(current.records, recordName, recordType).None? then
          r == Success(false) && calls == read && providers == old(providers)
        else if targetName !in old(providers) then
          r == Failure(TargetNotFound(targetName)) && calls == read && providers == old(providers)
        else
          var desired := Zone(name, []);
          var planned := plan(old(providers)[targetName], desired);
          && r == Success(planned.Some?)
          && calls == read + [PlanFor(targetName, desired)] + (if planned.Some? then [Apply(targetName, planned.value)] else [])
          && providers == if planned.Some? then old(providers)[targetName := apply(old(providers)[targetName], planned.value)]
                          else old(providers)
    {
      var name := Normalize(zoneName);
      if name !in zones {
        return Failure(NotConfigured(name));
      }
      var targets := zones[name].Targets();
      if targets == [] {
        return Failure(NoTargets(name));
      }
      NormalizeIdempotent(zoneName);
      var zone :- GetZone(name);
      var recordToDelete := FindRecord(zone.records, recordName, recordType);
      if recordToDelete.None? {
        return Success(false);
      }
      var desired := Zone(name, []);
      var targetName := targets[0];
      if targetName !in providers {
        return Failure(TargetNotFound(targetName));
      }
      var target := providers[targetName];
      var planned := plan(target, desired);
      calls := calls + [PlanFor(targetName, desired)];
      if planned.Some? {
        providers := providers[targetName := apply(target, planned.value)];
        calls := calls + [Apply(targetName, planned.value)];
        return Success(true);
      }
      return Success(false);
    }

    /**
     * sync_zone: hands the single normalised zone to `Manager.sync` with
     * `force` off and `dry_run` as given, and reports both back with its result.
     */
    method SyncZone(zoneName: string, dryRun: bool) returns (r: Result<SyncReport, Error>)
      modifies this
      ensures Normalize(zoneName) !in zones ==>
        r == Failure(NotConfigured(Normalize(zoneName))) && calls == old(calls) && providers == old(providers)
      ensures Normalize(zoneName) in zones ==>
        var request := SyncRequest([Normalize(zoneName)], dryRun, false);
        var run := sync(old(providers), request);
        && r == Success(SyncReport(Normalize(zoneName), dryRun, run.result))
        && calls == old(calls) + [Sync(request)]
        && providers == run.providers
    {
      var name := Normalize(zoneName);
      if name !in zones {
        return Failure(NotConfigured(name));
      }
      var eligibleZones := [name];
      var request := SyncRequest(eligibleZones, dryRun, false);
      var run := sync(providers, request);
      calls := calls + [Sync(request)];
      providers := run.providers;
      return Success(SyncReport(name, dryRun, run.result));
    }
  }
}
