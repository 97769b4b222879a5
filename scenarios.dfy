/**
 * Clients that replay situations from the repository's tests against the
 * contracts alone: each asserts what the test observes. The tests call
 * create_or_update_record with four arguments, which its declared
 * two-parameter form would refuse; the scenarios call the declared form
 * with the same zone and record data.
 */
module Scenarios {
  import opened Wrappers
  import opened Values
  import opened Manager
  import Auth
  import Config

  /** A manager over one zone and one registered provider `yaml`, whose plans are `planned`. */
  method NewManager(zone: ZoneConfig, store: seq<Record>, planned: Option<Plan>) returns (m: ApiManager)
    ensures m.zones == map["example.com." := zone] && m.providers == map["yaml" := Provider(map["example.com." := store])]
    ensures forall p, z :: m.plan(p, z) == planned
    ensures forall z, n, d :: m.build(z, n, d) == Some(Record("test", "A", d))
    ensures m.calls == []
    ensures fresh(m)
  {
    m := new ApiManager(map["example.com." := zone], ["example.com."], map["yaml" := Provider(map["example.com." := store])],
                        (z, n, d) => Some(Record("test", "A", d)), (p, z) => planned, (p, pl) => p,
                        (ps, request) => SyncRun(0, ps));
  }

  /** tests/test_manager.py:43-54: the zone is populated under the dotted name. */
  method GetZoneWithoutTrailingDot() {
    var m := NewManager(ZoneConfig(Some(["yaml"]), Some(["yaml"])), [], None);
    var r := m.GetZone("example.com");
    assert Normalize("example.com") == "example.com.";
    assert r == Success(Zone("example.com.", []));
    assert m.calls == [Populate("yaml", "example.com.", false)];
  }

  /** tests/test_manager.py:56-63: an unknown zone is reported as not configured. */
  method GetZoneNotConfigured() {
    var m := NewManager(ZoneConfig(Some(["yaml"]), Some(["yaml"])), [], None);
    var r := m.GetZone("notfound.com.");
    assert r == Failure(NotConfigured("notfound.com."));
    assert Message(r.error) == "Zone notfound.com. not configured";
  }

  /** tests/test_manager.py:65-86: a zone with targets only has no sources. */
  method GetZoneWithoutSources() {
    var m := NewManager(ZoneConfig(None, Some(["yaml"])), [], None);
    var r := m.GetZone("example.com.");
    assert r == Failure(NoSources("example.com."));
    assert Message(r.error) == "Zone example.com. has no sources configured";
  }

  /** tests/test_manager.py:88-111: the first source is not a registered provider. */
  method GetZoneUnknownSource() {
    var m := NewManager(ZoneConfig(Some(["notfound"]), Some(["yaml"])), [], None);
    var r := m.GetZone("example.com.");
    assert r == Failure(SourceNotFound("notfound"));
    assert Message(r.error) == "Source notfound not found";
  }

  /** tests/test_manager.py:65-86 with a write: targets but no sources fails with "no sources". */
  method UpsertWithoutSources() {
    var m := NewManager(ZoneConfig(None, Some(["yaml"])), [], None);
    var r := m.CreateOrUpdateRecord("example.com.", map["type" := Str("A")]);
    assert r == Failure(NoSources("example.com."));
    assert m.calls == [];
  }

  /** tests/test_manager.py:198-227: no matching record, so the unknown target is never looked up. */
  method DeleteMissingRecordWithUnknownTarget() {
    var m := NewManager(ZoneConfig(Some(["yaml"]), Some(["notfound"])), [], Some(Plan(0)));
    var r := m.DeleteRecord("example.com.", "test", "A");
    assert r == Success(false);
  }

  /** tests/test_manager.py:357-392: a matching record makes the unknown target an error. */
  method DeleteRecordWithUnknownTarget() {
    var m := NewManager(ZoneConfig(Some(["yaml"]), Some(["notfound"])), [Record("test", "A", map[])], Some(Plan(0)));
    var r := m.DeleteRecord("example.com.", "test", "A");
    assert r == Failure(TargetNotFound("notfound"));
  }

  /**
   * tests/test_manager.py:302-328, through the declared two-parameter form:
   * a plan is applied exactly once and reported as a change.
   */
  method UpsertWithPlan() {
    var m := NewManager(ZoneConfig(Some(["yaml"]), Some(["yaml"])), [], Some(Plan(0)));
    var data := map["type" := Str("A"), "ttl" := Int(300)];
    var r := m.CreateOrUpdateRecord("example.com.", data);
    var record := Record("test", "A", data);
    assert r == Success((record, true));
    assert m.calls == [Populate("yaml", "example.com.", false), PlanFor("yaml", Zone("example.com.", [record])),
                       Apply("yaml", Plan(0))];
  }

  /** tests/test_manager.py:394-415: no plan, nothing applied, nothing deleted. */
  method DeleteWithoutPlan() {
    var m := NewManager(ZoneConfig(Some(["yaml"]), Some(["yaml"])), [Record("test", "A", map[])], None);
    var r := m.DeleteRecord("example.com.", "test", "A");
    assert r == Success(false);
    assert m.calls == [Populate("yaml", "example.com.", false), PlanFor("yaml", Zone("example.com.", []))];
  }

  /** tests/test_auth.py:27-35: no header at all. */
  method MissingHeader() {
    var keys: Result<seq<Value>, Fault> := Success([Str("test-key-123")]);
    assert Auth.RequireApiKey(None, keys, "ok") == Auth.Rejected(401, Auth.MissingHeader);
  }

  /** tests/test_auth.py:37-47: one word is not `Bearer <key>`. */
  method HeaderOfOneWord() {
    var keys: Result<seq<Value>, Fault> := Success([Str("test-key-123")]);
    Auth.SplitJoin(["InvalidFormat"]);
    assert Auth.Split("InvalidFormat") == ["InvalidFormat"];
    assert Auth.RequireApiKey(Some("InvalidFormat"), keys, "ok") == Auth.Rejected(401, Auth.BadFormat);
  }

  /** tests/test_config.py:40-60: an env/ key is replaced by the variable's value. */
  method SecretFromEnvironment() {
    var entry := Dict(map["name" := Str("test"), "key" := Str("env/TEST_API_KEY")]);
    var file := Dict(map["api" := Dict(map["keys" := List([entry])])]);
    var env := map["TEST_API_KEY" := "secret-from-env"];
    assert Config.KeyOf(entry).value == Str("env/TEST_API_KEY");
    assert Config.VariableOf(Str("env/TEST_API_KEY")) == "TEST_API_KEY";
    var resolved := Config.ResolveEntry(entry, env).value;
    assert resolved.fields["key"] == Str("secret-from-env");
    var entries := Config.ResolveEntries([entry], env);
    assert entries.Success? && |entries.value| == 1 && entries.value[0] == resolved;
    assert entries.value == [resolved];
    var r := Config.ResolveSecrets(file, env);
    assert r.Success? && r.value.fields["api"].fields["keys"] == List([resolved]);
  }

  /** tests/test_config.py:16-38: a second read of the same path is answered from the cache. */
  method SecondReadIsCached(file: Value, env: map<string, string>) {
    var path := "config.yaml";
    var cache := new Config.ConfigCache();
    var first := cache.GetConfig(path, _ => file, env);
    var second := cache.GetConfig(path, _ => Null, map[]);
    assert first.Success? ==> second == first && cache.loads == [path];
    assert first.Failure? ==> second == Config.ResolveSecrets(Null, map[]) && cache.loads == [path, path];
  }

  /** tests/test_config.py:62-82: after clearing, the file is read again. */
  method ClearForcesReload(file: Value, env: map<string, string>) {
    var path := "config.yaml";
    var cache := new Config.ConfigCache();
    var first := cache.GetConfig(path, _ => file, env);
    cache.Clear();
    var third := cache.GetConfig(path, _ => file, env);
    assert third == first && cache.loads == [path, path];
  }
}
