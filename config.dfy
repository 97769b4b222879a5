/**
 * Loading the configuration (octodns_api/config.py): every `api.keys[*].key`
 * that is a string starting with `env/` is replaced by the environment
 * variable it names, and the result is memoised per file path.
 */
module Config {
  import opened Wrappers
  import opened Values

  const EnvPrefix: string := "env/"

  /** The list under `api.keys`, as `config.get('api', {}).get('keys', [])` and a `for` loop see it. */
  function KeyEntries(config: Value): (r: Result<seq<Value>, Fault>)
    ensures !config.Dict? ==> r == Failure(AttributeError)
    ensures config.Dict? && "api" in config.fields && !config.fields["api"].Dict? ==> r == Failure(AttributeError)
    ensures config.Dict? && ("api" !in config.fields || config.fields["api"] == Dict(map[])) ==> r == Success([])
    ensures config.Dict? && "api" in config.fields && config.fields["api"].Dict? ==>
      var api := config.fields["api"].fields;
      && ("keys" !in api ==> r == Success([]))
      && ("keys" in api && api["keys"].List? ==> r == Success(api["keys"].items))
      && ("keys" in api && (api["keys"].Null? || api["keys"].Bool? || api["keys"].Int?) ==> r == Failure(TypeError))
  {
    var api :- Get(config, "api", Dict(map[]));
    var keys :- Get(api, "keys", List([]));
    Elements(keys)
  }

  /** `entry.get('key')`. */
  function KeyOf(entry: Value): (r: Result<Value, Fault>)
    ensures r.Success? <==> entry.Dict?
    ensures r.Failure? ==> r.error == AttributeError
    ensures entry.Dict? && "key" in entry.fields ==> r == Success(entry.fields["key"])
    ensures entry.Dict? && "key" !in entry.fields ==> r == Success(Null)
  {
    Get(entry, "key", Null)
  }

  /** A key that names an environment variable: a non-empty string starting with `env/`. */
  predicate IsSecretRef(key: Value) {
    Truthy(key) && key.Str? && StartsWith(key.s, EnvPrefix)
  }

  /** The environment variable a secret reference names. */
  function VariableOf(key: Value): string
    requires IsSecretRef(key)
  {
    key.s[|EnvPrefix|..]
  }

  /** `a` and `b` are mappings with the same fields and agree on every field except `k`. */
  ghost predicate AgreeExcept(a: Value, b: Value, k: string) {
    && a.Dict? && b.Dict?
    && a.fields.Keys == b.fields.Keys
    && forall f :: f in a.fields && f != k ==> b.fields[f] == a.fields[f]
  }

  /** One pass of the loop body over a `keys` entry. */
  function ResolveEntry(entry: Value, env: map<string, string>): (r: Result<Value, Fault>)
    ensures !entry.Dict? ==> r == Failure(AttributeError)
    ensures r.Success? ==> AgreeExcept(entry, r.value, "key")
    ensures entry.Dict? && !IsSecretRef(KeyOf(entry).value) ==> r == Success(entry)
    ensures entry.Dict? && IsSecretRef(KeyOf(entry).value) ==>
      && (r.Success? <==> VariableOf(KeyOf(entry).value) in env)
      && (r.Success? ==> r.value.fields["key"] == Str(env[VariableOf(KeyOf(entry).value)]))
      && (r.Failure? ==> r.error == KeyError(VariableOf(KeyOf(entry).value)))
  {
    var key :- KeyOf(entry);
    if IsSecretRef(key) then
      var name := VariableOf(key);
      if name in env then Success(Dict(entry.fields["key" := Str(env[name])]))
      else Failure(KeyError(name))
    else
      Success(entry)
  }

  /** The loop over all entries: every entry resolved in order, or the first fault. */
  function ResolveEntries(entries: seq<Value>, env: map<string, string>): (r: Result<seq<Value>, Fault>)
    ensures r.Success? <==> forall i :: 0 <= i < |entries| ==> ResolveEntry(entries[i], env).Success?
    ensures r.Success? ==> |r.value| == |entries|
    ensures r.Success? ==> forall i :: 0 <= i < |entries| ==> ResolveEntry(entries[i], env) == Success(r.value[i])
    ensures r.Failure? ==>
      exists i :: 0 <= i < |entries| && ResolveEntry(entries[i], env) == Failure(r.error) &&
        forall j :: 0 <= j < i ==> ResolveEntry(entries[j], env).Success?
  {
    if entries == [] then Success([])
    else
      var first :- ResolveEntry(entries[0], env);
      var rest :- ResolveEntries(entries[1..], env);
      Success([first] + rest)
  }

  /** The loop stops at the first entry that raises, with that entry's fault. */
  lemma FirstFault(entries: seq<Value>, env: map<string, string>, i: nat)
    requires i < |entries| && ResolveEntry(entries[i], env).Failure?
    requires forall j :: 0 <= j < i ==> ResolveEntry(entries[j], env).Success?
    ensures ResolveEntries(entries, env) == Failure(ResolveEntry(entries[i], env).error)
  {
  }

  /**
   * The loop of get_config, rewriting `key_config['key']` entry by entry.
   * It stops at the first entry that raises.
   */
  method ResolveKeys(entries: seq<Value>, env: map<string, string>) returns (r: Result<seq<Value>, Fault>)
    ensures r == ResolveEntries(entries, env)
  {
    var out := entries;
    var i := 0;
    while i < |out|
      invariant 0 <= i <= |out| == |entries|
      invariant forall j :: 0 <= j < i ==> ResolveEntry(entries[j], env) == Success(out[j])
      invariant forall j :: i <= j < |out| ==> out[j] == entries[j]
    {
      if !out[i].Dict? {
        FirstFault(entries, env, i);
        return Failure(AttributeError);
      }
      var key := KeyOf(out[i]).value;
      if IsSecretRef(key) {
        var name := VariableOf(key);
        if name !in env {
          FirstFault(entries, env, i);
          return Failure(KeyError(name));
        }
        out := out[i := Dict(out[i].fields["key" := Str(env[name])])];
      }
      i := i + 1;
    }
    assert ResolveEntries(entries, env).value == out;
    r := Success(out);
  }

  /**
   * The configuration get_config caches for a parsed file: the same
   * mapping with the secret references under `api.keys` resolved.
   */
  function ResolveSecrets(config: Value, env: map<string, string>): (r: Result<Value, Fault>)
    ensures r.Success? ==> AgreeExcept(config, r.value, "api")
    ensures r.Success? && "api" in config.fields ==> AgreeExcept(config.fields["api"], r.value.fields["api"], "keys")
    ensures r.Success? && "api" in config.fields && "keys" in config.fields["api"].fields ==>
      var keys := config.fields["api"].fields["keys"];
      var keys' := r.value.fields["api"].fields["keys"];
      if keys.List? then keys'.List? && ResolveEntries(keys.items, env) == Success(keys'.items)
      else keys' == keys
    ensures r.Success? && ("api" !in config.fields || "keys" !in config.fields["api"].fields) ==> r.value == config
    ensures r.Success? <==> KeyEntries(config).Success? && ResolveEntries(KeyEntries(config).value, env).Success?
    ensures r.Failure? && KeyEntries(config).Failure? ==> r.error == KeyEntries(config).error
    ensures r.Failure? && KeyEntries(config).Success? ==> r.error == ResolveEntries(KeyEntries(config).value, env).error
  {
    var api :- Get(config, "api", Dict(map[]));
    var keys :- Get(api, "keys", List([]));
    var entries :- Elements(keys);
    var resolved :- ResolveEntries(entries, env);
    if keys.List? && "keys" in api.fields then
      Success(Dict(config.fields["api" := Dict(api.fields["keys" := List(resolved)])]))
    else
      Success(config)
  }

  /**
   * A configuration whose `api.keys` entries hold no secret reference is
   * returned as it was parsed.
   */
  lemma {:induction false} NoSecretsNoChange(config: Value, env: map<string, string>)
    requires KeyEntries(config).Success?
    requires forall e :: e in KeyEntries(config).value ==> e.Dict? && !IsSecretRef(KeyOf(e).value)
    ensures ResolveSecrets(config, env) == Success(config)
  {
    var entries := KeyEntries(config).value;
    var r := ResolveEntries(entries, env);
    forall i | 0 <= i < |entries| ensures ResolveEntry(entries[i], env) == Success(entries[i]) {
      assert entries[i] in entries;
    }
    assert r.Success?;
    assert r.value == entries;
    var api := Get(config, "api", Dict(map[])).value;
    var keys := Get(api, "keys", List([])).value;
    if keys.List? && "keys" in api.fields {
      assert api.fields["keys" := List(entries)] == api.fields;
      assert config.fields["api" := Dict(api.fields)] == config.fields;
    }
  }

  /**
   * The first `env/NAME` key whose variable is not set makes loading fail
   * with KeyError(NAME), when every entry before it resolves.
   */
  lemma MissingVariableFails(config: Value, env: map<string, string>, i: nat)
    requires KeyEntries(config).Success?
    requires var entries := KeyEntries(config).value;
      && i < |entries| && entries[i].Dict? && IsSecretRef(KeyOf(entries[i]).value)
      && VariableOf(KeyOf(entries[i]).value) !in env
      && forall j :: 0 <= j < i ==> ResolveEntry(entries[j], env).Success?
    ensures ResolveSecrets(config, env) == Failure(KeyError(VariableOf(KeyOf(KeyEntries(config).value[i]).value)))
  {
  }

  /** The per-path memo of get_config, `_config_cache`. */
  class ConfigCache {
    var entries: map<string, Value>
    /** Paths opened and parsed, in order. */
    ghost var loads: seq<string>
    /** For each cached path, the parsed file and the environment it was resolved against. */
    ghost var origin: map<string, (Value, map<string, string>)>

    /** Every cached configuration is a parsed file with its secrets resolved. */
    ghost predicate Valid()
      reads this
    {
      && entries.Keys == origin.Keys
      && forall p :: p in entries ==> ResolveSecrets(origin[p].0, origin[p].1) == Success(entries[p])
    }

    constructor ()
      ensures Valid() && entries == map[] && loads == []
    {
      entries := map[];
      loads := [];
      origin := map[];
    }

    /**
     * get_config: a cached path is answered from the cache without opening
     * the file; otherwise the file (`read`) is parsed, its secrets resolved
     * against `env`, and the result cached. A fault caches nothing.
     */
    method GetConfig(path: string, read: string -> Value, env: map<string, string>) returns (r: Result<Value, Fault>)
      requires Valid()
      modifies this
      ensures Valid()
      ensures path in old(entries) ==>
        r == Success(old(entries)[path]) && entries == old(entries) && loads == old(loads)
      ensures path !in old(entries) ==>
        && loads == old(loads) + [path]
        && r == ResolveSecrets(read(path), env)
        && entries == if r.Success? then old(entries)[path := r.value] else old(entries)
    {
      if path !in entries {
        loads := loads + [path];
        var config := read(path);
        var api :- Get(config, "api", Dict(map[]));
        var keysConfig :- Get(api, "keys", List([]));
        var keyEntries :- Elements(keysConfig);
        var resolved :- ResolveKeys(keyEntries, env);
        if keysConfig.List? && "keys" in api.fields {
          config := Dict(config.fields["api" := Dict(api.fields["keys" := List(resolved)])]);
        }
        entries := entries[path := config];
        origin := origin[path := (read(path), env)];
      }
      r := Success(entries[path]);
    }

    /** clear_config_cache: forget every cached configuration. */
    method Clear()
      modifies this
      ensures Valid() && entries == map[] && loads == old(loads)
    {
      entries := map[];
      origin := map[];
    }
  }
}
