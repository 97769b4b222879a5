# octodns-api core, in Dafny

octodns-api is a small HTTP service that puts a REST interface in front of an
octoDNS configuration. This project models its core:

- **The request engine** (`ApiManager`, `octodns_api/manager.py`). It
  normalises zone names to their dotted form and checks that a zone is
  configured. It reads a zone from the zone's first source. It finds a
  record by name and type. It builds a desired zone, plans it on the zone's
  first target and applies the plan when there is one. It hands a zone to
  octoDNS's own sync. Each failure raises an `ApiManagerException` with a
  fixed message.
- **The API-key check** (`octodns_api/auth.py`). `_get_api_keys` collects
  the truthy `key` values under `api.keys`. The bearer-header check of
  `require_api_key` refuses a missing header, a malformed one and an
  unknown key with a 401 reply, and otherwise runs the wrapped view.
- **Configuration loading** (`octodns_api/config.py`). `get_config`
  rewrites every `env/NAME` API key to the value of the environment
  variable `NAME`, caches the result per path, and `clear_config_cache`
  empties the cache.

Modules:

- `Wrappers` (`wrappers.dfy`): `Option` and `Result`.
- `Values` (`values.dfy`): the parsed YAML values the Python code works on.
  It models truthiness, `dict.get`, which raises on a value that is not a
  mapping, and iteration over a value that may not be a list.
- `Config` (`config.dfy`): secret resolution as pure functions, the in-place
  rewrite loop as a method proved against them, and the cache as a class
  whose map field the methods update.
- `Auth` (`auth.dfy`): `_get_api_keys` as a loop method proved against a
  function. It also models Python's `str.split()`, with its round trip
  through `' '.join`, and the header check as a total function over the
  three outcomes: handled, rejected with 401, or an exception.
- `Manager` (`manager.dfy`): pure specification functions, and the
  `ApiManager` class. The class holds the providers as state and keeps a
  ghost log of the provider and octoDNS calls it makes. Its methods state
  their whole outcome and new state in terms of those functions.
- `Scenarios` (`scenarios.dfy`): situations from the repository's tests
  (`tests/test_manager.py`, `tests/test_auth.py`, `tests/test_config.py`)
  restated as assertions against the contracts.

octoDNS itself is a parameter of the model. `Record.new`, `provider.plan`,
`provider.apply` and `Manager.sync` are functions that the `ApiManager`
holds. `populate` is a lookup in the provider's record store. The YAML file
is a function from path to value, and the process environment is a map.

In these places the code does something other than one might expect, and
the model follows the code:

- `create_or_update_record` plans a desired zone that holds only the new
  record. With octoDNS's usual plan semantics, every other record of the
  zone would then be planned for deletion.
- `delete_record` plans an empty desired zone. With octoDNS's usual plan
  semantics, that plan deletes every record of the zone, not just the
  matched one.
- Only `targets[0]` is written to.
- Zone names are not IDNA-decoded.
- `create_or_update_record` is declared with two parameters (zone, data).
  Its HTTP caller at `octodns_api/api/records.py:80-82` passes four (zone,
  name, type, data), and so do the tests at `tests/test_manager.py:132`,
  `:166`, `:234`, `:267` and `:320`. The declared form raises a TypeError
  on such a call. The model follows the declaration, and its scenarios call
  it with the tests' zone and record data.

## Model

| member | source | states |
|---|---|---|
| Manager.Message | octodns_api/manager.py:56-72 | The exception texts of manager.py:56, 63, 72, 108, 115, 137, 161, 168, 192 and 216: "Zone <zone> not configured", "Zone <zone> has no sources configured", "Zone <zone> has no targets configured", "Source <name> not found", "Target <name> not found". Each is its fixed frame around the zone, source or target name. |
| Manager.MessageIdentifiesError | octodns_api/manager.py:56-72 | Two errors that render to the same text are the same error, kind and name both. So the text a client receives tells exactly which check failed and for which zone, source or target. |
| Manager.Normalize | octodns_api/manager.py:51-52 | The result always ends with a dot and extends the input by at most one character. A name that already ends with a dot is unchanged. |
| Manager.NormalizeAppendsOneDot | octodns_api/manager.py:51-52 | A name without a trailing dot gets exactly one `.` appended. |
| Manager.NormalizeIdempotent | octodns_api/manager.py:51-52 | Normalising an already normalised name changes nothing. The mutating operations rely on this when they call get_zone with the normalised name. |
| Manager.FirstMatch | octodns_api/manager.py:89-93 | Gives None exactly when no record matches both name and type. Otherwise it gives the record at the first matching index, and no earlier record matches. |
| Manager.FindRecord | octodns_api/manager.py:174-182 | The scan-and-break loop returns the same record as FirstMatch. |
| Manager.ResolveZone | octodns_api/manager.py:43-76 | In if-and-only-if form: NotConfigured when the normalised name is not configured. NoSources when it has no sources. SourceNotFound(sources[0]) when the first source is not registered. Otherwise success with a zone under the normalised name holding exactly that source's records. |
| Manager.MutationPreflight | octodns_api/manager.py:103-119 | The error a write raises before it reaches a target: NotConfigured first, then NoTargets, then get_zone's error. None when all checks pass. |
| Manager.OnlyFirstSourceConsulted | octodns_api/manager.py:66-74 | get_zone's outcome depends on the first source only. Two registries that agree on that source give the same result. |
| Manager.TargetsCheckedBeforeSources | octodns_api/manager.py:106-119 | A configured zone with targets but no sources makes a write fail with "no sources" (the get_zone error). |
| Manager.RecordName | octodns_api/manager.py:122 | `record_data.get('name', '')` via the modelled `dict.get`: the `name` field when present, otherwise the empty string. |
| Manager.ApiManager.ListZones | octodns_api/manager.py:35-41 | Each configured zone name appears exactly once, with no duplicates. |
| Manager.ApiManager.GetZone | octodns_api/manager.py:43-76 | The result is ResolveZone of the current providers. A successful call logs exactly one strict populate of sources[0] and changes no provider. |
| Manager.ApiManager.GetRecord | octodns_api/manager.py:78-93 | Propagates get_zone's error. Otherwise returns FirstMatch over the zone's records, with get_zone's populate logged. |
| Manager.ApiManager.CreateOrUpdateRecord | octodns_api/manager.py:95-145 | A preflight error leaves the log and the providers untouched. Otherwise: a record build failure, then TargetNotFound(targets[0]). Otherwise the zone holding only the new record is planned on targets[0]. The plan is applied exactly once, and only to that target, exactly when there is one. The result is the record and whether the plan was applied. |
| Manager.ApiManager.DeleteRecord | octodns_api/manager.py:147-201 | A preflight error changes nothing. With no record matching name and type the result is False, and no target is looked up or planned. Otherwise TargetNotFound(targets[0]), or an empty zone is planned on targets[0] and applied exactly when there is a plan. The result is True exactly then. |
| Manager.ApiManager.SyncZone | octodns_api/manager.py:203-223 | NotConfigured for an unknown zone, with nothing called. Otherwise exactly one sync call, over the one normalised zone with force off and dry_run passed through. The report carries the zone, the dry_run flag and sync's result. |
| Config.KeyEntries | octodns_api/config.py:27-30 | The entries a `for` loop over `config.get('api', {}).get('keys', [])` visits. A configuration or `api` that is not a mapping raises AttributeError. A missing or empty `api`, or a missing `keys`, gives no entries. A `keys` list gives its items. A null, boolean or number under `keys` raises TypeError. The same reading is at auth.py:19-24. |
| Config.KeyOf | octodns_api/config.py:31 | `key_config.get('key')`: succeeds exactly for a mapping, otherwise AttributeError. The result is the `key` field, or None when there is none. The same call is at auth.py:25. |
| Config.ResolveEntry | octodns_api/config.py:30-36 | A key entry that is not a mapping raises AttributeError. A key that is not a truthy `env/` string leaves the entry unchanged. An `env/NAME` key succeeds exactly when NAME is in the environment, and then becomes that variable's value with the other fields unchanged. Otherwise it fails with KeyError(NAME). |
| Config.ResolveEntries | octodns_api/config.py:30-36 | Succeeds exactly when every entry resolves. It keeps length and order, entry by entry. On failure, the error is that of the first entry that fails. |
| Config.FirstFault | octodns_api/config.py:30-36 | When every entry before i resolves and entry i fails, the whole rewrite fails with entry i's error. |
| Config.ResolveKeys | octodns_api/config.py:30-36 | The in-place rewrite loop returns exactly ResolveEntries, including on the early exits. |
| Config.ResolveSecrets | octodns_api/config.py:27-36 | Succeeds exactly when `api` and `keys` can be read and iterated (KeyEntries) and every entry resolves. On failure the fault is KeyEntries' fault (AttributeError for a non-mapping, TypeError for a non-iterable `keys`) or else the first failing entry's fault. On success, only `api.keys` can change, and every other field of the file and of `api` is kept. A `keys` list is replaced by its resolved entries. A missing `api` or `keys` leaves the configuration as loaded. |
| Config.MissingVariableFails | octodns_api/config.py:30-36 | The first `env/NAME` key whose variable is unset makes loading fail with KeyError(NAME), when every entry before it resolves. |
| Config.NoSecretsNoChange | octodns_api/config.py:30-36 | A configuration whose keys hold no `env/` references is returned unchanged. |
| Config.ConfigCache.GetConfig | octodns_api/config.py:12-40 | A cached path is answered from the cache without reading the file. Otherwise the file is read once and the result is ResolveSecrets of it, cached only on success. The cache invariant (every entry is a resolved file) is kept. |
| Config.ConfigCache.Clear | octodns_api/config.py:43-45 | The cache is empty afterwards and its invariant holds. |
| Auth.TruthyKeys | octodns_api/auth.py:23-29 | Succeeds exactly when every entry is a mapping, and raises AttributeError otherwise. The result is no longer than the entries. |
| Auth.TruthyKeysMembers | octodns_api/auth.py:23-29 | Every collected key is a truthy `key` of some entry, and every truthy `key` is collected. |
| Auth.TruthyKeysStep | octodns_api/auth.py:24-27 | The first entry contributes its `key` when truthy, ahead of what the remaining entries contribute. |
| Auth.TruthyKeysOfOne | octodns_api/auth.py:24-27 | One entry contributes its `key` when that is truthy, nothing when it is not, and raises when the entry is not a mapping. |
| Auth.TruthyKeysAppend | octodns_api/auth.py:23-29 | The keys of consecutive entries come out consecutively: the result for `a + b` is the result for `a` followed by the result for `b`. With TruthyKeysOfOne this fixes the order and the multiplicity, as the appending loop gives them. |
| Auth.ApiKeys | octodns_api/auth.py:18-29 | What _get_api_keys returns. It succeeds exactly when the key entries can be read and every entry is a mapping. Otherwise it raises the fault of reading `api`/`keys`, or AttributeError for an entry that is not a mapping. |
| Auth.GetApiKeys | octodns_api/auth.py:14-29 | The collecting loop returns exactly ApiKeys of the configuration. |
| Auth.SpaceRun | octodns_api/auth.py:47 | Length of the leading whitespace: all of it whitespace, and followed by a non-space or the end. |
| Auth.WordRun | octodns_api/auth.py:47 | Length of the leading word: no whitespace in it, and followed by whitespace or the end. |
| Auth.Split | octodns_api/auth.py:47 | Every part of `str.split()` is a non-empty run without whitespace. |
| Auth.SplitJoin | octodns_api/auth.py:47 | Splitting the single-space join of words gives the words back. |
| Auth.SplitWordThen | octodns_api/auth.py:47 | A word followed by whitespace or by nothing splits off as the first part. |
| Auth.SplitInterleave | octodns_api/auth.py:47 | Words separated by whitespace of any kind and length split back into exactly those words. Leading and trailing whitespace may be empty; the separators between words may not. |
| Auth.SplitTwoWords | octodns_api/auth.py:47-48 | Two words with any whitespace before, between and after them split into exactly those two words. |
| Auth.Lower | octodns_api/auth.py:48 | `lower()` keeps the length. |
| Auth.LowerIsBearer | octodns_api/auth.py:48 | `lower() == 'bearer'` holds exactly for the six-letter words spelling `bearer` in any mix of upper and lower case. |
| Auth.SplitAfterSpaces | octodns_api/auth.py:47 | Leading whitespace does not change how a header splits. |
| Auth.WellFormed | octodns_api/auth.py:47-48 | The format test: exactly two parts, the first `bearer` in any case. A well-formed header has a six-letter scheme and a token that is a non-empty run without whitespace. |
| Auth.RequireApiKey | octodns_api/auth.py:40-65 | A missing or empty header is refused with "Missing Authorization header". A header that does not split into exactly `bearer` (any case) and one token is refused with the format message. Every refusal is status 401. An exception surfaces exactly when the header is well formed and loading the keys fails. It is that loading fault, unchanged (for example get_config's KeyError). The view runs, with its result untouched, exactly when the header is well formed and the token is a configured key. A well-formed header with a token that is not configured is refused with "Invalid API key". |
| Auth.KeysNotConsultedForBadHeader | octodns_api/auth.py:43-58 | A missing or malformed header is refused the same way whatever the configured keys are. |
| Auth.BearerKeyAccepted | octodns_api/auth.py:47-65 | `Bearer` in any case and a configured key, with any whitespace around and between them (tabs, runs of spaces), reaches the view. |
| Auth.BearerUnknownKeyRejected | octodns_api/auth.py:58-63 | `Bearer` and a token that is not configured, with any whitespace around and between them, is refused with "Invalid API key", status 401. |
| Auth.UnsplittableKeyNeverMatches | octodns_api/auth.py:47-63 | Whatever else is configured, a request that gets through did not present a key that is empty or contains whitespace. |
| Auth.NoKeysNoAccess | octodns_api/auth.py:18-29 | With no `api` section, or an `api` mapping without `keys`, the key list is empty and no request gets through. |

## Left out

- Manager.ApiManager.ListZones: the names come from a list fixed at
  construction and stated to enumerate the configured zones. Python's dict
  insertion order is not modelled beyond that.
- Manager.ApiManager.CreateOrUpdateRecord: `Record.new` is an opaque
  function from the current zone, the name and the data to a record or a
  failure. octoDNS's record validation and the four-argument call from
  `octodns_api/api/records.py` are not modelled.
- Manager.ApiManager.GetZone: `populate(zone, lenient=False)` is a lookup in
  the provider's store. octoDNS's own validation errors raised during
  populate, wildcard handling and IDNA names are not modelled.
- Plan, apply and `Manager.sync` are opaque total functions. What they
  change in a provider is octoDNS's business, and the model states only
  which provider they were called on, with what, and how often. The
  exceptions octoDNS can raise from them are not modelled. In the source
  such an exception propagates out of the ApiManager method before it
  returns.
- Manager.ApiManager.CreateOrUpdateRecord: `zone.add_record(new_record,
  replace=True)` at `octodns_api/manager.py:126` is left out. octoDNS can
  raise from it, for instance for a CNAME beside other records of the same
  name. The source then fails before the target is looked up. The model
  goes on to plan.
- Manager.ApiManager.SyncZone: `dry_run` is a boolean parameter with no
  default, so the default `dry_run=True` of `octodns_api/manager.py:203` is
  not modelled. The non-boolean JSON values that
  `octodns_api/api/zones.py:53-55` passes through and echoes back are not
  modelled either.
- `Manager(config_file)` construction, YAML parsing and file I/O: the parsed
  file is a function from path to value, and the environment is a map.
- Config.ConfigCache.GetConfig: the Python code rewrites the parsed
  dictionaries in place before caching them. The model rebuilds them as
  values, so aliasing between the cached object and earlier readers is not
  captured. `safe_load` errors and non-string mapping keys are not modelled.
- Config.ResolveSecrets: YAML anchors and aliases (`&k` ... `*k`) are not
  modelled. In the source, a key entry shared through an alias is one
  dictionary. Rewriting it at `octodns_api/config.py:36` changes every place
  that shares it. An entry listed twice under `keys` is resolved twice, so
  a variable whose value itself starts with `env/` is looked up again. The
  model treats every entry as a separate value. The promise that the other
  fields of the file are kept holds only for files without such aliases.
- Auth.Lower: only ASCII letters are lowered. Full Unicode case mapping is
  not modelled. No non-ASCII character lowers to one of the letters of
  `bearer`, so the comparison with `bearer` comes out the same.
- Values.Elements: iterating a non-empty mapping or string under `keys`
  raises AttributeError at the first element's `.get`. Iteration of other
  iterable types (tuples, sets) does not arise from YAML and is not
  modelled.
- Flask: the request object, `jsonify`, the route blueprints, the HTTP
  status mapping of `ApiManagerException` and the CLI are not part of this
  model. The header check returns its status and message as data.
- Logging, threading and concurrent requests sharing the module-level cache
  are not modelled.
- A non-zero numeric `key` is kept by `_get_api_keys` but can never equal
  the string token of a header. The model keeps keys as values, so such a
  key is collected and never matches.
