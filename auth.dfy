/**
 * API-key authentication (octodns_api/auth.py): the list of configured
 * keys, and the checks `require_api_key` makes on the Authorization header
 * before it lets a request through to its handler.
 */
module Auth {
  import opened Wrappers
  import opened Values
  import Config

  // ----- _get_api_keys -----

  /** The truthy `key` values of the entries, in order; an entry that is not a mapping raises. */
  function TruthyKeys(entries: seq<Value>): (r: Result<seq<Value>, Fault>)
    ensures r.Success? <==> forall i :: 0 <= i < |entries| ==> entries[i].Dict?
    ensures r.Failure? ==> r.error == AttributeError
    ensures r.Success? ==> |r.value| <= |entries|
  {
    if entries == [] then Success([])
    else
      var key :- Config.KeyOf(entries[0]);
      var rest :- TruthyKeys(entries[1..]);
      if Truthy(key) then Success([key] + rest) else Success(rest)
  }

  /** The keys collected are the truthy `key` values of the entries, no more and no fewer. */
  lemma {:induction false} TruthyKeysMembers(entries: seq<Value>)
    requires TruthyKeys(entries).Success?
    ensures forall v :: v in TruthyKeys(entries).value ==>
      Truthy(v) && exists i :: 0 <= i < |entries| && Config.KeyOf(entries[i]) == Success(v)
    ensures forall i :: 0 <= i < |entries| && Truthy(Config.KeyOf(entries[i]).value) ==>
      Config.KeyOf(entries[i]).value in TruthyKeys(entries).value
  {
    if entries != [] {
      var tail := entries[1..];
      TruthyKeysMembers(tail);
      var r := TruthyKeys(entries).value;
      var rest := TruthyKeys(tail).value;
      var key := Config.KeyOf(entries[0]).value;
      assert r == if Truthy(key) then [key] + rest else rest;
      forall v | v in r
        ensures Truthy(v) && exists i :: 0 <= i < |entries| && Config.KeyOf(entries[i]) == Success(v)
      {
        if v in rest {
          var j :| 0 <= j < |tail| && Config.KeyOf(tail[j]) == Success(v);
          assert entries[j + 1] == tail[j];
        } else {
          assert v == key && Config.KeyOf(entries[0]) == Success(v);
        }
      }
      forall i | 0 <= i < |entries| && Truthy(Config.KeyOf(entries[i]).value)
        ensures Config.KeyOf(entries[i]).value in r
      {
        if i > 0 {
          assert entries[i] == tail[i - 1];
        }
      }
    }
  }

  /** What _get_api_keys returns for a loaded configuration. */
  function ApiKeys(config: Value): (r: Result<seq<Value>, Fault>)
    ensures r.Success? <==>
      Config.KeyEntries(config).Success? && forall e :: e in Config.KeyEntries(config).value ==> e.Dict?
    ensures r.Failure? && Config.KeyEntries(config).Failure? ==> r.error == Config.KeyEntries(config).error
    ensures r.Failure? && Config.KeyEntries(config).Success? ==> r.error == AttributeError
  {
    var entries :- Config.KeyEntries(config);
    TruthyKeys(entries)
  }

  /** `keys` followed by the keys `rest` stands for, or the fault `rest` holds. */
  function Prepend(keys: seq<Value>, rest: Result<seq<Value>, Fault>): Result<seq<Value>, Fault> {
    match rest
    case Success(more) => Success(keys + more)
    case Failure(e) => Failure(e)
  }

  /** One entry contributes its `key` when that is truthy, nothing otherwise, or raises. */
  lemma TruthyKeysOfOne(entry: Value)
    ensures TruthyKeys([entry]) ==
      match Config.KeyOf(entry)
      case Failure(e) => Failure(e)
      case Success(key) => if Truthy(key) then Success([key]) else Success([])
  {
    assert [entry][1..] == [];
    assert TruthyKeys([]) == Success([]);
    assert forall key: Value :: [key] + [] == [key];
  }

  /** One step of the recursion: the first entry's contribution, then the rest's. */
  lemma TruthyKeysStep(entries: seq<Value>)
    requires entries != [] && entries[0].Dict?
    ensures var key := Config.KeyOf(entries[0]).value;
      TruthyKeys(entries) == Prepend(if Truthy(key) then [key] else [], TruthyKeys(entries[1..]))
  {
    var rest := TruthyKeys(entries[1..]);
    assert rest.Success? ==> [] + rest.value == rest.value;
  }

  /**
   * The keys of consecutive entries come out consecutively, in
   * configuration order, each as often as it is configured.
   */
  lemma {:induction false} TruthyKeysAppend(a: seq<Value>, b: seq<Value>)
    requires TruthyKeys(a).Success?
    ensures TruthyKeys(a + b) == Prepend(TruthyKeys(a).value, TruthyKeys(b))
  {
    if a == [] {
      assert a + b == b;
      assert TruthyKeys(b).Success? ==> [] + TruthyKeys(b).value == TruthyKeys(b).value;
    } else {
      var ab := a + b;
      assert ab[0] == a[0] && ab[1..] == a[1..] + b;
      var key := Config.KeyOf(a[0]).value;
      var first := if Truthy(key) then [key] else [];
      TruthyKeysStep(a);
      TruthyKeysStep(ab);
      TruthyKeysAppend(a[1..], b);
      var rest := TruthyKeys(a[1..]).value;
      if TruthyKeys(b).Success? {
        var more := TruthyKeys(b).value;
        assert first + (rest + more) == (first + rest) + more;
      }
    }
  }

  /** _get_api_keys: collect the truthy `key` values by appending in a loop. */
  method GetApiKeys(config: Value) returns (r: Result<seq<Value>, Fault>)
    ensures r == ApiKeys(config)
  {
    var entries :- Config.KeyEntries(config);
    var keys := [];
    var i := 0;
    assert entries[i..] == entries;
    assert TruthyKeys(entries).Success? ==> [] + TruthyKeys(entries).value == TruthyKeys(entries).value;
    while i < |entries|
      invariant 0 <= i <= |entries|
      invariant TruthyKeys(entries) == Prepend(keys, TruthyKeys(entries[i..]))
    {
      assert entries[i..][0] == entries[i] && entries[i..][1..] == entries[i + 1..];
      var keyValue :- Config.KeyOf(entries[i]);
      ghost var rest := TruthyKeys(entries[i + 1..]);
      if Truthy(keyValue) {
        assert rest.Success? ==> keys + ([keyValue] + rest.value) == (keys + [keyValue]) + rest.value;
        keys := keys + [keyValue];
      }
      i := i + 1;
    }
    assert entries[i..] == [] && keys + [] == keys;
    r := Success(keys);
  }

  // ----- splitting the header -----

  /** The characters Python's `str.split()` treats as whitespace. */
  predicate IsSpace(c: char) {
    var x := c as int;
    || 0x09 <= x <= 0x0D || 0x1C <= x <= 0x20 || x == 0x85 || x == 0xA0 || x == 0x1680
    || 0x2000 <= x <= 0x200A || x == 0x2028 || x == 0x2029 || x == 0x202F || x == 0x205F || x == 0x3000
  }

  /** A non-empty run of non-whitespace characters. */
  predicate IsWord(w: string) {
    w != [] && forall i :: 0 <= i < |w| ==> !IsSpace(w[i])
  }

  /** The length of the leading whitespace of `s`. */
  function SpaceRun(s: string): (k: nat)
    ensures k <= |s|
    ensures forall i :: 0 <= i < k ==> IsSpace(s[i])
    ensures k < |s| ==> !IsSpace(s[k])
  {
    if s == [] || !IsSpace(s[0]) then 0 else 1 + SpaceRun(s[1..])
  }

  /** The length of the leading non-whitespace of `s`. */
  function WordRun(s: string): (k: nat)
    ensures k <= |s|
    ensures forall i :: 0 <= i < k ==> !IsSpace(s[i])
    ensures k < |s| ==> IsSpace(s[k])
  {
    if s == [] || IsSpace(s[0]) then 0 else 1 + WordRun(s[1..])
  }

  /** `s.split()`: the maximal runs of non-whitespace, in order. */
  function Split(s: string): (parts: seq<string>)
    ensures forall p :: p in parts ==> IsWord(p)
    decreases |s|
  {
    var t := s[SpaceRun(s)..];
    if t == [] then []
    else
      var k := WordRun(t);
      var rest := Split(t[k..]);
      assert IsWord(t[..k]);
      assert forall p :: p in [t[..k]] + rest ==> p == t[..k] || p in rest;
      [t[..k]] + rest
  }

  /** `' '.join(parts)`. */
  function Join(parts: seq<string>): string {
    if parts == [] then ""
    else if |parts| == 1 then parts[0]
    else parts[0] + " " + Join(parts[1..])
  }

  lemma {:induction false} SpaceRunAfterSpaces(w: string, s: string)
    requires forall i :: 0 <= i < |w| ==> IsSpace(w[i])
    ensures SpaceRun(w + s) == |w| + SpaceRun(s)
  {
    if w != [] {
      assert (w + s)[0] == w[0];
      assert (w + s)[1..] == w[1..] + s;
      SpaceRunAfterSpaces(w[1..], s);
    } else {
      assert w + s == s;
    }
  }

  lemma {:induction false} WordRunOfWord(w: string, s: string)
    requires forall i :: 0 <= i < |w| ==> !IsSpace(w[i])
    requires s == [] || IsSpace(s[0])
    ensures WordRun(w + s) == |w|
  {
    if w != [] {
      assert (w + s)[1..] == w[1..] + s;
      WordRunOfWord(w[1..], s);
    } else {
      assert w + s == s;
    }
  }

  /** Whitespace in front of a string does not change how it splits. */
  lemma SplitAfterSpaces(w: string, s: string)
    requires forall i :: 0 <= i < |w| ==> IsSpace(w[i])
    ensures Split(w + s) == Split(s)
  {
    SpaceRunAfterSpaces(w, s);
    assert (w + s)[SpaceRun(w + s)..] == s[SpaceRun(s)..];
  }

  /** Splitting undoes joining with single spaces, for words. */
  lemma {:induction false} SplitJoin(parts: seq<string>)
    requires forall p :: p in parts ==> IsWord(p)
    ensures Split(Join(parts)) == parts
  {
    if parts == [] {
    } else {
      var p := parts[0];
      assert IsWord(p);
      var tail := if |parts| == 1 then "" else " " + Join(parts[1..]);
      assert Join(parts) == p + tail;
      assert SpaceRun(p + tail) == 0;
      WordRunOfWord(p, tail);
      assert (p + tail)[..|p|] == p;
      assert (p + tail)[|p|..] == tail;
      if |parts| == 1 {
        assert parts == [p];
      } else {
        SplitAfterSpaces(" ", Join(parts[1..]));
        SplitJoin(parts[1..]);
      }
    }
  }

  /** A string made of whitespace only (possibly empty). */
  predicate IsBlank(s: string) {
    forall i :: 0 <= i < |s| ==> IsSpace(s[i])
  }

  /** `seps[0] + words[0] + seps[1] + ... + words[n-1] + seps[n]`. */
  function Interleave(seps: seq<string>, words: seq<string>): string
    requires |seps| == |words| + 1
    decreases words
  {
    if words == [] then seps[0] else seps[0] + words[0] + Interleave(seps[1..], words[1..])
  }

  /** A word followed by whitespace or nothing splits off as the first part. */
  lemma SplitWordThen(w: string, tail: string)
    requires IsWord(w)
    requires tail == [] || IsSpace(tail[0])
    ensures Split(w + tail) == [w] + Split(tail)
  {
    WordRunOfWord(w, tail);
    assert (w + tail)[0] == w[0];
    assert (w + tail)[..|w|] == w;
    assert (w + tail)[|w|..] == tail;
  }

  /**
   * Words separated by whitespace of any kind and length split back into
   * exactly those words; leading and trailing whitespace may be empty,
   * the separators between words may not.
   */
  lemma {:induction false} SplitInterleave(seps: seq<string>, words: seq<string>)
    requires |seps| == |words| + 1
    requires forall w :: w in words ==> IsWord(w)
    requires forall i :: 0 <= i < |seps| ==> IsBlank(seps[i])
    requires forall i :: 0 < i < |words| ==> seps[i] != ""
    ensures Split(Interleave(seps, words)) == words
    decreases words
  {
    if words == [] {
      assert seps[0] + "" == seps[0];
      SplitAfterSpaces(seps[0], "");
    } else {
      var w := words[0];
      assert w in words;
      var tail := Interleave(seps[1..], words[1..]);
      assert Interleave(seps, words) == seps[0] + (w + tail);
      SplitAfterSpaces(seps[0], w + tail);
      if words[1..] != [] {
        assert seps[1..][0] == seps[1] && seps[1] != "";
        assert tail[0] == seps[1][0];
      }
      SplitWordThen(w, tail);
      forall v | v in words[1..] ensures IsWord(v) {
        assert v in words;
      }
      SplitInterleave(seps[1..], words[1..]);
    }
  }

  // ----- the header check of require_api_key -----

  /** `str.lower()` on the ASCII letters. */
  function Lower(s: string): (r: string)
    ensures |r| == |s|
  {
    seq(|s|, i requires 0 <= i < |s| => if 'A' <= s[i] <= 'Z' then (s[i] as int + 32) as char else s[i])
  }

  /** `scheme.lower() == 'bearer'` accepts `bearer` in every mix of letter case, and nothing else. */
  lemma LowerIsBearer(scheme: string)
    ensures Lower(scheme) == "bearer" <==>
      |scheme| == 6 && forall i :: 0 <= i < 6 ==> scheme[i] == "bearer"[i] || scheme[i] == "BEARER"[i]
  {
  }

  const Unauthorized: int := 401
  const MissingHeader: string := "Missing Authorization header"
  const BadFormat: string := "Invalid Authorization header format. Expected: Bearer <api-key>"
  const BadKey: string := "Invalid API key"

  /** What the wrapped request comes to: the handler's own result, a 401 reply, or an exception. */
  datatype Response<T> = Handled(value: T) | Rejected(status: int, error: string) | Raised(fault: Fault)

  /** Exactly two whitespace-separated parts, the first `bearer` in any letter case. */
  predicate WellFormed(header: string)
    ensures WellFormed(header) ==> |Split(header)| == 2 && |Split(header)[0]| == 6 && IsWord(Split(header)[1])
  {
    var parts := Split(header);
    |parts| == 2 && Lower(parts[0]) == "bearer"
  }

  /**
   * decorated_function: `header` is the Authorization header if the request
   * has one, `keys` what _get_api_keys would return (it is only called once
   * the header is well formed), `handler` the result of the wrapped view.
   */
  function RequireApiKey<T>(header: Option<string>, keys: Result<seq<Value>, Fault>, handler: T): (resp: Response<T>)
    ensures header.None? || header == Some("") ==> resp == Rejected(Unauthorized, MissingHeader)
    ensures header.Some? && header.value != "" && !WellFormed(header.value) ==> resp == Rejected(Unauthorized, BadFormat)
    ensures resp.Rejected? ==> resp.status == Unauthorized
    ensures resp.Raised? <==> header.Some? && WellFormed(header.value) && keys.Failure?
    ensures resp.Handled? <==>
      header.Some? && WellFormed(header.value) && keys.Success? && Str(Split(header.value)[1]) in keys.value
    ensures resp.Handled? ==> resp.value == handler
    ensures resp.Raised? ==> resp.fault == keys.error
    ensures header.Some? && WellFormed(header.value) && keys.Success? && Str(Split(header.value)[1]) !in keys.value ==>
      resp == Rejected(Unauthorized, BadKey)
  {
    if header.None? || header.value == "" then
      Rejected(Unauthorized, MissingHeader)
    else
      var parts := Split(header.value);
      if |parts| != 2 || Lower(parts[0]) != "bearer" then
        Rejected(Unauthorized, BadFormat)
      else
        match keys
        case Failure(e) => Raised(e)
        case Success(valid) =>
          if Str(parts[1]) !in valid then Rejected(Unauthorized, BadKey) else Handled(handler)
  }

  /** A request whose header is missing or malformed is refused the same way whatever the keys are. */
  lemma KeysNotConsultedForBadHeader<T>(header: Option<string>, keys1: Result<seq<Value>, Fault>,
                                        keys2: Result<seq<Value>, Fault>, handler: T)
    requires header.Some? ==> !WellFormed(header.value)
    ensures RequireApiKey(header, keys1, handler) == RequireApiKey(header, keys2, handler)
  {
  }

  /** A header of two words, with any whitespace around and between them, splits into those two words. */
  lemma SplitTwoWords(lead: string, first: string, sep: string, second: string, trail: string)
    requires IsBlank(lead) && IsBlank(sep) && IsBlank(trail) && sep != ""
    requires IsWord(first) && IsWord(second)
    ensures Split(lead + first + sep + second + trail) == [first, second]
  {
    var seps, words := [lead, sep, trail], [first, second];
    assert Interleave(seps[2..], words[2..]) == trail;
    assert Interleave(seps[1..], words[1..]) == sep + second + trail;
    assert Interleave(seps, words) == lead + first + (sep + second + trail);
    assert lead + first + (sep + second + trail) == lead + first + sep + second + trail;
    SplitInterleave(seps, words);
  }

  /** `Bearer <key>` with a configured key gets through, whatever the case of `Bearer` and the whitespace. */
  lemma BearerKeyAccepted<T>(lead: string, scheme: string, sep: string, key: string, trail: string,
                             keys: seq<Value>, handler: T)
    requires IsBlank(lead) && IsBlank(sep) && IsBlank(trail) && sep != ""
    requires Lower(scheme) == "bearer" && IsWord(scheme)
    requires IsWord(key) && Str(key) in keys
    ensures RequireApiKey(Some(lead + scheme + sep + key + trail), Success(keys), handler) == Handled(handler)
  {
    SplitTwoWords(lead, scheme, sep, key, trail);
  }

  /** `Bearer <token>` with a token that is not configured is refused as an invalid key. */
  lemma BearerUnknownKeyRejected<T>(lead: string, scheme: string, sep: string, token: string, trail: string,
                                    keys: seq<Value>, handler: T)
    requires IsBlank(lead) && IsBlank(sep) && IsBlank(trail) && sep != ""
    requires Lower(scheme) == "bearer" && IsWord(scheme)
    requires IsWord(token) && Str(token) !in keys
    ensures RequireApiKey(Some(lead + scheme + sep + token + trail), Success(keys), handler) == Rejected(Unauthorized, BadKey)
  {
    SplitTwoWords(lead, scheme, sep, token, trail);
  }

  /** A configured key that is empty or holds whitespace never authenticates anyone. */
  lemma UnsplittableKeyNeverMatches<T>(header: Option<string>, key: string, keys: seq<Value>, handler: T)
    requires !IsWord(key)
    ensures RequireApiKey(header, Success(keys), handler).Handled? ==> Split(header.value)[1] != key
  {
  }

  /** Without an `api.keys` list nothing is configured, so no request gets through. */
  lemma NoKeysNoAccess<T>(config: Value, header: Option<string>, handler: T)
    requires config.Dict?
    requires "api" in config.fields ==> config.fields["api"].Dict? && "keys" !in config.fields["api"].fields
    ensures ApiKeys(config) == Success([])
    ensures !RequireApiKey(header, ApiKeys(config), handler).Handled?
  {
  }
}
