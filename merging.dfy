/**
 * How a wrapped client combines its defaults with what a call supplies
 * (lib/client.js, GRPCCaller.createOptions, GRPCCaller.createMetadata and
 * isGRPCMetadata).
 *
 * Options: the per-call object is merged over the defaults into a fresh
 * object, the per-call value winning on every key.
 * Metadata: asymmetric. A plain object (or nothing) is merged over the default
 * metadata, the per-call value winning, and the result is coerced once into a
 * metadata object. A pre-built metadata object is cloned and only the default
 * keys for which it holds no value at all are filled in.
 */
module Merging {
  import opened JsValues

  /**
   * `_.merge({}, defaults, override)`: the override's own fields over a copy of
   * the defaults. A value that is not a plain object contributes no field.
   */
  function MergeOver(defaults: map<string, Value>, override: Value): (r: map<string, Value>)
    ensures r.Keys == defaults.Keys + OwnFields(override).Keys
    ensures forall k :: k in OwnFields(override) ==> r[k] == OwnFields(override)[k]
    ensures forall k :: k in defaults && k !in OwnFields(override) ==> r[k] == defaults[k]
  {
    defaults + OwnFields(override)
  }

  /** Merging the defaults over an already merged object changes nothing. */
  lemma MergeOverIdempotent(defaults: map<string, Value>, override: Value)
    ensures MergeOver(defaults, Plain(MergeOver(defaults, override))) == MergeOver(defaults, override)
  {
  }

  /**
   * The capability check: a value is taken for a metadata object when its
   * prototype offers `getMap`, whichever loaded copy of the metadata class
   * it comes from. Plain objects, functions, primitives and other objects fail it.
   */
  predicate IsGRPCMetadata(v: Value): (b: bool)
    ensures b ==> Truthy(v) && !v.Plain? && !IsFunction(v)
  {
    v.Meta?
  }

  /** `metadata.get(key)`: the values stored under a key, none when it is absent. */
  function MetaGet(entries: map<string, seq<Value>>, key: string): seq<Value> {
    if key in entries then entries[key] else []
  }

  /**
   * The coercion of a plain key/value mapping into a metadata object: every key
   * holds the one value it was given.
   */
  function Create(m: map<string, Value>): (r: map<string, seq<Value>>)
    ensures r.Keys == m.Keys
    ensures forall k :: k in r ==> r[k] == [m[k]]
  {
    map k | k in m :: [m[k]]
  }

  /**
   * What the pre-built branch produces from a metadata object: a default key is
   * set to its default value exactly where the object holds no value for it;
   * every other entry is kept as it was.
   */
  function FillMissing(entries: map<string, seq<Value>>, defaults: map<string, Value>): (r: map<string, seq<Value>>)
    ensures r.Keys == entries.Keys + defaults.Keys
    ensures forall k :: k in entries && entries[k] != [] ==> r[k] == entries[k]
    ensures forall k :: k in defaults && MetaGet(entries, k) == [] ==> r[k] == [defaults[k]]
    ensures forall k :: k in entries && k !in defaults ==> r[k] == entries[k]
  {
    map k | k in entries.Keys + defaults.Keys ::
      if k in defaults && MetaGet(entries, k) == [] then [defaults[k]] else entries[k]
  }

  /** The metadata object a call is made with, given the defaults and the per-call value. */
  function MergedMetadata(defaults: map<string, Value>, metadata: Value): (r: Value)
    ensures r.Meta?
  {
    if Truthy(metadata) && IsGRPCMetadata(metadata) then Meta(FillMissing(metadata.entries, defaults))
    else Meta(Create(MergeOver(defaults, metadata)))
  }

  /**
   * GRPCCaller.createMetadata. A pre-built metadata object is cloned and the
   * clone is filled key by key; anything else is merged as a plain object and
   * coerced. The caller's own object is a value here and so is never changed.
   */
  method CreateMetadata(defaults: map<string, Value>, metadata: Value) returns (r: Value)
    ensures r == MergedMetadata(defaults, metadata)
  {
    if Truthy(metadata) && IsGRPCMetadata(metadata) {
      var clone := metadata.entries;
      var keys := defaults.Keys;
      while keys != {}
        invariant keys <= defaults.Keys
        invariant forall k :: k in clone <==> k in metadata.entries || (k in defaults && k !in keys)
        invariant forall k :: k in clone ==>
          clone[k] == if k in defaults && k !in keys && MetaGet(metadata.entries, k) == [] then [defaults[k]]
                      else metadata.entries[k]
        decreases keys
      {
        var key :| key in keys;
        if |MetaGet(clone, key)| == 0 {
          clone := clone[key := [defaults[key]]];
        }
        keys := keys - {key};
      }
      assert clone == FillMissing(metadata.entries, defaults);
      r := Meta(clone);
    } else {
      r := Meta(Create(MergeOver(defaults, metadata)));
    }
  }

  /** After either branch every default key holds at least one value. */
  lemma MergedMetadataCoversDefaults(defaults: map<string, Value>, metadata: Value, k: string)
    requires k in defaults
    ensures MetaGet(MergedMetadata(defaults, metadata).entries, k) != []
  {
  }

  /** Filling a metadata object that already holds every default key changes nothing. */
  lemma FillMissingNoop(entries: map<string, seq<Value>>, defaults: map<string, Value>)
    requires forall k :: k in defaults ==> MetaGet(entries, k) != []
    ensures FillMissing(entries, defaults) == entries
  {
    var r := FillMissing(entries, defaults);
    assert r.Keys == entries.Keys;
    forall k | k in r ensures r[k] == entries[k] {
      if k in defaults {
        assert MetaGet(entries, k) != [];
      }
    }
  }

  /**
   * Re-merging merged metadata is a no-op: `exec` merges once and the wrapper
   * it calls merges the result again.
   */
  lemma MergedMetadataIdempotent(defaults: map<string, Value>, metadata: Value)
    ensures MergedMetadata(defaults, MergedMetadata(defaults, metadata)) == MergedMetadata(defaults, metadata)
  {
    var once := MergedMetadata(defaults, metadata);
    forall k | k in defaults ensures MetaGet(once.entries, k) != [] {
      MergedMetadataCoversDefaults(defaults, metadata, k);
    }
    FillMissingNoop(once.entries, defaults);
  }

  /** A plain override wins on a shared key and the defaults fill the rest. */
  lemma PlainOverrideExample()
    ensures MergedMetadata(map["foo" := Str("bar"), "ping" := Str("pong")], Plain(map["foo" := Str("bar2000")]))
         == Meta(map["foo" := [Str("bar2000")], "ping" := [Str("pong")]])
  {
    var merged := MergeOver(map["foo" := Str("bar"), "ping" := Str("pong")], Plain(map["foo" := Str("bar2000")]));
    assert merged == map["foo" := Str("bar2000"), "ping" := Str("pong")];
  }

  /**
   * A pre-built override keeps every key it holds a value for, even one set
   * to the empty string: no default replaces it, and the defaults only add
   * the keys it lacks.
   */
  lemma PrebuiltKeepsExplicitKeys(defaults: map<string, Value>, entries: map<string, seq<Value>>, k: string)
    requires k in entries && entries[k] != []
    ensures k in MergedMetadata(defaults, Meta(entries)).entries
    ensures MergedMetadata(defaults, Meta(entries)).entries[k] == entries[k]
    ensures MergedMetadata(defaults, Meta(entries)).entries.Keys == entries.Keys + defaults.Keys
  {
  }

  /** A pre-built override gains the default keys it lacks. */
  lemma PrebuiltGainsMissingKeys()
    ensures MergedMetadata(map["foo" := Str("bar")], Meta(map["ping" := [Str("master")]]))
         == Meta(map["foo" := [Str("bar")], "ping" := [Str("master")]])
  {
    var e := map["ping" := [Str("master")]];
    var r := FillMissing(e, map["foo" := Str("bar")]);
    assert MetaGet(e, "foo") == [];
    assert r.Keys == {"ping", "foo"};
    assert r["foo"] == [Str("bar")] && r["ping"] == [Str("master")];
    assert r == map["foo" := [Str("bar")], "ping" := [Str("master")]];
  }
}
