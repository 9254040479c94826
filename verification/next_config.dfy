/**
 * The build configuration: the default settings, the merge of an optional
 * user configuration into them key by key, and the `webpack` hook that
 * stubs native modules out of client bundles and adds a loader rule.
 *
 * Loading the user configuration (a dynamic import tried as ESM, then as
 * CommonJS) is not modelled: the imported module, or `undefined` when
 * neither import succeeds, is a parameter. Values are `Js.Value`s; the
 * `webpack` hook in the default settings is the function value
 * `Fun("webpack")`, and the regular expressions of the loader rule are
 * kept as their source text.
 */
module NextConfig {
  import opened Js

  /** The default settings, before any user configuration. */
  const Defaults: map<string, Value> := map[
    "eslint" := Obj(map["ignoreDuringBuilds" := Bool(true)]),
    "typescript" := Obj(map["ignoreBuildErrors" := Bool(true)]),
    "images" := Obj(map["unoptimized" := Bool(true)]),
    "webpack" := Fun("webpack"),
    "experimental" := Obj(map[
      "webpackBuildWorker" := Bool(true),
      "parallelServerBuildTraces" := Bool(true),
      "parallelServerCompiles" := Bool(true)])]

  // ---------------------------------------------------------------------
  // The merge

  /** `config = userConfig.default || userConfig`, taken only when the import gave something truthy. */
  function UserConfig(userModule: Value): (config: Value)
    ensures !Truthy(userModule) ==> config == Undefined
    ensures Truthy(userModule) && userModule.Obj? && "default" in userModule.fields && Truthy(userModule.fields["default"])
            ==> config == userModule.fields["default"]
    ensures Truthy(userModule) && !(userModule.Obj? && "default" in userModule.fields && Truthy(userModule.fields["default"]))
            ==> config == userModule
  {
    if !Truthy(userModule) then Undefined
    else Or(Get(userModule, "default").value, userModule)
  }

  /** The keys `for (key in config)` visits with their values. */
  function UserEntries(userModule: Value): (m: map<string, Value>)
    ensures !Truthy(userModule) ==> m == map[]
  {
    OwnEnumerable(UserConfig(userModule))
  }

  /** `nextConfig[key]`, `undefined` for a key it lacks. */
  function Current(entries: map<string, Value>, key: string): Value {
    if key in entries then entries[key] else Undefined
  }

  /** The merge test: `typeof v === 'object' && !Array.isArray(v)`, which `null` passes too. */
  predicate MergesInto(v: Value) {
    TypeOf(v) == "object" && !IsArray(v)
  }

  /** The new value of one key: a shallow spread over a mergeable value, the user value otherwise. */
  function MergeValue(current: Value, user: Value): (v: Value)
    ensures MergesInto(current) ==> v.Obj? && v.fields == Spread(current, user)
    ensures !MergesInto(current) ==> v == user
  {
    if MergesInto(current) then Obj(Spread(current, user)) else user
  }

  /** The settings once every user key has been merged in. */
  function Merged(entries: map<string, Value>, user: map<string, Value>): (m: map<string, Value>)
    ensures m.Keys == entries.Keys + user.Keys
    ensures forall k :: k in user ==> m[k] == MergeValue(Current(entries, k), user[k])
    ensures forall k :: k in entries && k !in user ==> m[k] == entries[k]
  {
    map k | k in entries.Keys + user.Keys :: if k in user then MergeValue(Current(entries, k), user[k]) else entries[k]
  }

  /** No user configuration, or one with no keys, leaves the settings as they are. */
  lemma NoUserConfigUnchanged(entries: map<string, Value>, userModule: Value)
    requires !Truthy(userModule)
    ensures Merged(entries, UserEntries(userModule)) == entries
  {
  }

  /** Over an object, the user's fields win and the other fields stay. */
  lemma ObjectKeyMerges(fields: map<string, Value>, user: Value)
    ensures var v := MergeValue(Obj(fields), user);
            v.Obj? && v.fields.Keys == fields.Keys + OwnEnumerable(user).Keys
            && (forall f :: f in OwnEnumerable(user) ==> v.fields[f] == OwnEnumerable(user)[f])
            && (forall f :: f in fields && f !in OwnEnumerable(user) ==> v.fields[f] == fields[f])
  {
  }

  /** A user value of a type that spreads to nothing cannot replace an object: `images: false` leaves `images` as it was. */
  lemma PrimitiveKeepsObject(fields: map<string, Value>, user: Value)
    requires user.Undefined? || user.Null? || user.Bool? || user.Num? || user.Fun?
    ensures MergeValue(Obj(fields), user) == Obj(fields)
  {
  }

  /** Arrays, functions, primitives and missing keys are replaced outright by the user value. */
  lemma OtherKeysReplaced(current: Value, user: Value)
    requires current.Undefined? || current.Arr? || current.Fun? || current.Bool? || current.Num? || current.Str?
    ensures MergeValue(current, user) == user
  {
  }

  /** A user `webpack` function takes the place of the default hook. */
  lemma UserWebpackReplaces(user: map<string, Value>, name: string)
    requires "webpack" in user && user["webpack"] == Fun(name)
    ensures Merged(Defaults, user)["webpack"] == Fun(name)
  {
  }

  /** A module's default export, when truthy, is what gets merged; the module's other exports are ignored. */
  lemma DefaultExportPreferred(exports: map<string, Value>, config: map<string, Value>)
    requires "default" in exports && exports["default"] == Obj(config)
    ensures UserEntries(Obj(exports)) == config
  {
  }

  /** The settings object, which the merge loop updates key by key. */
  class Settings {
    var entries: map<string, Value>

    constructor ()
      ensures entries == Defaults
    {
      entries := Defaults;
    }

    /**
     * `if (userConfig) { for (const key in config) ... }`. `keys` is the
     * order in which `for...in` visits the user configuration's keys: each
     * exactly once.
     */
    method MergeUserConfig(userModule: Value, keys: seq<string>)
      requires forall k :: k in keys <==> k in UserEntries(userModule)
      requires forall i, j :: 0 <= i < j < |keys| ==> keys[i] != keys[j]
      modifies this
      ensures entries == Merged(old(entries), UserEntries(userModule))
    {
      if Truthy(userModule) {
        MergeKeys(UserEntries(userModule), keys);
      }
    }

    /** The loop body for each key in turn. Each key reads and writes only its own entry, so the order does not matter. */
    method MergeKeys(user: map<string, Value>, keys: seq<string>)
      requires forall k :: k in keys <==> k in user
      requires forall i, j :: 0 <= i < j < |keys| ==> keys[i] != keys[j]
      modifies this
      ensures entries == Merged(old(entries), user)
    {
      ghost var start := entries;
      ghost var done: set<string> := {};
      var i := 0;
      while i < |keys|
        invariant 0 <= i <= |keys|
        invariant MergedSoFar(entries, start, user, done)
        invariant forall j :: 0 <= j < i ==> keys[j] in done
        invariant forall j :: i <= j < |keys| ==> keys[j] !in done
      {
        var key := keys[i];
        MergeStep(entries, start, user, done, key);
        entries := entries[key := MergeValue(Current(entries, key), user[key])];
        done := done + {key};
        i := i + 1;
      }
      assert done == user.Keys;
      MergedAll(entries, start, user);
    }
  }

  /** The loop's invariant: the keys in `done` are merged, all others are as they started. */
  ghost predicate MergedSoFar(entries: map<string, Value>, start: map<string, Value>, user: map<string, Value>, done: set<string>) {
    && done <= user.Keys
    && entries.Keys == start.Keys + done
    && (forall k :: k in done ==> entries[k] == MergeValue(Current(start, k), user[k]))
    && (forall k :: k in start && k !in done ==> entries[k] == start[k])
  }

  /** Merging a key not yet visited reads its starting value and keeps the invariant. */
  lemma MergeStep(entries: map<string, Value>, start: map<string, Value>, user: map<string, Value>, done: set<string>, key: string)
    requires MergedSoFar(entries, start, user, done)
    requires key in user && key !in done
    ensures Current(entries, key) == Current(start, key)
    ensures MergedSoFar(entries[key := MergeValue(Current(entries, key), user[key])], start, user, done + {key})
  {
  }

  /** Once every user key is merged, the settings are `Merged`. */
  lemma MergedAll(entries: map<string, Value>, start: map<string, Value>, user: map<string, Value>)
    requires MergedSoFar(entries, start, user, user.Keys)
    ensures entries == Merged(start, user)
  {
  }

  // ---------------------------------------------------------------------
  // The webpack hook

  /** The modules a client bundle must not pull in, each mapped to `false`. */
  const NativeModules: seq<string> := [
    "bcrypt", "node-pre-gyp", "npm", "node-gyp", "mock-aws-s3", "aws-sdk", "fs",
    "child_process", "path", "os", "util", "process", "stream", "zlib", "crypto",
    "@mapbox/node-pre-gyp", "express", "constants", "assert", "buffer"]

  const Stubs: map<string, Value> := map k | k in NativeModules :: Bool(false)

  /** The rule that sends HTML files under `node_modules` to the null loader. */
  const NullLoaderRule: Value := Obj(map[
    "test" := Str("/\\.html$/"),
    "include" := Str("/node_modules/"),
    "use" := Str("null-loader")])

  /** `{...fallback, bcrypt: false, ...}`: every native module stubbed, every other entry kept. */
  function ClientFallback(fallback: Value): (m: map<string, Value>)
    ensures forall i :: 0 <= i < |NativeModules| ==> NativeModules[i] in m && m[NativeModules[i]] == Bool(false)
    ensures forall k :: k in OwnEnumerable(fallback) && k !in NativeModules ==> k in m && m[k] == OwnEnumerable(fallback)[k]
    ensures forall k :: k in m ==> k in NativeModules || k in OwnEnumerable(fallback)
  {
    Spread(fallback, Obj(Stubs))
  }

  /** The parts of webpack's configuration object the hook touches. */
  class WebpackConfig {
    /** `config.resolve.fallback` */
    var fallback: Value
    /** `config.module.rules` */
    var rules: seq<Value>

    constructor (fallback: Value, rules: seq<Value>)
      ensures this.fallback == fallback && this.rules == rules
    {
      this.fallback := fallback;
      this.rules := rules;
    }
  }

  /** The `webpack` hook: stubs the native modules on a client build, adds the loader rule, and hands back the same object. */
  method Webpack(config: WebpackConfig, isServer: bool) returns (r: WebpackConfig)
    modifies config
    ensures r == config
    ensures !isServer ==> config.fallback == Obj(ClientFallback(old(config.fallback)))
    ensures isServer ==> config.fallback == old(config.fallback)
    ensures config.rules == old(config.rules) + [NullLoaderRule]
  {
    if !isServer {
      config.fallback := Obj(Spread(config.fallback, Obj(Stubs)));
    }
    config.rules := config.rules + [NullLoaderRule];
    r := config;
  }

  /** Every call adds a rule: two builds on the same object leave two copies, while the stubs stay as the first call set them. */
  method WebpackTwice(fallback: Value, rules: seq<Value>) returns (fallbackAfter: Value, rulesAfter: seq<Value>)
    ensures fallbackAfter == Obj(ClientFallback(Obj(ClientFallback(fallback))))
    ensures rulesAfter == rules + [NullLoaderRule, NullLoaderRule]
  {
    var config := new WebpackConfig(fallback, rules);
    var r := Webpack(config, false);
    r := Webpack(r, false);
    fallbackAfter := config.fallback;
    rulesAfter := config.rules;
  }

  /** A second client build changes nothing in the fallback. */
  lemma ClientFallbackIdempotent(fallback: Value)
    ensures ClientFallback(Obj(ClientFallback(fallback))) == ClientFallback(fallback)
  {
    OverrideTwice(OwnEnumerable(fallback), Stubs);
  }

  lemma OverrideTwice(a: map<string, Value>, b: map<string, Value>)
    ensures (a + b) + b == a + b
  {
  }
}
