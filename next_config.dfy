/**
 * `mergeConfig` of next.config.mjs: the optional user configuration is
 * merged one level deep, in place, into the base Next.js configuration.
 *
 * JavaScript values are the datatype Value. A configuration object is a
 * map from property names to values; `for...in` and object spread both see
 * the own enumerable properties of a value, which OwnEntries gives.
 */
module NextConfig {

  /** The JavaScript values a configuration can hold; a function is known by its name only. */
  datatype Value =
    | Undefined
    | Null
    | Bool(b: bool)
    | Num(n: real)
    | Str(s: string)
    | Fn(name: string)
    | Arr(items: seq<Value>)
    | Obj(fields: map<string, Value>)

  /** The `typeof` operator; note that `typeof null` is "object". */
  function TypeOf(v: Value): string
  {
    match v
    case Undefined => "undefined"
    case Null => "object"
    case Bool(_) => "boolean"
    case Num(_) => "number"
    case Str(_) => "string"
    case Fn(_) => "function"
    case Arr(_) => "object"
    case Obj(_) => "object"
  }

  /** JavaScript truthiness: `undefined`, `null`, `false`, `0` and `""` are falsy. */
  predicate Truthy(v: Value)
  {
    match v
    case Undefined => false
    case Null => false
    case Bool(b) => b
    case Num(n) => n != 0.0
    case Str(s) => s != ""
    case _ => true
  }

  /** The decimal digit `d` as a character. */
  function DigitChar(d: nat): (c: char)
    requires d < 10
    ensures '0' <= c <= '9'
  {
    "0123456789"[d]
  }

  /** The property name of array or string index `n`: its decimal numeral. */
  function IndexKey(n: nat): (k: string)
    ensures |k| >= 1 && forall i :: 0 <= i < |k| ==> '0' <= k[i] <= '9'
  {
    if n < 10 then [DigitChar(n)] else IndexKey(n / 10) + [DigitChar(n % 10)]
  }

  /** The index properties of the first `n` elements: "0", "1", ... up to index n - 1. */
  function IndexEntries(items: seq<Value>, n: nat): map<string, Value>
    requires n <= |items|
  {
    if n == 0 then map[] else IndexEntries(items, n - 1)[IndexKey(n - 1) := items[n - 1]]
  }

  /** The numerals of the indices below `n`. */
  function IndexKeys(n: nat): set<string>
  {
    if n == 0 then {} else IndexKeys(n - 1) + {IndexKey(n - 1)}
  }

  /** The index properties of a sequence are exactly the numerals of its indices. */
  lemma {:induction false} IndexEntriesKeys(items: seq<Value>, n: nat)
    requires n <= |items|
    ensures IndexEntries(items, n).Keys == IndexKeys(n)
  {
    if n > 0 {
      IndexEntriesKeys(items, n - 1);
    }
  }

  /** Each index below `n` is a property. */
  lemma {:induction false} IndexKeysComplete(n: nat, i: nat)
    requires i < n
    ensures IndexKey(i) in IndexKeys(n)
  {
    if i < n - 1 {
      IndexKeysComplete(n - 1, i);
    }
  }

  /**
   * `for...in` over an array or a string user configuration visits exactly
   * the numerals of its indices, each index below the length included.
   */
  lemma {:induction false} IndexedValueKeys(v: Value, i: nat)
    requires v.Arr? || v.Str?
    ensures v.Arr? ==> OwnEntries(v).Keys == IndexKeys(|v.items|)
    ensures v.Str? ==> OwnEntries(v).Keys == IndexKeys(|v.s|)
    ensures v.Arr? && i < |v.items| ==> IndexKey(i) in OwnEntries(v)
    ensures v.Str? && i < |v.s| ==> IndexKey(i) in OwnEntries(v)
  {
    if v.Arr? {
      IndexEntriesKeys(v.items, |v.items|);
      if i < |v.items| {
        IndexKeysComplete(|v.items|, i);
      }
    } else {
      IndexEntriesKeys(Characters(v.s), |v.s|);
      if i < |v.s| {
        IndexKeysComplete(|v.s|, i);
      }
    }
  }

  /**
   * The own enumerable properties of a value, as `for...in` lists them and
   * object spread copies them: an object's fields, the indices of an array
   * or a string, and none for anything else.
   */
  function OwnEntries(v: Value): map<string, Value>
  {
    match v
    case Obj(fields) => fields
    case Arr(items) => IndexEntries(items, |items|)
    case Str(s) => IndexEntries(Characters(s), |s|)
    case _ => map[]
  }

  /** The one-character strings a string spreads into. */
  function Characters(s: string): (r: seq<Value>)
    ensures |r| == |s|
  {
    seq(|s|, i requires 0 <= i < |s| => Str([s[i]]))
  }

  /** Reading a property of a configuration: a missing one reads as `undefined`. */
  function Lookup(config: map<string, Value>, key: string): Value
  {
    if key in config then config[key] else Undefined
  }

  /** Whether the loop takes the merge branch for a base value: `typeof` "object" and not an array. */
  predicate IsMergeable(v: Value)
  {
    TypeOf(v) == "object" && !v.Arr?
  }

  /** The merge branch takes exactly the plain objects and `null`. */
  lemma MergeableValues(v: Value)
    ensures IsMergeable(v) <==> v.Obj? || v.Null?
  {
  }

  /**
   * The new value of one user key: `{...base, ...user}` when the base value
   * takes the merge branch, otherwise the user value itself.
   */
  function MergeEntry(base: Value, user: Value): (r: Value)
    ensures !IsMergeable(base) ==> r == user
    ensures IsMergeable(base) ==> r.Obj? && r.fields.Keys == OwnEntries(base).Keys + OwnEntries(user).Keys
  {
    if IsMergeable(base) then Obj(OwnEntries(base) + OwnEntries(user)) else user
  }

  /** The configuration after the loop has handled the user keys in `done`. */
  function PartialMerge(base: map<string, Value>, source: map<string, Value>, done: set<string>): map<string, Value>
    requires done <= source.Keys
  {
    map k | k in base.Keys + done ::
      if k in done then MergeEntry(Lookup(base, k), source[k]) else base[k]
  }

  /** A key the loop has not reached yet still reads as in the base. */
  lemma PartialMergeUntouched(base: map<string, Value>, source: map<string, Value>, done: set<string>, key: string)
    requires done <= source.Keys && key !in done
    ensures Lookup(PartialMerge(base, source, done), key) == Lookup(base, key)
  {
  }

  /** Handling one more key updates exactly that key's entry. */
  lemma {:induction false} PartialMergeStep(base: map<string, Value>, source: map<string, Value>, done: set<string>, key: string)
    requires done <= source.Keys && key in source.Keys - done
    ensures PartialMerge(base, source, done)[key := MergeEntry(Lookup(base, key), source[key])]
            == PartialMerge(base, source, done + {key})
  {
    var before := PartialMerge(base, source, done)[key := MergeEntry(Lookup(base, key), source[key])];
    var after := PartialMerge(base, source, done + {key});
    assert before.Keys == after.Keys;
    forall k | k in after
      ensures before[k] == after[k]
    {
    }
  }

  /** The configuration `mergeConfig(base, user)` leaves behind. */
  function Merged(base: map<string, Value>, user: Value): (r: map<string, Value>)
    ensures !Truthy(user) ==> r == base
    ensures base.Keys <= r.Keys
  {
    if !Truthy(user) then base
    else PartialMerge(base, OwnEntries(user), OwnEntries(user).Keys)
  }

  /** The base configuration object that `mergeConfig` updates in place. */
  class Config {
    var entries: map<string, Value>

    constructor (base: map<string, Value>)
      ensures entries == base
    {
      entries := base;
    }

    /**
     * `mergeConfig(this, user)`: nothing happens for a falsy user
     * configuration; otherwise every user key is visited once, in some
     * order, and its entry is merged or replaced.
     */
    method Merge(user: Value)
      modifies this
      ensures entries == Merged(old(entries), user)
    {
      if !Truthy(user) {
        return;
      }
      var source := OwnEntries(user);
      ghost var base := entries;
      var pending := source.Keys;
      while pending != {}
        invariant pending <= source.Keys
        invariant entries == PartialMerge(base, source, source.Keys - pending)
        decreases |pending|
      {
        var key :| key in pending;
        ghost var done := source.Keys - pending;
        PartialMergeUntouched(base, source, done, key);
        var current := Lookup(entries, key);
        if TypeOf(current) == "object" && !current.Arr? {
          entries := entries[key := Obj(OwnEntries(current) + OwnEntries(source[key]))];
        } else {
          entries := entries[key := source[key]];
        }
        PartialMergeStep(base, source, done, key);
        pending := pending - {key};
        assert source.Keys - pending == done + {key};
      }
      assert source.Keys - pending == source.Keys;
    }
  }

  /** The base configuration `nextConfig` the module builds; functions are known by name. */
  function BaseConfig(): (r: map<string, Value>)
    ensures r.Keys == {"eslint", "typescript", "images", "transpilePackages", "webpack",
                       "experimental", "headers", "onDemandEntries"}
  {
    map[
      "eslint" := Obj(map["ignoreDuringBuilds" := Bool(true)]),
      "typescript" := Obj(map["ignoreBuildErrors" := Bool(true)]),
      "images" := Obj(map["unoptimized" := Bool(true)]),
      "transpilePackages" := Arr([Str("three")]),
      "webpack" := Fn("webpack"),
      "experimental" := Obj(map["optimizePackageImports" :=
        Arr([Str("@react-three/fiber"), Str("@react-three/drei"), Str("@react-three/rapier")])]),
      "headers" := Fn("headers"),
      "onDemandEntries" := Obj(map["maxInactiveAge" := Num(3600000.0), "pagesBufferLength" := Num(5.0)])
    ]
  }

  /**
   * Of the base entries, the five option groups are merged with what the
   * user gives; the package list and the two functions are replaced.
   */
  lemma BaseConfigBranches(key: string)
    requires key in BaseConfig()
    ensures IsMergeable(BaseConfig()[key]) <==>
              key in {"eslint", "typescript", "images", "experimental", "onDemandEntries"}
  {
  }

  /**
   * A user configuration that only adds an image option keeps the base's
   * `unoptimized` flag, and a user package list replaces the base's instead
   * of extending it.
   */
  lemma BaseConfigExample()
    ensures var user := Obj(map["images" := Obj(map["domains" := Arr([Str("example.com")])]),
                                "transpilePackages" := Arr([Str("lodash")])]);
            var merged := Merged(BaseConfig(), user);
            && merged["images"] == Obj(map["unoptimized" := Bool(true), "domains" := Arr([Str("example.com")])])
            && merged["transpilePackages"] == Arr([Str("lodash")])
            && merged["eslint"] == BaseConfig()["eslint"]
  {
    var user := Obj(map["images" := Obj(map["domains" := Arr([Str("example.com")])]),
                        "transpilePackages" := Arr([Str("lodash")])]);
    var merged := Merged(BaseConfig(), user);
    assert merged["images"] == Obj(map["unoptimized" := Bool(true)] + map["domains" := Arr([Str("example.com")])]);
  }

  /** A falsy user configuration leaves the base untouched. */
  lemma FalsyUserKeepsBase(base: map<string, Value>, user: Value)
    requires !Truthy(user)
    ensures Merged(base, user) == base
  {
  }

  /**
   * After a merge the configuration has exactly the base keys and the user
   * keys; base keys the user does not name keep their values.
   */
  lemma {:induction false} MergedKeys(base: map<string, Value>, user: Value)
    requires Truthy(user)
    ensures Merged(base, user).Keys == base.Keys + OwnEntries(user).Keys
    ensures forall k :: k in base && k !in OwnEntries(user) ==> Merged(base, user)[k] == base[k]
  {
  }

  /**
   * A user key whose base value is a plain object gets the shallow merge of
   * the two: the user's fields win, and base fields the user leaves out stay.
   */
  lemma {:induction false} ObjectEntriesMerge(base: map<string, Value>, user: Value, key: string)
    requires Truthy(user) && key in OwnEntries(user)
    requires key in base && base[key].Obj?
    ensures Merged(base, user)[key].Obj?
    ensures var merged := Merged(base, user)[key].fields;
            var theirs := OwnEntries(OwnEntries(user)[key]);
            && merged.Keys == base[key].fields.Keys + theirs.Keys
            && (forall f :: f in theirs ==> merged[f] == theirs[f])
            && (forall f :: f in base[key].fields && f !in theirs ==> merged[f] == base[key].fields[f])
  {
  }

  /** A user key whose base value is `null` becomes a fresh object holding the user's own properties. */
  lemma {:induction false} NullEntryBecomesObject(base: map<string, Value>, user: Value, key: string)
    requires Truthy(user) && key in OwnEntries(user)
    requires key in base && base[key] == Null
    ensures Merged(base, user)[key] == Obj(OwnEntries(OwnEntries(user)[key]))
  {
  }

  /**
   * A user key whose base value is absent, an array, a function or a
   * primitive is replaced outright by the user's value.
   */
  lemma {:induction false} OtherEntriesReplaced(base: map<string, Value>, user: Value, key: string)
    requires Truthy(user) && key in OwnEntries(user)
    requires !IsMergeable(Lookup(base, key))
    ensures Merged(base, user)[key] == OwnEntries(user)[key]
  {
  }

  /**
   * Merging the same user configuration again changes nothing, as long as
   * the user sets no key to `null`.
   */
  lemma {:induction false} MergeIdempotent(base: map<string, Value>, user: Value)
    requires forall k :: k in OwnEntries(user) ==> OwnEntries(user)[k] != Null
    ensures Merged(Merged(base, user), user) == Merged(base, user)
  {
    if Truthy(user) {
      var source := OwnEntries(user);
      var once := Merged(base, user);
      var twice := Merged(once, user);
      forall k | k in source
        ensures twice[k] == once[k]
      {
        var b := Lookup(base, k);
        if IsMergeable(b) {
          assert once[k] == Obj(OwnEntries(b) + OwnEntries(source[k]));
          assert OwnEntries(b) + OwnEntries(source[k]) + OwnEntries(source[k])
              == OwnEntries(b) + OwnEntries(source[k]);
        } else {
          assert once[k] == source[k];
          if IsMergeable(source[k]) {
            assert source[k].Obj?;
            assert OwnEntries(source[k]) + OwnEntries(source[k]) == OwnEntries(source[k]);
          }
        }
      }
    }
  }

  /** Without the `null` exclusion idempotence fails: a `null` user value turns into `{}` on the second merge. */
  lemma NullBreaksIdempotence()
    ensures Merged(map[], Obj(map["images" := Null])) == map["images" := Null]
    ensures Merged(Merged(map[], Obj(map["images" := Null])), Obj(map["images" := Null]))
            == map["images" := Obj(map[])]
  {
    var user := Obj(map["images" := Null]);
    var once := Merged(map[], user);
    assert once.Keys == {"images"};
    assert once == map["images" := Null];
    var twice := Merged(once, user);
    assert twice.Keys == {"images"};
  }

  /**
   * The merge is one level deep: a nested object inside a merged entry is
   * replaced by the user's, not merged, so the base's nested fields are lost.
   */
  lemma ShallowOnly()
    ensures var base := map["experimental" := Obj(map["turbo" := Obj(map["a" := Num(1.0)])])];
            var user := Obj(map["experimental" := Obj(map["turbo" := Obj(map["b" := Num(2.0)])])]);
            Merged(base, user)["experimental"] == Obj(map["turbo" := Obj(map["b" := Num(2.0)])])
  {
    var base := map["experimental" := Obj(map["turbo" := Obj(map["a" := Num(1.0)])])];
    var user := Obj(map["experimental" := Obj(map["turbo" := Obj(map["b" := Num(2.0)])])]);
    var merged := Merged(base, user);
    assert merged["experimental"] == Obj(base["experimental"].fields + map["turbo" := Obj(map["b" := Num(2.0)])]);
    assert base["experimental"].fields + map["turbo" := Obj(map["b" := Num(2.0)])]
        == map["turbo" := Obj(map["b" := Num(2.0)])];
  }
}
