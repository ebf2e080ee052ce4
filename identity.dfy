/**
 * The build identity of build/main.js: a (context, variant) pair, its key
 * `"context,variant"`, the facts derived from it (short variant, side,
 * stack), and the process-wide cache that hands out one `BuildInfo`
 * instance per key.
 */
module Identity {
  import opened Wrappers
  import opened Strings

  datatype Context = Client | Server | Renderer | Preload | Electron
  datatype Variant = Development | Production
  datatype Side = Frontend | Backend
  datatype Stack = Web | ElectronStack

  datatype BuildError = InvalidContext(context: string) | InvalidVariant(variant: string)

  const AllContexts: seq<Context> := [Client, Server, Renderer, Preload, Electron]

  function ContextName(c: Context): string {
    match c
    case Client => "client"
    case Server => "server"
    case Renderer => "renderer"
    case Preload => "preload"
    case Electron => "electron"
  }

  function VariantName(v: Variant): string {
    match v
    case Development => "development"
    case Production => "production"
  }

  function SideName(s: Side): string {
    match s
    case Frontend => "frontend"
    case Backend => "backend"
  }

  function StackName(s: Stack): string {
    match s
    case Web => "web"
    case ElectronStack => "electron"
  }

  /** The accepted spellings of a context; anything else is refused by the constructor. */
  function ParseContext(s: string): (r: Option<Context>)
    ensures r.Some? ==> ContextName(r.value) == s
    ensures r.None? ==> forall c :: ContextName(c) != s
  {
    if s == "client" then Some(Client)
    else if s == "server" then Some(Server)
    else if s == "renderer" then Some(Renderer)
    else if s == "preload" then Some(Preload)
    else if s == "electron" then Some(Electron)
    else None
  }

  function ParseVariant(s: string): (r: Option<Variant>)
    ensures r.Some? ==> VariantName(r.value) == s
    ensures r.None? ==> forall v :: VariantName(v) != s
  {
    if s == "development" then Some(Development)
    else if s == "production" then Some(Production)
    else None
  }

  lemma ParseContextName(c: Context)
    ensures ParseContext(ContextName(c)) == Some(c)
  {
  }

  lemma ParseVariantName(v: Variant)
    ensures ParseVariant(VariantName(v)) == Some(v)
  {
  }

  /**
   * The checks of the `BuildInfo` constructor: the context is checked first,
   * then the variant, and the first failing check is the one reported.
   */
  function Validate(context: string, variant: string): (r: Result<(Context, Variant), BuildError>)
    ensures r.Ok? <==> (exists c :: ContextName(c) == context) && (exists v :: VariantName(v) == variant)
    ensures r.Ok? ==> ContextName(r.value.0) == context && VariantName(r.value.1) == variant
    ensures (forall c :: ContextName(c) != context) ==> r == Err(InvalidContext(context))
    ensures (exists c :: ContextName(c) == context) && (forall v :: VariantName(v) != variant) ==>
              r == Err(InvalidVariant(variant))
  {
    match ParseContext(context)
    case None => Err(InvalidContext(context))
    case Some(c) =>
      match ParseVariant(variant)
      case None =>
        assert ContextName(c) == context;
        Err(InvalidVariant(variant))
      case Some(v) =>
        assert ContextName(c) == context && VariantName(v) == variant;
        Ok((c, v))
  }

  /** `${context},${variant}` */
  function KeyOf(context: string, variant: string): string {
    context + "," + variant
  }

  function KeyFor(c: Context, v: Variant): string {
    KeyOf(ContextName(c), VariantName(v))
  }

  /** `shortVariant`: `dev` for development, `prod` for production. */
  function ShortVariant(v: Variant): string {
    match v
    case Development => "dev"
    case Production => "prod"
  }

  /** `side`: client, renderer and preload run in a browser; server and electron in node. */
  function SideOf(c: Context): (s: Side)
    ensures s == Frontend <==> c in {Client, Renderer, Preload}
  {
    match c
    case Client | Renderer | Preload => Frontend
    case Server | Electron => Backend
  }

  /** `stack`: client and server make the web stack; the rest the electron stack. */
  function StackOf(c: Context): (s: Stack)
    ensures s == Web <==> c in {Client, Server}
  {
    match c
    case Client | Server => Web
    case Renderer | Preload | Electron => ElectronStack
  }

  lemma ShortVariantDistinct(v: Variant, w: Variant)
    ensures ShortVariant(v) == ShortVariant(w) <==> v == w
  {
  }

  lemma NamesHaveNoComma(c: Context, v: Variant)
    ensures ',' !in ContextName(c) && ',' !in VariantName(v)
  {
  }

  /** Splitting a key at its commas gives back the context and the variant. */
  lemma {:induction false} SplitKey(c: Context, v: Variant)
    ensures Split(KeyFor(c, v), ',') == [ContextName(c), VariantName(v)]
  {
    NamesHaveNoComma(c, v);
    assert KeyFor(c, v) == ContextName(c) + [','] + VariantName(v);
    SplitAtFirst(ContextName(c), ',', VariantName(v));
    SplitNoSeparator(VariantName(v), ',');
  }

  /** Different identities have different keys, so the cache never confuses two of them. */
  lemma {:induction false} KeyInjective(c: Context, v: Variant, c': Context, v': Variant)
    requires KeyFor(c, v) == KeyFor(c', v')
    ensures c == c' && v == v'
  {
    SplitKey(c, v);
    SplitKey(c', v');
    ParseContextName(c);
    ParseContextName(c');
    ParseVariantName(v);
    ParseVariantName(v');
  }

  /** The key of every identity, ten in all. */
  const AllKeys: set<string> := {
    KeyFor(Client, Development), KeyFor(Client, Production),
    KeyFor(Server, Development), KeyFor(Server, Production),
    KeyFor(Renderer, Development), KeyFor(Renderer, Production),
    KeyFor(Preload, Development), KeyFor(Preload, Production),
    KeyFor(Electron, Development), KeyFor(Electron, Production)
  }

  lemma AllKeysSize()
    ensures |AllKeys| <= 10
  {
  }

  /** One build identity: immutable once made. */
  class BuildInfo {
    const context: Context
    const variant: Variant

    constructor (context: Context, variant: Variant)
      ensures this.context == context && this.variant == variant
    {
      this.context := context;
      this.variant := variant;
    }

    function Key(): string {
      KeyFor(context, variant)
    }
  }

  /**
   * `BuildInfo._cache` with `BuildInfo.get`: a map from key to instance that
   * only ever gains entries, and only for keys that name a valid identity.
   */
  class Registry {
    var cache: map<string, BuildInfo>

    ghost predicate Valid()
      reads this
    {
      forall k :: k in cache ==> cache[k].Key() == k
    }

    constructor ()
      ensures Valid() && cache == map[]
    {
      cache := map[];
    }

    /** `BuildInfo.get(context, variant)` */
    method Get(context: string, variant: string) returns (r: Result<BuildInfo, BuildError>)
      requires Valid()
      modifies this
      ensures Valid()
      ensures KeyOf(context, variant) in old(cache) ==>
                r == Ok(old(cache)[KeyOf(context, variant)]) && cache == old(cache)
      ensures KeyOf(context, variant) !in old(cache) && Validate(context, variant).Err? ==>
                r == Err(Validate(context, variant).error) && cache == old(cache)
      ensures KeyOf(context, variant) !in old(cache) && Validate(context, variant).Ok? ==>
                r.Ok? && fresh(r.value)
                && r.value.context == Validate(context, variant).value.0
                && r.value.variant == Validate(context, variant).value.1
                && cache == old(cache)[KeyOf(context, variant) := r.value]
      ensures r.Ok? ==> r.value.Key() == KeyOf(context, variant)
    {
      var key := KeyOf(context, variant);
      if key in cache {
        return Ok(cache[key]);
      }
      match Validate(context, variant) {
        case Err(e) =>
          return Err(e);
        case Ok(cv) =>
          var info := new BuildInfo(cv.0, cv.1);
          cache := cache[key := info];
          return Ok(info);
      }
    }

    /**
     * `BuildInfo.get(key)`: the single-argument form splits the key at its
     * commas and uses the first two fields; a key without a comma leaves the
     * variant undefined, which the constructor refuses.
     */
    method GetByKey(key: string) returns (r: Result<BuildInfo, BuildError>)
      requires Valid()
      modifies this
      ensures Valid()
      ensures key in old(cache) ==> r == Ok(old(cache)[key]) && cache == old(cache)
      ensures (exists c, v :: KeyFor(c, v) == key) ==> r.Ok? && r.value.Key() == key
      ensures var context := Split(key, ',')[0];
              var variant := if |Split(key, ',')| > 1 then Split(key, ',')[1] else "undefined";
              var k := KeyOf(context, variant);
              && (k in old(cache) ==> r == Ok(old(cache)[k]) && cache == old(cache))
              && (k !in old(cache) && Validate(context, variant).Err? ==>
                    r == Err(Validate(context, variant).error) && cache == old(cache))
              && (k !in old(cache) && Validate(context, variant).Ok? ==>
                    r.Ok? && fresh(r.value)
                    && r.value.context == Validate(context, variant).value.0
                    && r.value.variant == Validate(context, variant).value.1
                    && cache == old(cache)[k := r.value])
    {
      var parts := Split(key, ',');
      var context := parts[0];
      var variant := if |parts| > 1 then parts[1] else "undefined";
      if key in cache {
        KeyFields(key);
      }
      if c, v :| KeyFor(c, v) == key {
        SplitKey(c, v);
        ParseContextName(c);
        ParseVariantName(v);
      }
      r := Get(context, variant);
    }

    /** Only valid identities are cached, so the cache holds at most one entry per (context, variant). */
    lemma CacheBounded()
      requires Valid()
      ensures cache.Keys <= AllKeys
      ensures |cache| <= 10
    {
      forall k | k in cache ensures k in AllKeys {
      }
      AllKeysSize();
      SubsetCardinality(cache.Keys, AllKeys);
    }

    /** A cached key splits back into exactly the context and variant names it was built from. */
    lemma KeyFields(key: string)
      requires Valid() && key in cache
      ensures Split(key, ',') == [ContextName(cache[key].context), VariantName(cache[key].variant)]
      ensures KeyOf(Split(key, ',')[0], Split(key, ',')[1]) == key
    {
      SplitKey(cache[key].context, cache[key].variant);
    }
  }

  lemma SubsetCardinality(a: set<string>, b: set<string>)
    requires a <= b
    ensures |a| <= |b|
  {
    assert b == a + (b - a);
  }
}
