/** The configuration of a link-preview instance: the option object the caller
    passes, the defaults `init` applies with `||`, and the cache lifetime that
    `linkPreview` takes with `??`. */
module Options {
  import opened JsValues

  /** A plain options object; a key that is not present reads as undefined. */
  type Options = map<string, JsValue>

  function Get(opts: Options, key: string): (v: JsValue)
    ensures key in opts ==> v == opts[key]
    ensures key !in opts ==> v == Undefined
  {
    if key in opts then opts[key] else Undefined
  }

  /** The configuration `init` stores; every field holds the JavaScript value
      that `||` produced, whatever its type. */
  datatype Config = Config(
    selector: JsValue,
    defaultClass: JsValue,
    rootClass: JsValue,
    containerClass: JsValue,
    imageClass: JsValue,
    contentClass: JsValue,
    titleClass: JsValue,
    descriptionClass: JsValue,
    zIndex: JsValue,
    transitionInDelay: JsValue,
    transitionOutDelay: JsValue,
    debug: JsValue)

  /** The option names `init` reads, in the order it reads them. */
  const Keys: seq<string> := [
    "selector", "defaultClass", "rootClass", "containerClass", "imageClass",
    "contentClass", "titleClass", "descriptionClass", "zIndex",
    "transitionInDelay", "transitionOutDelay", "debug"]

  /** The default `init` falls back to for each option name. */
  function Default(key: string): JsValue {
    if key == "selector" then Str("data-tb-link-preview")
    else if key == "defaultClass" then Str("__lp-preview")
    else if key == "rootClass" then Str("pt-1 text-slate-600 transition w-[280px] duration-300")
    else if key == "containerClass" then Str("bg-white rounded border overflow-hidden")
    else if key == "imageClass" then Str("h-[140px] w-full object-cover")
    else if key == "contentClass" then Str("px-4 py-2")
    else if key == "titleClass" then Str("line-clamp-1 font-semibold mb-2")
    else if key == "descriptionClass" then Str("line-clamp-2 leading-tight")
    else if key == "zIndex" then Num(100)
    else if key == "transitionInDelay" then Num(50)
    else if key == "transitionOutDelay" then Num(350)
    else Bool(false)
  }

  /** The configuration field that holds option `key`. */
  function Field(c: Config, key: string): JsValue {
    if key == "selector" then c.selector
    else if key == "defaultClass" then c.defaultClass
    else if key == "rootClass" then c.rootClass
    else if key == "containerClass" then c.containerClass
    else if key == "imageClass" then c.imageClass
    else if key == "contentClass" then c.contentClass
    else if key == "titleClass" then c.titleClass
    else if key == "descriptionClass" then c.descriptionClass
    else if key == "zIndex" then c.zIndex
    else if key == "transitionInDelay" then c.transitionInDelay
    else if key == "transitionOutDelay" then c.transitionOutDelay
    else c.debug
  }

  /** `init`: every option is replaced by its default whenever it is falsy.
      Every field but `debug` is therefore truthy, and `debug` is truthy
      exactly when the supplied flag is. */
  function Init(opts: Options): (c: Config)
    ensures forall i :: 0 <= i < |Keys| - 1 ==> Truthy(Field(c, Keys[i]))
    ensures Truthy(c.debug) <==> Truthy(Get(opts, "debug"))
  {
    Config(
      selector := Or(Get(opts, "selector"), Default("selector")),
      defaultClass := Or(Get(opts, "defaultClass"), Default("defaultClass")),
      rootClass := Or(Get(opts, "rootClass"), Default("rootClass")),
      containerClass := Or(Get(opts, "containerClass"), Default("containerClass")),
      imageClass := Or(Get(opts, "imageClass"), Default("imageClass")),
      contentClass := Or(Get(opts, "contentClass"), Default("contentClass")),
      titleClass := Or(Get(opts, "titleClass"), Default("titleClass")),
      descriptionClass := Or(Get(opts, "descriptionClass"), Default("descriptionClass")),
      zIndex := Or(Get(opts, "zIndex"), Default("zIndex")),
      transitionInDelay := Or(Get(opts, "transitionInDelay"), Default("transitionInDelay")),
      transitionOutDelay := Or(Get(opts, "transitionOutDelay"), Default("transitionOutDelay")),
      debug := Or(Get(opts, "debug"), Default("debug")))
  }

  /** Each option keeps the supplied value when it is truthy and takes its
      default otherwise; a missing option takes its default. */
  lemma InitFallsBackOnFalsy(opts: Options, key: string)
    requires key in Keys
    ensures Truthy(Get(opts, key)) ==> Field(Init(opts), key) == Get(opts, key)
    ensures !Truthy(Get(opts, key)) ==> Field(Init(opts), key) == Default(key)
    ensures key !in opts ==> Field(Init(opts), key) == Default(key)
  {
  }

  /** A zero z-index or transition-in delay is replaced: `||` treats 0 as missing. */
  lemma ZeroOptionsFallBack(opts: Options)
    requires Get(opts, "zIndex") == Num(0) && Get(opts, "transitionInDelay") == Num(0)
    ensures Init(opts).zIndex == Num(100)
    ensures Init(opts).transitionInDelay == Num(50)
  {
  }

  /** The default cache lifetime, in seconds. */
  const DefaultCacheTtl := 30 * 60

  /** `options.cacheTtl ?? 30 * 60`: only undefined and null are replaced. */
  function CacheTtl(opts: Options): (ttl: JsValue)
    ensures !Nullish(ttl)
    ensures Nullish(Get(opts, "cacheTtl")) ==> ttl == Num(1800)
    ensures !Nullish(Get(opts, "cacheTtl")) ==> ttl == Get(opts, "cacheTtl")
  {
    Coalesce(Get(opts, "cacheTtl"), Num(DefaultCacheTtl))
  }

  /** An explicit cacheTtl of 0 is kept, unlike the options `init` defaults. */
  lemma ZeroCacheTtlKept(opts: Options)
    requires Get(opts, "cacheTtl") == Num(0)
    ensures CacheTtl(opts) == Num(0)
    ensures Or(Get(opts, "cacheTtl"), Num(DefaultCacheTtl)) == Num(1800)
  {
  }

  /** The number of seconds `now + cacheTtl` adds. Booleans count as 1 and 0;
      NaN, strings and objects count as 0. */
  function TtlSeconds(ttl: JsValue): (secs: int)
    ensures ttl.Num? ==> secs == ttl.n
    ensures !Truthy(ttl) ==> secs == 0
  {
    match ttl
    case Num(n) => n
    case Bool(b) => if b then 1 else 0
    case _ => 0
  }
}
