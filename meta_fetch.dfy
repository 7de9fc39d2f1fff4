/** `metaFetch`: look a URL up in the local store, serve the record if it has
    not expired, otherwise build a fresh record from the page's `<title>` and
    `<meta>` tags and store it. The HTTP request and the HTML parser are
    replaced by their outcome: a `Page` or a failure. */
module MetaFetch {
  import opened JsValues

  /** One `<meta>` tag; an attribute the tag lacks is `None`. */
  datatype Tag = Tag(name: Option<string>, itemprop: Option<string>, content: Option<string>)

  /** What the parser extracts from a fetched document: the text of `<title>`
      ("" when there is none) and the `<meta>` tags in document order. */
  datatype Page = Page(title: string, tags: seq<Tag>)

  /** The outcome of the request and the parse. */
  datatype Transport = Loaded(page: Page) | Failed

  /** The record `metaFetch` builds, stores and returns. A field is `None`
      when the last tag that set it had no `content` attribute (undefined). */
  datatype Meta = Meta(title: Option<string>, description: Option<string>, image: Option<string>, expiry: int)

  /** The three fields a tag can set. */
  datatype Field = Title | Description | Image

  function FieldName(f: Field): string {
    match f
    case Title => "title"
    case Description => "description"
    case Image => "image"
  }

  function FieldOf(m: Meta, f: Field): Option<string> {
    match f
    case Title => m.title
    case Description => m.description
    case Image => m.image
  }

  /** The store `metaFetch` reads and writes, key to record. */
  type Store = map<string, Meta>

  const KeyPrefix: string := "link-preview-"

  /** The storage key of a URL. */
  function CacheKey(url: string): string {
    KeyPrefix + url
  }

  /** Distinct URLs never share a storage key. */
  lemma CacheKeyInjective(u: string, v: string)
    requires CacheKey(u) == CacheKey(v)
    ensures u == v
  {
    assert u == CacheKey(u)[|KeyPrefix|..];
    assert v == CacheKey(v)[|KeyPrefix|..];
  }

  /** `$(tag).attr("name") ?? $(tag).attr("itemprop")`: the name when the tag
      has one, the itemprop only otherwise, and no key when it has neither. */
  function TagKey(t: Tag): (k: Option<string>)
    ensures t.name.Some? ==> k == t.name
    ensures t.name.None? ==> k == t.itemprop
    ensures k.None? <==> t.name.None? && t.itemprop.None?
  {
    if t.name.Some? then t.name else t.itemprop
  }

  /** One iteration of the tag loop: the `switch` on the tag's key. It never
      changes the expiry. */
  function Apply(m: Meta, t: Tag): (r: Meta)
    ensures r.expiry == m.expiry
  {
    var key := TagKey(t);
    if key == Some("title") then m.(title := t.content)
    else if key == Some("description") then m.(description := t.content)
    else if key == Some("image") then m.(image := t.content)
    else m
  }

  /** The field the tag's key names takes the tag's content; every other
      field keeps its value. */
  lemma ApplySetsNamedField(m: Meta, t: Tag, f: Field)
    ensures FieldOf(Apply(m, t), f) == (if TagKey(t) == Some(FieldName(f)) then t.content else FieldOf(m, f))
  {
  }

  /** The tag loop as a left fold over the tags in document order; no tag
      changes the expiry. */
  function Fold(m: Meta, tags: seq<Tag>): (r: Meta)
    ensures r.expiry == m.expiry
  {
    if |tags| == 0 then m else Apply(Fold(m, tags[..|tags| - 1]), tags[|tags| - 1])
  }

  /** The record before the tag loop: empty fields, the page title, and an
      expiry `ttl` seconds from `now`. */
  function Initial(title: string, now: int, ttl: int): (r: Meta)
    ensures FieldOf(r, Title) == Some(title)
    ensures forall f: Field :: f != Title ==> FieldOf(r, f) == Some("")
    ensures r.expiry == now + ttl
  {
    Meta(Some(title), Some(""), Some(""), now + ttl)
  }

  /** The record built from a fetched page; it expires `ttl` seconds from `now`. */
  function Extract(page: Page, now: int, ttl: int): (r: Meta)
    ensures r.expiry == now + ttl
  {
    Fold(Initial(page.title, now, ttl), page.tags)
  }

  /** The position of the last tag keyed `FieldName(f)`, if any: an
      independent description of which tag the fold lets win. */
  function LastMatch(tags: seq<Tag>, f: Field): (r: Option<nat>)
    ensures r.Some? ==> r.value < |tags| && TagKey(tags[r.value]) == Some(FieldName(f))
    ensures r.Some? ==> forall j :: r.value < j < |tags| ==> TagKey(tags[j]) != Some(FieldName(f))
    ensures r.None? ==> forall j :: 0 <= j < |tags| ==> TagKey(tags[j]) != Some(FieldName(f))
  {
    if |tags| == 0 then None
    else if TagKey(tags[|tags| - 1]) == Some(FieldName(f)) then Some(|tags| - 1)
    else LastMatch(tags[..|tags| - 1], f)
  }

  /** The tag that decides a field: its content, or the starting value when
      no tag is keyed with the field's name. */
  function Winner(start: Meta, tags: seq<Tag>, f: Field): Option<string> {
    match LastMatch(tags, f)
    case None => FieldOf(start, f)
    case Some(i) => tags[i].content
  }

  /** A tag whose key is none of the three names leaves the record unchanged. */
  lemma UnknownKeyIgnored(m: Meta, t: Tag)
    requires forall f: Field :: TagKey(t) != Some(FieldName(f))
    ensures Apply(m, t) == m
  {
    assert TagKey(t) != Some(FieldName(Title));
    assert TagKey(t) != Some(FieldName(Description));
    assert TagKey(t) != Some(FieldName(Image));
  }

  /** Last match wins: each field of the folded record is the content of the
      last tag keyed with its name, or its starting value when there is none;
      the expiry is never touched. */
  lemma {:induction false} FoldLastWins(m: Meta, tags: seq<Tag>, f: Field)
    ensures FieldOf(Fold(m, tags), f) == Winner(m, tags, f)
    ensures Fold(m, tags).expiry == m.expiry
    decreases |tags|
  {
    if |tags| > 0 {
      var init, last := tags[..|tags| - 1], tags[|tags| - 1];
      FoldLastWins(m, init, f);
      if TagKey(last) != Some(FieldName(f)) {
        assert LastMatch(tags, f) == LastMatch(init, f);
        match LastMatch(init, f)
        case None =>
        case Some(i) => assert tags[i] == init[i];
      }
    }
  }

  /** A fresh record: the title is the last `title` tag's content or else the
      page title, description and image are the last matching tag's content
      or else "", and the expiry is `now + ttl`. */
  lemma ExtractFields(page: Page, now: int, ttl: int)
    ensures Extract(page, now, ttl).expiry == now + ttl
    ensures LastMatch(page.tags, Title).None? ==> Extract(page, now, ttl).title == Some(page.title)
    ensures LastMatch(page.tags, Description).None? ==> Extract(page, now, ttl).description == Some("")
    ensures LastMatch(page.tags, Image).None? ==> Extract(page, now, ttl).image == Some("")
    ensures forall f: Field :: LastMatch(page.tags, f).Some? ==>
      FieldOf(Extract(page, now, ttl), f) == page.tags[LastMatch(page.tags, f).value].content
  {
    var start := Initial(page.title, now, ttl);
    FoldLastWins(start, page.tags, Title);
    FoldLastWins(start, page.tags, Description);
    FoldLastWins(start, page.tags, Image);
    forall f: Field | LastMatch(page.tags, f).Some?
      ensures FieldOf(Extract(page, now, ttl), f) == page.tags[LastMatch(page.tags, f).value].content
    {
      FoldLastWins(start, page.tags, f);
    }
  }

  /** Two tags keyed the same way, A before B: B's content is kept. */
  lemma LaterTagOverrides(page: Page, now: int, ttl: int, f: Field, a: nat, b: nat)
    requires a < b < |page.tags|
    requires TagKey(page.tags[a]) == Some(FieldName(f)) && TagKey(page.tags[b]) == Some(FieldName(f))
    requires forall j :: b < j < |page.tags| ==> TagKey(page.tags[j]) != Some(FieldName(f))
    ensures FieldOf(Extract(page, now, ttl), f) == page.tags[b].content
  {
    ExtractFields(page, now, ttl);
    var r := LastMatch(page.tags, f);
    assert r.Some? && r.value == b;
  }

  /** The `for (let tag of metaTags)` loop, overwriting one field per tag. */
  method ExtractMeta(page: Page, now: int, ttl: int) returns (meta: Meta)
    ensures meta == Extract(page, now, ttl)
  {
    meta := Meta(Some(""), Some(""), Some(""), now + ttl);
    meta := meta.(title := Some(page.title));
    for i := 0 to |page.tags|
      invariant meta == Fold(Initial(page.title, now, ttl), page.tags[..i])
    {
      var tag := page.tags[i];
      var name := if tag.name.Some? then tag.name else tag.itemprop;
      if name == Some("title") {
        meta := meta.(title := tag.content);
      } else if name == Some("description") {
        meta := meta.(description := tag.content);
      } else if name == Some("image") {
        meta := meta.(image := tag.content);
      }
      assert page.tags[..i + 1][..i] == page.tags[..i];
    }
    assert page.tags[..|page.tags|] == page.tags;
  }

  /** A record is served from the store when it expires strictly after `now`. */
  predicate Fresh(store: Store, url: string, now: int) {
    CacheKey(url) in store && store[CacheKey(url)].expiry > now
  }

  /** What one call of `metaFetch` does: the value it resolves with (`None`
      for undefined), the store afterwards, and whether it issued a request. */
  datatype Outcome = Outcome(meta: Option<Meta>, store: Store, requested: bool)

  function FetchSpec(store: Store, url: string, now: int, ttl: int, transport: Transport): Outcome {
    var key := CacheKey(url);
    if Fresh(store, url, now) then Outcome(Some(store[key]), store, false)
    else match transport
      case Failed => Outcome(None, store, true)
      case Loaded(page) =>
        var m := Extract(page, now, ttl);
        Outcome(Some(m), store[key := m], true)
  }

  /** Every outcome of a call: a request is made exactly when the stored
      record is not fresh; the result is undefined exactly when that request
      fails; a record served without a request is the stored one, a record
      from a request is the one extracted from the page; and the store either
      stays as it was or gains the returned record under the URL's key. */
  lemma FetchOutcomes(store: Store, url: string, now: int, ttl: int, transport: Transport)
    ensures var r := FetchSpec(store, url, now, ttl, transport);
      && (r.requested <==> !Fresh(store, url, now))
      && (r.meta.None? <==> r.requested && transport.Failed?)
      && (!r.requested ==> r.meta == Some(store[CacheKey(url)]))
      && (r.requested && r.meta.Some? ==> transport.Loaded? && r.meta.value == Extract(transport.page, now, ttl))
      && (r.store == store || (r.meta.Some? && r.store == store[CacheKey(url) := r.meta.value]))
  {
  }

  /** The store is served without a request, and nothing is written, exactly
      when it holds an entry for the URL that expires after `now`; an entry
      whose expiry is `now` or earlier falls through to a request. */
  lemma CacheHitIff(store: Store, url: string, now: int, ttl: int, transport: Transport)
    ensures !FetchSpec(store, url, now, ttl, transport).requested <==> Fresh(store, url, now)
    ensures Fresh(store, url, now) ==>
      FetchSpec(store, url, now, ttl, transport) == Outcome(Some(store[CacheKey(url)]), store, false)
  {
  }

  /** A loaded page yields the extracted record, stored under the URL's key
      and returned as stored; every other key keeps its entry. */
  lemma MissStoresRecord(store: Store, url: string, now: int, ttl: int, page: Page)
    requires !Fresh(store, url, now)
    ensures var o := FetchSpec(store, url, now, ttl, Loaded(page));
      && o.meta == Some(Extract(page, now, ttl))
      && CacheKey(url) in o.store && o.store[CacheKey(url)] == o.meta.value
      && o.store[CacheKey(url)].expiry == now + ttl
      && forall k :: k != CacheKey(url) ==> (k in o.store <==> k in store) && (k in store ==> o.store[k] == store[k])
  {
    ExtractFields(page, now, ttl);
  }

  /** A failed request resolves with undefined and writes nothing. */
  lemma FailureWritesNothing(store: Store, url: string, now: int, ttl: int)
    requires !Fresh(store, url, now)
    ensures FetchSpec(store, url, now, ttl, Failed) == Outcome(None, store, true)
  {
  }

  /** A repeat call before the stored record expires returns the same record
      without a request, whatever the network would have answered. */
  lemma RepeatBeforeExpiry(store: Store, url: string, now: int, ttl: int, page: Page, later: int, again: Transport)
    requires !Fresh(store, url, now)
    requires later < now + ttl
    ensures var first := FetchSpec(store, url, now, ttl, Loaded(page));
      FetchSpec(first.store, url, later, ttl, again) == Outcome(first.meta, first.store, false)
  {
    ExtractFields(page, now, ttl);
  }

  /** Once `ttl` seconds have passed the stored record no longer counts and
      the next call requests the page again; with a ttl of 0 that is every call
      at the same second or later. */
  lemma RefetchAfterExpiry(store: Store, url: string, now: int, ttl: int, page: Page, later: int, again: Transport)
    requires !Fresh(store, url, now)
    requires later >= now + ttl
    ensures var first := FetchSpec(store, url, now, ttl, Loaded(page));
      FetchSpec(first.store, url, later, ttl, again).requested
  {
    ExtractFields(page, now, ttl);
  }

  /** `localStorage`, holding records rather than their JSON text. */
  class LocalStorage {
    var items: Store

    constructor(initial: Store)
      ensures items == initial
    {
      items := initial;
    }
  }
}
