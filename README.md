# link-preview, modelled in Dafny

`linkPreview(options)` attaches hover previews to the links of a page. When
the mouse enters a link that carries the selector attribute, the library
fetches the linked page and reads its `<title>` and its `title`,
`description` and `image` `<meta>` tags. It caches the resulting record in
`localStorage` for `cacheTtl` seconds, inserts a transparent card showing the
record, and fades the card in after `transitionInDelay` ms. When the mouse
leaves, every card fades out and is removed `transitionOutDelay` ms later,
unless debug mode is on.

The model has five modules.

- `JsValues` (`js_values.dfy`) covers the JavaScript values the options may
  hold. It defines truthiness for `||`, nullishness for `??`, the string
  conversion a template literal applies, and the number conversion
  `setTimeout` applies to its delay.
- `Options` (`options.dfy`) models `init`'s defaulting with `||` and
  `cacheTtl`'s defaulting with `??`.
- `MetaFetch` (`meta_fetch.dfy`) models `metaFetch`. The cache is a map from
  key to record, and the current time in seconds is a parameter. The HTTP
  request and the HTML parser are replaced by their outcome: a `Page` (the
  title text plus the `<meta>` tags in document order) or `Failed`.
  - `FetchSpec` specifies one call.
  - The tag loop is the method `ExtractMeta`, proved equal to a left fold.
  - The fold is proved "last matching tag wins" against `LastMatch`, an
    independent definition.
- `Template` (`template.dfy`) models `getTemplate`, the card's HTML text,
  piece by piece.
- `Previews` (`previews.dfy`) holds the class `LinkPreview`, the object
  `linkPreview` returns. Its state is the cards in the page (each with an
  identity, the record and anchor height its HTML is built from, and its
  opacity), the pending `setTimeout` callbacks, a
  millisecond clock and the shared `LocalStorage`. `FireNextTimer` plays the
  event loop: it runs the earliest pending callback.

`scenarios.dfy` holds clients that replay hover sequences against the
contracts alone. In one, a hover inside the cache lifetime is served while
offline. In another, debug mode's second hover shows the fading card again
until its removal fires.

## Model

| member | source | states |
|---|---|---|
| `JsValues.FalsyValues` | src/index.js:95-110 | the values logical or replaces are exactly undefined, null, false, 0, NaN and "" |
| `JsValues.OrCoalesceDiffer` | src/index.js:6 | logical or and `??` with the same default disagree exactly on a falsy, non-nullish value other than the default |
| `JsValues.NatToString` | src/index.js:158 | a natural number's decimal text is a non-empty run of decimal digits |
| `JsValues.DigitsRoundTrip` | src/index.js:224 | decimal text read back as a number gives the number it was written from |
| `JsValues.TimerDelayOfDecimal` | src/index.js:212 | a delay option given as decimal text waits that many milliseconds |
| `JsValues.Truthy` | src/index.js:95-110 | ECMAScript ToBoolean as a definition; `FalsyValues` states exactly which values it rejects |
| `JsValues.OrPicksOperand` | src/index.js:95-110 | `Or`, the logical or of `init`, yields one of its operands and is truthy exactly when either operand is |
| `JsValues.Coalesce` | src/index.js:6 | `??` yields one of its operands and is nullish only when both are |
| `JsValues.ToStr` | src/index.js:155-173 | a template literal shows a string as itself, anything but a string as non-empty text, and a natural number as decimal digits that read back as the number |
| `JsValues.TimerDelay` | src/index.js:212 | `setTimeout` waits 0 ms for a falsy delay and n ms for a natural number n |
| `Options.Get` | src/index.js:95 | a supplied option reads as its value, and one that is not supplied reads as undefined |
| `Options.Init` | src/index.js:93-111 | every configured value except `debug` is truthy; `debug` is truthy exactly when the supplied flag is |
| `Options.InitFallsBackOnFalsy` | src/index.js:94-111 | each option keeps a truthy supplied value; a falsy or missing one takes its default |
| `Options.ZeroOptionsFallBack` | src/index.js:107-108 | a zero `zIndex` becomes 100 and a zero `transitionInDelay` becomes 50 |
| `Options.CacheTtl` | src/index.js:6 | the lifetime is never nullish; it is 1800 when the option is undefined or null, and the supplied value otherwise |
| `Options.TtlSeconds` | src/index.js:22 | the seconds `now + cacheTtl` adds: a number adds itself, a falsy value adds nothing |
| `Options.ZeroCacheTtlKept` | src/index.js:6 | an explicit `cacheTtl` of 0 is kept, where logical or would have given 1800 |
| `MetaFetch.CacheKeyInjective` | src/index.js:25 | two URLs with the same storage key are the same URL |
| `MetaFetch.LastMatch` | src/index.js:39-59 | the index returned is the last tag keyed with the field's name; no tag has that key when there is none |
| `MetaFetch.UnknownKeyIgnored` | src/index.js:56-57 | a tag keyed with none of the three names leaves the record unchanged |
| `MetaFetch.FoldLastWins` | src/index.js:39-59 | after the tag loop each field holds the content of the last tag keyed with its name, or its starting value; the expiry is untouched |
| `MetaFetch.ExtractFields` | src/index.js:18-59 | a fresh record expires at `now + cacheTtl`; its title falls back to the page title and description and image to "" when no tag names them; otherwise each holds the last matching tag's content |
| `MetaFetch.LaterTagOverrides` | src/index.js:39-59 | of two tags with the same key, the later one's content is kept |
| `MetaFetch.ExtractMeta` | src/index.js:18-59 | the field-by-field loop builds exactly the left fold of the tags over the initial record |
| `MetaFetch.TagKey` | src/index.js:40 | a tag's key is its name when it has one, its itemprop only otherwise, and absent when it has neither |
| `MetaFetch.Apply` | src/index.js:43-58 | one pass of the `switch` never changes the expiry |
| `MetaFetch.ApplySetsNamedField` | src/index.js:43-58 | the field the tag's key names takes the tag's content; every other field keeps its value |
| `MetaFetch.Fold` | src/index.js:39-59 | the tag loop as a left fold; it never changes the expiry (`FoldLastWins` states each field) |
| `MetaFetch.Initial` | src/index.js:18-23 | before the loop the title is the page title, description and image are "", and the expiry is `now + cacheTtl` |
| `MetaFetch.Extract` | src/index.js:18-59 | the record of a fetched page expires at `now + cacheTtl` (`ExtractFields` states each field) |
| `MetaFetch.Fresh` | src/index.js:25-28 | a stored record is served when it exists and expires strictly after `now`, as a definition; `CacheHitIff` states it is the exact hit condition |
| `MetaFetch.FetchSpec` | src/index.js:15-67 | one call of `metaFetch` as a definition; `FetchOutcomes` and the lemmas below state its properties |
| `MetaFetch.FetchOutcomes` | src/index.js:15-67 | a request is made exactly when the stored record is not fresh; the result is undefined exactly when that request fails; a served record is the stored one or the extracted one; the store is unchanged or gains the returned record under the URL's key |
| `MetaFetch.CacheHitIff` | src/index.js:25-31 | no request is made exactly when the stored record expires strictly after `now`; that record is then returned and the store is untouched |
| `MetaFetch.MissStoresRecord` | src/index.js:61-63 | a loaded page's record is stored under the URL's key, expires at `now + cacheTtl` and is returned as stored; other keys are unchanged |
| `MetaFetch.FailureWritesNothing` | src/index.js:64-66 | a failed request resolves with undefined and leaves the store unchanged |
| `MetaFetch.RepeatBeforeExpiry` | src/index.js:25-63 | a second call before the stored record expires returns the same record without a request, whatever the network answers |
| `MetaFetch.RefetchAfterExpiry` | src/index.js:22-31 | once `cacheTtl` seconds have passed, the next call requests the page again |
| `Template.GetTemplate` | src/index.js:139-176 | the card's HTML text is never empty |
| `Template.TemplateShowsRecord` | src/index.js:153-175 | the card's HTML contains the image, title and description sections and the styles `opacity: 0;` and the configured `z-index` |
| `Previews.WithOpacity` | src/index.js:184-186 | setting opacity keeps every card, its identity, the record and height its HTML shows, and their order, and gives each the new opacity |
| `Previews.Without` | src/index.js:224 | removing a card keeps exactly the other cards, in order; removing a card already gone changes nothing |
| `Previews.RemovalTimers` | src/index.js:222-225 | one removal per card, in card order, each for its own card and all due at the same time |
| `Previews.Earliest` | src/index.js:212 | the callback run next is due no later than any other, and was scheduled first among those due at the same time |
| `Previews.Href` | src/index.js:207 | the URL is the `href` attribute, or the text of null when there is none |
| `Previews.Perform` | src/index.js:212-224 | a display keeps the number of cards; a removal leaves no card with the removed identity |
| `Previews.PerformKeepsOtherCards` | src/index.js:224 | a callback removes no card other than the one its removal names |
| `Previews.LinkPreview.constructor` | src/index.js:244 | the configuration is `init`'s result, the lifetime is the `??` default, and no card or timer exists yet |
| `Previews.LinkPreview.MetaFetch` | src/index.js:15-67 | the result and the new store are those `FetchSpec` describes |
| `Previews.LinkPreview.DisplayPreview` | src/index.js:181-187 | every card becomes opaque, including those already fading out; no timer changes |
| `Previews.LinkPreview.DeletePreviews` | src/index.js:219-226 | every card becomes transparent, and one removal per card is queued, due `transitionOutDelay` from now |
| `Previews.LinkPreview.DestroyRender` | src/index.js:232-238 | in debug mode nothing changes; otherwise the effect of `deletePreviews` |
| `Previews.LinkPreview.Html` | src/index.js:207-210 | the text inserted for a card shows the image, title and description of the record it was built from, and starts transparent |
| `Previews.LinkPreview.InsertCard` | src/index.js:207-211 | the card built from the record and height goes last, transparent, with a fresh identity, and its display is queued `transitionInDelay` from now |
| `Previews.LinkPreview.FetchAndInsert` | src/index.js:205-216 | the store is updated as `metaFetch` does; when it yields a record, a transparent card built from it is appended and a display is queued `transitionInDelay` from now; otherwise nothing is inserted |
| `Previews.LinkPreview.RenderPreview` | src/index.js:193-217 | a target without the selector attribute changes nothing; in debug mode every card is deleted before the fetch and insert, otherwise the cards present are kept |
| `Previews.LinkPreview.FireNextTimer` | src/index.js:212 | the earliest pending callback leaves the queue, the clock moves to its due time, and its effect on the cards is applied |
| `Previews.LinkPreview.AdvanceClock` | src/index.js:224 | time passes with no callback due in between |

## Left out

- The HTTP request (`axios.get`) and the HTML parser (`cheerio`) are replaced by the `Transport` parameter. A missing `<title>` is the empty title.
- `localStorage` holds records, not their JSON text. `JSON.stringify` drops fields whose content was undefined, and reading such a field back gives undefined again, so the model keeps `None` for it. A corrupt entry that `JSON.parse` rejects is not modelled.
- The clock: `new Date().getTime() / 1000` is fractional seconds. The model takes whole seconds as the parameter `now`, and timers use a whole-millisecond `clock`. The two are independent parameters; nothing ties `now` to `clock`.
- Fractional numbers, -0, Infinity and numbers written in exponent form are not modelled; `Num` holds integers.
- Options.TtlSeconds: a string `cacheTtl` makes `now + cacheTtl` a string concatenation that `>` later converts back to a number; the model counts it as 0 seconds. NaN and objects count as 0 too.
- JsValues.TimerDelay: a string delay is converted only when it is plain decimal digits; any other text counts as 0. The 32-bit wrap-around of very large delays in `setTimeout` is not modelled.
- `getAttribute` lower-casing of attribute names and attribute values other than strings are not modelled; the target is reduced to its attribute map, and a missing `href` becomes the URL "null".
- Arrays and functions given as option values are all `Obj`: the model converts them to "[object Object]" and to a delay of 0. JavaScript converts an array through its elements, so `${[5]}` is "5" and a delay of `[5]` waits 5 ms.
- Card order: `querySelectorAll` returns the cards in document order, but the model keeps them in the order they were inserted. Cards in different anchors can therefore be ordered differently from the page, and so can the removal timers `deletePreviews` queues for them at the same due time.
- A card keeps the record and the height its HTML was built from rather than the HTML text itself; `LinkPreview.Html` gives that text, so two cards with the same inputs have the same text.
- `getBoundingClientRect` is reduced to the `height` value interpolated into the style.
- Previews.LinkPreview.RenderPreview: the asynchronous body runs to completion before any other event. A mouseout or another hover while a fetch is pending is not modelled, so neither is a card inserted after its mouseout, which no removal ever reaches.
- `querySelectorAll`, `listen` and the `this` binding of the event handlers are not modelled; the handlers are called directly. The cards are every element with the default class, taken as the cards this instance inserted.
- `anchor.style.position = "relative"`, the CSS import and `console.error` have no effect the model observes.
- `linkPreview` called with `null` options throws a TypeError; the model always has an options map.
