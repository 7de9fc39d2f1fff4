/** The object `linkPreview` returns: its configuration, the preview cards it
    has put into the page, and the timers it has scheduled. The page itself is
    reduced to the set of cards (every element carrying the default class) and
    the browser's timer queue to an explicit list of pending callbacks fired by
    `FireNextTimer`. Times are milliseconds on the `clock` field. */
module Previews {
  import opened JsValues
  import opened Options
  import opened MetaFetch
  import opened Template

  /** A preview card in the page: the record and the anchor height its HTML
      was built from (`LinkPreview.Html` gives that text) and its opacity.
      `id` stands for the element's identity, which a removal timer captures. */
  datatype Card = Card(id: nat, record: Meta, height: JsValue, opacity: int)

  /** A `setTimeout` callback: `displayPreview()` or `preview.remove()`. */
  datatype Action = Display | Remove(card: nat)

  datatype Timer = Timer(due: int, action: Action)

  /** The element a mouseover event targets, reduced to its attributes. */
  datatype Element = Element(attrs: map<string, string>)

  /** The URL `renderPreview` passes to `metaFetch`: the `href` attribute, or
      "null" when it is missing (the key is built with a template literal). */
  function Href(target: Element): (url: string)
    ensures "href" in target.attrs ==> url == target.attrs["href"]
    ensures "href" !in target.attrs ==> url == ToStr(Null)
  {
    if "href" in target.attrs then target.attrs["href"] else "null"
  }

  /** Each card appears once, in the order it was inserted. */
  ghost predicate IdsIncreasing(cards: seq<Card>) {
    forall i, j :: 0 <= i < j < |cards| ==> cards[i].id < cards[j].id
  }

  /** Every card with its opacity set to `o`. */
  function WithOpacity(cards: seq<Card>, o: int): (r: seq<Card>)
    ensures |r| == |cards|
    ensures forall i :: 0 <= i < |r| ==> r[i] == cards[i].(opacity := o)
  {
    seq(|cards|, i requires 0 <= i < |cards| => cards[i].(opacity := o))
  }

  /** Changing opacities keeps the cards and their order. */
  lemma WithOpacityKeepsIds(cards: seq<Card>, o: int)
    requires IdsIncreasing(cards)
    ensures IdsIncreasing(WithOpacity(cards, o))
  {
  }

  /** A card newer than every card in the page goes last. */
  lemma AppendKeepsIds(cards: seq<Card>, card: Card)
    requires IdsIncreasing(cards)
    requires forall i :: 0 <= i < |cards| ==> cards[i].id < card.id
    ensures IdsIncreasing(cards + [card])
  {
  }

  /** The cards left once card `id` is removed from the page; removing a card
      that is already gone changes nothing. */
  function Without(cards: seq<Card>, id: nat): (r: seq<Card>)
    ensures forall c :: c in r <==> c in cards && c.id != id
    ensures IdsIncreasing(cards) ==> IdsIncreasing(r)
    ensures (forall c :: c in cards ==> c.id != id) ==> r == cards
  {
    if |cards| == 0 then []
    else if cards[0].id == id then Without(cards[1..], id)
    else [cards[0]] + Without(cards[1..], id)
  }

  /** One removal timer per card, all due at `due`, in card order. */
  function RemovalTimers(cards: seq<Card>, due: int): (r: seq<Timer>)
    ensures |r| == |cards|
    ensures forall i :: 0 <= i < |r| ==> r[i] == Timer(due, Remove(cards[i].id))
  {
    if |cards| == 0 then []
    else RemovalTimers(cards[..|cards| - 1], due) + [Timer(due, Remove(cards[|cards| - 1].id))]
  }

  /** What one fetch adds to the page: a transparent card showing the
      record, or nothing when the fetch yielded undefined. */
  function NewCards(id: nat, height: JsValue, meta: Option<Meta>): seq<Card> {
    match meta
    case None => []
    case Some(m) => [Card(id, m, height, 0)]
  }

  /** The `displayPreview` timer that goes with a new card. */
  function NewTimers(due: int, meta: Option<Meta>): seq<Timer> {
    match meta
    case None => []
    case Some(_) => [Timer(due, Display)]
  }

  /** Timer `k` fires next: none is due earlier, and of those due at the same
      time it was scheduled first. */
  predicate IsEarliest(timers: seq<Timer>, k: nat) {
    && k < |timers|
    && (forall j :: 0 <= j < |timers| ==> timers[k].due <= timers[j].due)
    && (forall j :: 0 <= j < k ==> timers[j].due > timers[k].due)
  }

  /** The timer the event loop runs next. */
  function Earliest(timers: seq<Timer>): (k: nat)
    requires |timers| > 0
    ensures IsEarliest(timers, k)
  {
    if |timers| == 1 then 0
    else
      var k := Earliest(timers[..|timers| - 1]);
      if timers[|timers| - 1].due < timers[k].due then |timers| - 1 else k
  }

  /** The effect of a timer's callback on the cards: a display keeps their
      number, a removal leaves no card with the removed identity. */
  function Perform(cards: seq<Card>, action: Action): (r: seq<Card>)
    ensures action.Display? ==> |r| == |cards|
    ensures action.Remove? ==> forall c :: c in r ==> c.id != action.card
  {
    match action
    case Display => WithOpacity(cards, 1)
    case Remove(id) => Without(cards, id)
  }

  /** Only a removal timer takes a card out of the page, and only its own
      card: displaying keeps every card, removing keeps every other card. */
  lemma PerformKeepsOtherCards(cards: seq<Card>, action: Action, c: Card)
    requires c in cards
    requires !(action.Remove? && action.card == c.id)
    ensures exists d :: d in Perform(cards, action) && d == c.(opacity := d.opacity)
  {
    match action
    case Display =>
      var i :| 0 <= i < |cards| && cards[i] == c;
      assert Perform(cards, action)[i].id == c.id;
    case Remove(id) =>
      assert c in Perform(cards, action);
  }

  class LinkPreview {
    /** `app.options`, set once by `init`. */
    const config: Config
    /** The `cacheTtl` `metaFetch` closes over, in seconds. */
    const ttl: int
    /** The page's `localStorage`, shared with everything else on the page. */
    const storage: LocalStorage
    /** The preview cards in the page, in the order they were inserted. */
    var cards: seq<Card>
    /** The pending `setTimeout` callbacks, in the order they were scheduled. */
    var timers: seq<Timer>
    /** The current time in milliseconds. */
    var clock: int
    /** The identity the next inserted card gets. */
    var nextId: nat

    ghost predicate Valid()
      reads this
    {
      && IdsIncreasing(cards)
      && (forall i :: 0 <= i < |cards| ==> cards[i].id < nextId)
      && (forall i :: 0 <= i < |timers| ==> timers[i].due >= clock)
    }

    /** `!!app.options.debug` */
    predicate Debug() {
      Truthy(config.debug)
    }

    /** The attribute name `renderPreview` looks for. */
    function SelectorName(): string {
      ToStr(config.selector)
    }

    function InDelay(): nat {
      TimerDelay(config.transitionInDelay)
    }

    function OutDelay(): nat {
      TimerDelay(config.transitionOutDelay)
    }

    /** `linkPreview(options)`: take the cache lifetime with `??`, then `init`. */
    constructor(options: Options, storage: LocalStorage, clock: int)
      ensures Valid()
      ensures config == Init(options) && ttl == TtlSeconds(CacheTtl(options)) && this.storage == storage
      ensures cards == [] && timers == [] && this.clock == clock && nextId == 0
    {
      this.ttl := TtlSeconds(CacheTtl(options));
      this.config := Init(options);
      this.storage := storage;
      this.cards := [];
      this.timers := [];
      this.clock := clock;
      this.nextId := 0;
    }

    /** The HTML text of a card: `getTemplate(bound, metaTags)` of the record
        and height it was built from. It shows the record's image, title and
        description, and starts the card transparent. */
    function Html(card: Card): (html: string)
      ensures IsSubstring(ImageSection(config, card.record), html)
      ensures IsSubstring(TitleSection(config, card.record), html)
      ensures IsSubstring(DescriptionSection(config, card.record), html)
      ensures IsSubstring("opacity: 0;", html)
    {
      TemplateShowsRecord(config, card.height, card.record);
      GetTemplate(config, card.height, card.record)
    }

    /** `metaFetch(url)`, with `now` the current time in seconds. */
    method MetaFetch(url: string, now: int, transport: Transport) returns (r: Option<Meta>)
      modifies storage
      ensures r == FetchSpec(old(storage.items), url, now, ttl, transport).meta
      ensures storage.items == FetchSpec(old(storage.items), url, now, ttl, transport).store
    {
      var key := KeyPrefix + url;
      if key in storage.items {
        var cached := storage.items[key];
        if cached.expiry > now {
          return Some(cached);
        }
      }
      match transport
      case Failed =>
        r := None;
      case Loaded(page) =>
        var meta := ExtractMeta(page, now, ttl);
        storage.items := storage.items[key := meta];
        r := Some(meta);
    }

    /** `displayPreview`: every card in the page becomes fully opaque, including
        cards whose removal is already scheduled; no timer is touched. */
    method DisplayPreview()
      requires Valid()
      modifies this`cards
      ensures Valid()
      ensures cards == WithOpacity(old(cards), 1)
    {
      ghost var before := cards;
      var i := 0;
      while i < |cards|
        invariant 0 <= i <= |cards| == |before|
        invariant forall k :: 0 <= k < i ==> cards[k] == before[k].(opacity := 1)
        invariant forall k :: i <= k < |cards| ==> cards[k] == before[k]
      {
        cards := cards[i := cards[i].(opacity := 1)];
        i := i + 1;
      }
      assert cards == WithOpacity(before, 1);
      WithOpacityKeepsIds(before, 1);
    }

    /** `deletePreviews`: every card in the page becomes transparent and gets
        its own removal timer, due `transitionOutDelay` from now. */
    method DeletePreviews()
      requires Valid()
      modifies this`cards, this`timers
      ensures Valid()
      ensures cards == WithOpacity(old(cards), 0)
      ensures timers == old(timers) + RemovalTimers(old(cards), clock + OutDelay())
    {
      ghost var before, queued := cards, timers;
      var due := clock + OutDelay();
      var i := 0;
      while i < |cards|
        invariant 0 <= i <= |cards| == |before|
        invariant forall k :: 0 <= k < i ==> cards[k] == before[k].(opacity := 0)
        invariant forall k :: i <= k < |cards| ==> cards[k] == before[k]
        invariant timers == queued + RemovalTimers(before[..i], due)
      {
        assert before[..i + 1][..i] == before[..i];
        timers := timers + [Timer(due, Remove(cards[i].id))];
        cards := cards[i := cards[i].(opacity := 0)];
        i := i + 1;
      }
      assert before[..|cards|] == before;
      assert cards == WithOpacity(before, 0);
      WithOpacityKeepsIds(before, 0);
      assert forall k :: 0 <= k < |timers| ==> timers[k].due >= clock;
    }

    /** `destroyRender`, the mouseout handler: nothing in debug mode, otherwise
        `deletePreviews`. */
    method DestroyRender()
      requires Valid()
      modifies this`cards, this`timers
      ensures Valid()
      ensures Debug() ==> cards == old(cards) && timers == old(timers)
      ensures !Debug() ==> cards == WithOpacity(old(cards), 0)
      ensures !Debug() ==> timers == old(timers) + RemovalTimers(old(cards), clock + OutDelay())
    {
      if Debug() {
        return;
      }
      DeletePreviews();
    }

    /** The asynchronous body of `renderPreview`: fetch the record and, if
        there is one, append a card showing it at opacity 0 and schedule
        `displayPreview` `transitionInDelay` later. `height` is the anchor's
        height when the mouse entered. When `metaFetch` resolves with
        undefined, building the template throws and nothing is inserted.
        `meta` is the value the fetch resolved with. */
    method FetchAndInsert(url: string, height: JsValue, now: int, transport: Transport) returns (meta: Option<Meta>)
      requires Valid()
      modifies this`cards, this`timers, this`nextId, storage
      ensures Valid()
      ensures meta == FetchSpec(old(storage.items), url, now, ttl, transport).meta
      ensures storage.items == FetchSpec(old(storage.items), url, now, ttl, transport).store
      ensures cards == old(cards) + NewCards(old(nextId), height, meta)
      ensures timers == old(timers) + NewTimers(clock + InDelay(), meta)
      ensures nextId == old(nextId) + |NewCards(old(nextId), height, meta)|
    {
      meta := MetaFetch(url, now, transport);
      if meta.Some? {
        InsertCard(meta.value, height);
      }
    }

    /** `insertAdjacentHTML` of the template built from `record` and `height`,
        followed by the `setTimeout` of `displayPreview`: the new card goes
        last, transparent, with a fresh identity, and its display is queued
        `transitionInDelay` from now. */
    method InsertCard(record: Meta, height: JsValue)
      requires Valid()
      modifies this`cards, this`timers, this`nextId
      ensures Valid()
      ensures cards == old(cards) + [Card(old(nextId), record, height, 0)]
      ensures timers == old(timers) + [Timer(clock + InDelay(), Display)]
      ensures nextId == old(nextId) + 1
    {
      var card := Card(nextId, record, height, 0);
      AppendKeepsIds(cards, card);
      cards := cards + [card];
      nextId := nextId + 1;
      timers := timers + [Timer(clock + InDelay(), Display)];
    }

    /** `renderPreview`, the mouseover handler, with the fetch completing before
        anything else happens. A target without the selector attribute is
        ignored and nothing is fetched; otherwise debug mode first deletes
        every card, and then the fetch-and-insert body runs with the anchor's
        height at entry time. `meta` is the value the fetch resolved with. */
    method RenderPreview(target: Element, height: JsValue, now: int, transport: Transport) returns (meta: Option<Meta>)
      requires Valid()
      modifies this`cards, this`timers, this`nextId, storage
      ensures Valid()
      ensures SelectorName() !in target.attrs ==>
        && meta.None? && cards == old(cards) && timers == old(timers) && nextId == old(nextId)
        && storage.items == old(storage.items)
      ensures SelectorName() in target.attrs ==>
        && meta == FetchSpec(old(storage.items), Href(target), now, ttl, transport).meta
        && storage.items == FetchSpec(old(storage.items), Href(target), now, ttl, transport).store
        && nextId == old(nextId) + |NewCards(old(nextId), height, meta)|
      ensures SelectorName() in target.attrs && !Debug() ==>
        && cards == old(cards) + NewCards(old(nextId), height, meta)
        && timers == old(timers) + NewTimers(clock + InDelay(), meta)
      ensures SelectorName() in target.attrs && Debug() ==>
        && cards == WithOpacity(old(cards), 0) + NewCards(old(nextId), height, meta)
        && timers == old(timers) + RemovalTimers(old(cards), clock + OutDelay()) + NewTimers(clock + InDelay(), meta)
    {
      if SelectorName() !in target.attrs {
        return None;
      }
      if Debug() {
        ghost var before, pending, id := cards, timers, nextId;
        ghost var inDue, outDue := clock + InDelay(), clock + OutDelay();
        DeletePreviews();
        ghost var faded, queued := cards, timers;
        assert faded == WithOpacity(before, 0);
        assert queued == pending + RemovalTimers(before, outDue);
        meta := FetchAndInsert(Href(target), height, now, transport);
        assert clock + InDelay() == inDue && clock + OutDelay() == outDue;
        assert cards == faded + NewCards(id, height, meta);
        assert timers == queued + NewTimers(inDue, meta);
      } else {
        meta := FetchAndInsert(Href(target), height, now, transport);
      }
    }

    /** The event loop runs the next due timer: the clock moves to its due
        time, it leaves the queue, and its callback acts on the cards. With no
        timer pending nothing happens. */
    method FireNextTimer() returns (fired: Option<Timer>)
      requires Valid()
      modifies this`cards, this`timers, this`clock
      ensures Valid()
      ensures old(timers) == [] ==> fired.None? && cards == old(cards) && timers == [] && clock == old(clock)
      ensures old(timers) != [] ==>
        var k := Earliest(old(timers));
        && fired == Some(old(timers)[k])
        && timers == old(timers)[..k] + old(timers)[k + 1..]
        && clock == old(timers)[k].due
        && cards == Perform(old(cards), old(timers)[k].action)
    {
      if timers == [] {
        return None;
      }
      var k := Earliest(timers);
      var t := timers[k];
      timers := timers[..k] + timers[k + 1..];
      clock := t.due;
      fired := Some(t);
      match t.action
      case Display =>
        DisplayPreview();
      case Remove(id) =>
        cards := Without(cards, id);
    }

    /** Time passes up to `until` with no timer due before it. */
    method AdvanceClock(until: int)
      requires Valid()
      requires clock <= until
      requires forall i :: 0 <= i < |timers| ==> timers[i].due >= until
      modifies this`clock
      ensures Valid()
      ensures clock == until
    {
      clock := until;
    }
  }
}
