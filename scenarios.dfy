/** Clients of the model that replay hover sequences and check, from the
    contracts alone, what the page shows at each step. */
module Scenarios {
  import opened JsValues
  import opened Options
  import opened MetaFetch
  import opened Previews
  import opened Template

  /** A link carrying the default selector attribute. */
  function LinkTo(url: string): Element {
    Element(map["data-tb-link-preview" := "", "href" := url])
  }

  /** With no options: the default attribute, no debug mode, 50 ms in,
      350 ms out and a cache lifetime of 1800 s. */
  method FirstHover() {
    var storage := new LocalStorage(map[]);
    var app := new LinkPreview(map[], storage, 0);
    assert app.SelectorName() == "data-tb-link-preview" && !app.Debug();
    assert app.InDelay() == 50 && app.OutDelay() == 350 && app.ttl == 1800;
    var one := FirstRender(app);
    LeaveBeforeDisplay(app, one);
  }

  /** The first hover stores the record, inserts a transparent card built
      from it and schedules its display. */
  method FirstRender(app: LinkPreview) returns (one: Card)
    requires app.Valid() && !app.Debug() && app.InDelay() == 50 && app.ttl == 1800
    requires app.SelectorName() == "data-tb-link-preview"
    requires app.cards == [] && app.timers == [] && app.clock == 0 && app.nextId == 0
    requires app.storage.items == map[]
    modifies app, app.storage
    ensures app.Valid() && app.cards == [one] && app.timers == [Timer(50, Display)] && app.clock == 0
    ensures one == Card(0, Meta(Some("A"), Some(""), Some(""), 2800), Num(20), 0)
  {
    var a := Meta(Some("A"), Some(""), Some(""), 1000 + 1800);
    var link := LinkTo("https://example.com/a");
    assert app.SelectorName() in link.attrs && Href(link) == "https://example.com/a";
    assert Extract(Page("A", []), 1000, 1800) == a;
    var shown := app.RenderPreview(link, Num(20), 1000, Loaded(Page("A", [])));
    one := app.cards[0];
    assert app.storage.items == map[CacheKey("https://example.com/a") := a];
  }

  /** Mouse leaves 10 ms after entering: the card is faded out at once, but the
      pending `displayPreview` still makes it opaque at 50 ms, and it is
      removed at 360 ms, 350 ms after the mouseout. */
  method LeaveBeforeDisplay(app: LinkPreview, one: Card)
    requires app.Valid() && !app.Debug() && app.OutDelay() == 350
    requires one.id == 0 && one.opacity == 0
    requires app.cards == [one] && app.timers == [Timer(50, Display)] && app.clock == 0
    modifies app
  {
    app.AdvanceClock(10);
    app.DestroyRender();
    assert app.cards == [one];
    assert app.timers == [Timer(50, Display), Timer(360, Remove(0))];
    DisplayThenRemove(app, one);
  }

  /** The display due first shows the fading card; its removal follows. */
  method DisplayThenRemove(app: LinkPreview, one: Card)
    requires app.Valid() && app.clock == 10 && one.id == 0
    requires app.cards == [one] && app.timers == [Timer(50, Display), Timer(360, Remove(0))]
    modifies app
  {
    var fired := app.FireNextTimer();
    assert fired == Some(Timer(50, Display));
    assert app.clock == 50 && app.cards == [one.(opacity := 1)];
    assert app.timers == [Timer(360, Remove(0))];

    fired := app.FireNextTimer();
    assert fired == Some(Timer(360, Remove(0)));
    assert app.clock == 360 && app.cards == [];
  }

  /** A hover within the cache lifetime is served from the store even when
      the network is down; from the expiry second on it yields no card. */
  method OfflineHover() {
    var storage := new LocalStorage(map[]);
    var app := new LinkPreview(map["cacheTtl" := Num(60)], storage, 0);
    assert app.ttl == 60 && app.SelectorName() == "data-tb-link-preview";
    var link := LinkTo("/a");
    assert app.SelectorName() in link.attrs && Href(link) == "/a";
    var a := OnlineHover(app, link);
    HoverWhileOffline(app, storage, link, a);
  }

  /** The first hover, online, stores a record that expires 60 s later. */
  method OnlineHover(app: LinkPreview, link: Element) returns (a: Meta)
    requires app.Valid() && app.ttl == 60 && app.cards == [] && app.storage.items == map[]
    requires app.SelectorName() in link.attrs && Href(link) == "/a"
    modifies app, app.storage
    ensures app.Valid() && |app.cards| == 1
    ensures a.expiry == 1060 && app.storage.items == map[CacheKey("/a") := a]
  {
    a := Meta(Some("A"), Some(""), Some(""), 1060);
    assert Extract(Page("A", []), 1000, 60) == a;
    var shown := app.RenderPreview(link, Num(20), 1000, Loaded(Page("A", [])));
  }

  method HoverWhileOffline(app: LinkPreview, storage: LocalStorage, link: Element, a: Meta)
    requires app.Valid() && app.storage == storage && app.ttl == 60
    requires app.SelectorName() in link.attrs && Href(link) == "/a"
    requires a.expiry == 1060 && storage.items == map[CacheKey("/a") := a] && |app.cards| == 1
    modifies app, storage
  {
    var shown := app.RenderPreview(link, Num(20), 1059, Failed);
    assert Fresh(old(storage.items), "/a", 1059);
    assert shown == Some(a);
    assert |app.cards| == 2 && app.cards[1].record == a && app.cards[1].height == Num(20);
    assert IsSubstring(TitleSection(app.config, a), app.Html(app.cards[1]));

    shown := app.RenderPreview(link, Num(20), 1060, Failed);
    assert !Fresh(storage.items, "/a", 1060);
    assert shown.None? && |app.cards| == 2;
  }

  /** Debug mode: leaving a link keeps its card. */
  method DebugHover() {
    var storage := new LocalStorage(map[]);
    var app := new LinkPreview(map["debug" := Bool(true)], storage, 0);
    assert app.Debug() && app.InDelay() == 50 && app.OutDelay() == 350;
    assert app.SelectorName() == "data-tb-link-preview";
    var one := DebugFirstHover(app);
    DebugSecondHover(app, one);
  }

  /** Debug mode, first link: the card is shown at 50 ms and stays after the
      mouse leaves. */
  method DebugFirstHover(app: LinkPreview) returns (one: Card)
    requires app.Valid() && app.Debug() && app.InDelay() == 50
    requires app.SelectorName() == "data-tb-link-preview"
    requires app.cards == [] && app.timers == [] && app.clock == 0
    modifies app, app.storage
    ensures app.Valid() && app.clock == 50 && app.cards == [one.(opacity := 1)] && app.timers == []
  {
    one := DebugInsert(app);
    var fired := app.FireNextTimer();
    assert app.clock == 50 && app.cards == [one.(opacity := 1)];
    app.DestroyRender();
  }

  /** With no cards in the page, deleting them first changes nothing. */
  method DebugInsert(app: LinkPreview) returns (one: Card)
    requires app.Valid() && app.Debug() && app.InDelay() == 50
    requires app.SelectorName() == "data-tb-link-preview"
    requires app.cards == [] && app.timers == [] && app.clock == 0
    modifies app, app.storage
    ensures app.Valid() && app.clock == 0 && app.cards == [one] && app.timers == [Timer(50, Display)]
    ensures one.opacity == 0
  {
    var link := LinkTo("/one");
    assert app.SelectorName() in link.attrs;
    assert !Fresh(app.storage.items, "/one", 0) ==> FetchSpec(app.storage.items, "/one", 0, app.ttl, Loaded(Page("One", []))).meta.Some?;
    var shown := app.RenderPreview(link, Num(20), 0, Loaded(Page("One", [])));
    one := app.cards[0];
  }

  /** Debug mode, second link: the first card is faded and its removal
      scheduled before the new card is added, and the new card's
      `displayPreview` shows the old card again until its removal fires.
      The hover happens at 50 ms, which is still second 0 for the cache. */
  method DebugSecondHover(app: LinkPreview, one: Card)
    requires app.Valid() && app.Debug() && app.InDelay() == 50 && app.OutDelay() == 350
    requires app.SelectorName() == "data-tb-link-preview"
    requires app.clock == 50 && app.cards == [one.(opacity := 1)] && app.timers == []
    modifies app, app.storage
  {
    var link := LinkTo("/two");
    assert app.SelectorName() in link.attrs;
    var shown := app.RenderPreview(link, Num(20), 0, Loaded(Page("Two", [])));
    assert |app.cards| == 2;
    var two := app.cards[1];
    assert app.cards == [one.(opacity := 0), two] && two.opacity == 0;
    assert app.timers == [Timer(400, Remove(one.id)), Timer(100, Display)];

    var fired := app.FireNextTimer();
    assert fired == Some(Timer(100, Display));
    assert app.cards == [one.(opacity := 1), two.(opacity := 1)];

    fired := app.FireNextTimer();
    assert app.clock == 400 && app.cards == [two.(opacity := 1)];
  }

  /** A hover on an element without the selector attribute (such as the
      card itself, which sits inside the link) changes nothing. */
  method HoverWithoutAttribute() {
    var storage := new LocalStorage(map[]);
    var app := new LinkPreview(map["selector" := Str("data-card")], storage, 0);
    assert app.SelectorName() == "data-card";
    var shown := app.RenderPreview(Element(map["href" := "/x"]), Num(20), 0, Loaded(Page("X", [])));
    assert app.cards == [] && app.timers == [] && storage.items == map[];
  }
}
