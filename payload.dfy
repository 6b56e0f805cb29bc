/** External data: the news and events requests the app would issue, and
    the extraction of NewsItem and EventItem records from the decoded JSON
    bodies (streamlit_app.py, _query_news and _query_events). The HTTP
    exchange itself is a parameter: the body as decoded, or the failure. */
module Payload {
  import opened Options
  import opened Text

  /** A decoded JSON value. JScalar stands for a number, true, false or
      null, carried with the text Python's str() gives it ("3", "True",
      "None"): the code can only render such a value, since subscripting,
      slicing, iterating or calling .get on it raises. */
  datatype Json =
    | JStr(s: string)
    | JScalar(text: string)
    | JArr(items: seq<Json>)
    | JObj(fields: map<string, Json>)

  /** The outcome of one HTTP request: Failed covers a network error, a
      timeout, a non-2xx status and a body that is not JSON, all of which
      raise inside the try block. */
  datatype Reply = Failed | Body(json: Json)

  datatype NewsItem = NewsItem(title: string, url: Json, source: string)

  /** start is the calendar date: the first ten characters of start.local. */
  datatype EventItem = EventItem(name: string, url: Json, start: string, venue: string)

  datatype NewsRequest = NewsRequest(q: string, language: string, sortBy: string, pageSize: nat, apiKey: string)

  datatype EventsRequest = EventsRequest(q: string, address: string, token: string, expand: string)

  // ---------------------------------------------------------------------
  // Python's operations on decoded JSON, with None for "raises"
  // ---------------------------------------------------------------------

  /** j[key]: raises unless j is an object holding key. */
  function Field(j: Json, key: string): (r: Option<Json>)
    ensures r.Some? <==> j.JObj? && key in j.fields
    ensures r.Some? ==> r.value == j.fields[key]
  {
    if j.JObj? && key in j.fields then Some(j.fields[key]) else None
  }

  /** The text an f-string shows for a value the code stores as a display
      string. Arrays and objects would be shown through Python's repr(),
      which is not modelled: they count as malformed. */
  function Display(j: Json): Option<string> {
    match j
    case JStr(s) => Some(s)
    case JScalar(t) => Some(t)
    case _ => None
  }

  /** Applies f to every element, in order, and fails as soon as one
      element fails: a comprehension or loop whose body raises on a bad
      element raises as a whole. */
  function MapAll<A, B>(xs: seq<A>, f: A -> Option<B>): (r: Option<seq<B>>)
    ensures r.Some? <==> forall i :: 0 <= i < |xs| ==> f(xs[i]).Some?
    ensures r.Some? ==> |r.value| == |xs|
    ensures r.Some? ==> forall i :: 0 <= i < |xs| ==> f(xs[i]) == Some(r.value[i])
  {
    if xs == [] then Some([])
    else
      match f(xs[0])
      case None => None
      case Some(y) =>
        match MapAll(xs[1..], f)
        case None => None
        case Some(ys) => Some([y] + ys)
  }

  // ---------------------------------------------------------------------
  // News
  // ---------------------------------------------------------------------

  /** The request _query_news sends, or None when it returns before any
      request because the news key is empty. */
  function NewsRequestFor(newsKey: string, profession: string): (r: Option<NewsRequest>)
    ensures r.None? <==> newsKey == ""
    ensures r.Some? ==> r.value.q != "" && r.value.apiKey == newsKey
    ensures r.Some? ==> (profession != "" ==> r.value.q == profession)
    ensures r.Some? ==> (profession == "" ==> r.value.q == "career")
    ensures r.Some? ==> r.value.language == "ko,en" && r.value.sortBy == "publishedAt" && r.value.pageSize == 3
  {
    if newsKey == "" then None
    else Some(NewsRequest(if profession != "" then profession else "career", "ko,en", "publishedAt", 3, newsKey))
  }

  /** What `for art in data.get("articles", [])` runs over, or None when
      that expression or the first subscript of an element raises.
      A string runs over its characters (each a one-character string), an
      object over its keys (strings too): the first `art["title"]` on a
      string raises, so only an empty string or object gives no articles
      without raising. */
  function Articles(data: Json): Option<seq<Json>> {
    if !data.JObj? then None
    else if "articles" !in data.fields then Some([])
    else
      match data.fields["articles"]
      case JArr(xs) => Some(xs)
      case JStr(s) => if s == "" then Some([]) else None
      case JObj(m) => if m == map[] then Some([]) else None
      case JScalar(_) => None
  }

  /** {"title": art["title"], "url": art["url"], "source": art["source"]["name"]} */
  function NewsOf(art: Json): (r: Option<NewsItem>)
    ensures r.Some? <==>
      && art.JObj? && "title" in art.fields && "url" in art.fields && "source" in art.fields
      && Field(art.fields["source"], "name").Some?
      && Display(art.fields["title"]).Some?
      && Display(art.fields["source"].fields["name"]).Some?
    ensures r.Some? ==> art.JObj? && "title" in art.fields && "url" in art.fields && "source" in art.fields
    ensures r.Some? ==> Display(art.fields["title"]) == Some(r.value.title)
    ensures r.Some? ==> r.value.url == art.fields["url"]
    ensures r.Some? ==> Field(art.fields["source"], "name").Some?
    ensures r.Some? ==> Display(art.fields["source"].fields["name"]) == Some(r.value.source)
  {
    var title :- Field(art, "title");
    var url :- Field(art, "url");
    var source :- Field(art, "source");
    var name :- Field(source, "name");
    var titleText :- Display(title);
    var sourceText :- Display(name);
    Some(NewsItem(titleText, url, sourceText))
  }

  /** The list comprehension of _query_news, or None when it raises. */
  function ExtractNews(data: Json): Option<seq<NewsItem>> {
    var arts :- Articles(data);
    MapAll(arts, NewsOf)
  }

  /** _query_news: the guard, then the request, then the extraction, with
      every failure degraded to the empty list. */
  function FetchNews(newsKey: string, profession: string, reply: Reply): (r: seq<NewsItem>)
    ensures NewsRequestFor(newsKey, profession).None? ==> r == []
    ensures reply.Failed? ==> r == []
    ensures r != [] ==> reply.Body? && ExtractNews(reply.json) == Some(r)
  {
    if newsKey == "" then []
    else
      match reply
      case Failed => []
      case Body(data) =>
        match ExtractNews(data)
        case None => []
        case Some(items) => items
  }

  /** Every article of a well-formed body becomes one item, in order and
      with its own fields; a single malformed article empties the whole
      result. */
  lemma NewsAllOrNothing(newsKey: string, profession: string, data: Json, arts: seq<Json>)
    requires newsKey != "" && Articles(data) == Some(arts)
    ensures var r := FetchNews(newsKey, profession, Body(data));
      if forall i :: 0 <= i < |arts| ==> NewsOf(arts[i]).Some? then
        |r| == |arts| && forall i :: 0 <= i < |arts| ==> NewsOf(arts[i]) == Some(r[i])
      else
        r == []
  {
  }

  /** A reply listing one complete article gives exactly that article's
      headline. */
  lemma OneArticle(newsKey: string, profession: string, title: string, url: Json, source: string)
    requires newsKey != ""
    ensures var art := JObj(map["title" := JStr(title), "url" := url, "source" := JObj(map["name" := JStr(source)])]);
      FetchNews(newsKey, profession, Body(JObj(map["articles" := JArr([art])]))) == [NewsItem(title, url, source)]
  {
    var art := JObj(map["title" := JStr(title), "url" := url, "source" := JObj(map["name" := JStr(source)])]);
    var data := JObj(map["articles" := JArr([art])]);
    assert Articles(data) == Some([art]);
    assert NewsOf(art) == Some(NewsItem(title, url, source));
  }

  // ---------------------------------------------------------------------
  // Events
  // ---------------------------------------------------------------------

  /** The request _query_events sends, or None when it returns before any
      request because the events key or the location is empty. The date
      range parameters depend on the clock and are not modelled. */
  function EventsRequestFor(eventsKey: string, location: string, profession: string): (r: Option<EventsRequest>)
    ensures r.None? <==> eventsKey == "" || location == ""
    ensures r.Some? ==> r.value.q != "" && r.value.address == location && r.value.token == eventsKey
    ensures r.Some? ==> (profession != "" ==> r.value.q == profession)
    ensures r.Some? ==> (profession == "" ==> r.value.q == "networking")
    ensures r.Some? ==> r.value.expand == "venue"
  {
    if eventsKey == "" || location == "" then None
    else Some(EventsRequest(if profession != "" then profession else "networking", location, eventsKey, "venue"))
  }

  /** The first n elements of xs, as Python's xs[:n]. */
  function Take<T>(xs: seq<T>, n: nat): (r: seq<T>)
    ensures |r| == if |xs| <= n then |xs| else n
    ensures r == xs[..|r|]
  {
    if |xs| <= n then xs else xs[..n]
  }

  /** What `for ev in data.get("events", [])[:3]` runs over, or None when
      that expression or the first subscript of an element raises. Slicing
      an object raises; a string slices to at most three characters, each
      of which raises at `ev["name"]`. */
  function FirstEvents(data: Json): (r: Option<seq<Json>>)
    ensures r.Some? ==> |r.value| <= 3
  {
    if !data.JObj? then None
    else if "events" !in data.fields then Some([])
    else
      match data.fields["events"]
      case JArr(xs) => Some(Take(xs, 3))
      case JStr(s) => if s == "" then Some([]) else None
      case JObj(_) => None
      case JScalar(_) => None
  }

  /** ev["start"]["local"][:10], for the start.local value. Only a string
      is kept (a list would slice too; lists are not modelled there). */
  function StartDate(local: Json): (r: Option<string>)
    ensures r.Some? <==> local.JStr?
    ensures r.Some? ==> |r.value| <= 10 && StartsWith(local.s, r.value)
    ensures r.Some? && |local.s| >= 10 ==> |r.value| == 10
    ensures r.Some? && |local.s| <= 10 ==> r.value == local.s
  {
    match local
    case JStr(s) => Some(Take(s, 10))
    case _ => None
  }

  /** ev.get("venue", {}).get("name", ""): a missing venue or a venue
      without a name gives "", but a venue that is not an object (null for
      an online event, say) has no .get and raises. */
  function VenueName(ev: map<string, Json>): (r: Option<string>)
    ensures "venue" !in ev ==> r == Some("")
    ensures "venue" in ev && ev["venue"].JObj? && "name" !in ev["venue"].fields ==> r == Some("")
    ensures "venue" in ev && !ev["venue"].JObj? ==> r.None?
    ensures "venue" in ev && ev["venue"].JObj? && "name" in ev["venue"].fields ==> r == Display(ev["venue"].fields["name"])
  {
    if "venue" !in ev then Some("")
    else
      match ev["venue"]
      case JObj(v) => if "name" in v then Display(v["name"]) else Some("")
      case _ => None
  }

  /** {"name": ev["name"]["text"], "url": ev["url"],
      "start": ev["start"]["local"][:10], "venue": ...} */
  function EventOf(ev: Json): (r: Option<EventItem>)
    ensures r.Some? <==>
      && ev.JObj? && "name" in ev.fields && "url" in ev.fields && "start" in ev.fields
      && Field(ev.fields["name"], "text").Some? && Field(ev.fields["start"], "local").Some?
      && Display(ev.fields["name"].fields["text"]).Some?
      && ev.fields["start"].fields["local"].JStr?
      && VenueName(ev.fields).Some?
    ensures r.Some? ==> ev.JObj? && "name" in ev.fields && "url" in ev.fields && "start" in ev.fields
    ensures r.Some? ==> Field(ev.fields["name"], "text").Some? && Field(ev.fields["start"], "local").Some?
    ensures r.Some? ==> Display(ev.fields["name"].fields["text"]) == Some(r.value.name)
    ensures r.Some? ==> r.value.url == ev.fields["url"]
    ensures r.Some? ==> StartDate(ev.fields["start"].fields["local"]) == Some(r.value.start)
    ensures r.Some? ==> VenueName(ev.fields) == Some(r.value.venue)
  {
    var nameObj :- Field(ev, "name");
    var name :- Field(nameObj, "text");
    var nameText :- Display(name);
    var url :- Field(ev, "url");
    var start :- Field(ev, "start");
    var local :- Field(start, "local");
    var date :- StartDate(local);
    var venue :- VenueName(ev.fields);
    Some(EventItem(nameText, url, date, venue))
  }

  /** The loop of _query_events as a specification: None when it raises. */
  function ExtractEventsSpec(data: Json): Option<seq<EventItem>> {
    var evs :- FirstEvents(data);
    MapAll(evs, EventOf)
  }

  /** The loop of _query_events: up to three events, appended one by one;
      the first malformed event raises out of the loop. */
  method ExtractEvents(data: Json) returns (r: Option<seq<EventItem>>)
    ensures r == ExtractEventsSpec(data)
  {
    var listed := FirstEvents(data);
    if listed.None? {
      return None;
    }
    var evs := listed.value;
    var events: seq<EventItem> := [];
    var i := 0;
    while i < |evs|
      invariant 0 <= i <= |evs|
      invariant |events| == i
      invariant forall j :: 0 <= j < i ==> EventOf(evs[j]) == Some(events[j])
    {
      var ev := EventOf(evs[i]);
      if ev.None? {
        return None;
      }
      events := events + [ev.value];
      i := i + 1;
    }
    assert MapAll(evs, EventOf).Some?;
    assert MapAll(evs, EventOf).value == events;
    return Some(events);
  }

  /** _query_events as a function of its inputs: the guard, then the
      request, then the extraction, with every failure degraded to the
      empty list. */
  function FetchEvents(eventsKey: string, location: string, profession: string, reply: Reply): (r: seq<EventItem>)
    ensures EventsRequestFor(eventsKey, location, profession).None? ==> r == []
    ensures reply.Failed? ==> r == []
    ensures |r| <= 3
    ensures r != [] ==> reply.Body? && ExtractEventsSpec(reply.json) == Some(r)
  {
    if eventsKey == "" || location == "" then []
    else
      match reply
      case Failed => []
      case Body(data) =>
        match ExtractEventsSpec(data)
        case None => []
        case Some(items) => items
  }

  /** _query_events: returns before any request when the key or the
      location is empty, otherwise extracts from the reply. */
  method QueryEvents(eventsKey: string, location: string, profession: string, reply: Reply)
    returns (request: Option<EventsRequest>, events: seq<EventItem>)
    ensures request == EventsRequestFor(eventsKey, location, profession)
    ensures events == FetchEvents(eventsKey, location, profession, reply)
  {
    request := EventsRequestFor(eventsKey, location, profession);
    if request.None? {
      return request, [];
    }
    match reply {
      case Failed =>
        events := [];
      case Body(data) =>
        var extracted := ExtractEvents(data);
        events := if extracted.Some? then extracted.value else [];
    }
  }

  /** The events of a well-formed body are its first three, in order,
      each dated by the first ten characters of its start.local and with
      "" for a missing venue; one malformed event among those three
      empties the whole result, and events after the third are never
      looked at. */
  lemma EventsFirstThree(eventsKey: string, location: string, profession: string, data: Json, xs: seq<Json>)
    requires eventsKey != "" && location != ""
    requires data.JObj? && "events" in data.fields && data.fields["events"] == JArr(xs)
    ensures var r := FetchEvents(eventsKey, location, profession, Body(data));
      var k := if |xs| <= 3 then |xs| else 3;
      if forall i :: 0 <= i < k ==> EventOf(xs[i]).Some? then
        |r| == k && forall i :: 0 <= i < k ==> EventOf(xs[i]) == Some(r[i])
      else
        r == []
  {
  }
}
