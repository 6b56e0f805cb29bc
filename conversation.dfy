/** The chat session: the transcript kept in st.session_state.messages,
    what the page shows of it, and the handling of one user input
    (streamlit_app.py:144-200). Each Streamlit rerun re-reads the sidebar,
    so every step receives the settings as they are at that moment; the
    model's streamed answer and the two provider replies are parameters. */
module Conversation {
  import opened Text
  import opened Options
  import opened Routing
  import opened Payload
  import opened Prompts

  datatype Role = System | User | Assistant

  datatype Turn = Turn(role: Role, content: string)

  /** The sidebar values read on a rerun. */
  datatype Settings = Settings(llmKey: string, newsKey: string, eventsKey: string, profession: string, location: string)

  /** The request handed to the chat completion client. */
  datatype ChatRequest = ChatRequest(model: string, messages: seq<Turn>, stream: bool)

  const ChatModel := "gpt-4o-mini-turbo"

  // ---------------------------------------------------------------------
  // What the page shows
  // ---------------------------------------------------------------------

  /** The turns the display loop renders: every turn except the system
      ones, in transcript order. */
  function Visible(ts: seq<Turn>): (r: seq<Turn>)
    ensures |r| <= |ts|
  {
    if ts == [] then []
    else (if ts[0].role == System then [] else [ts[0]]) + Visible(ts[1..])
  }

  /** The page shows no system turn, and only turns of the transcript. */
  lemma {:induction false} VisibleDropsSystem(ts: seq<Turn>)
    ensures forall i :: 0 <= i < |Visible(ts)| ==> Visible(ts)[i].role != System && Visible(ts)[i] in ts
  {
    if ts != [] {
      VisibleDropsSystem(ts[1..]);
      var head := if ts[0].role == System then [] else [ts[0]];
      assert Visible(ts) == head + Visible(ts[1..]);
      forall i | 0 <= i < |Visible(ts)|
        ensures Visible(ts)[i].role != System && Visible(ts)[i] in ts
      {
        if i >= |head| {
          var j :| 0 <= j < |ts[1..]| && ts[1..][j] == Visible(ts[1..])[i - |head|];
          assert ts[j + 1] == Visible(ts)[i];
        }
      }
    }
  }

  /** Filtering distributes over appending: together with its value on
      single turns this determines Visible completely, so it keeps the
      order of the non-system turns and drops nothing else. */
  lemma {:induction false} VisibleAppend(a: seq<Turn>, b: seq<Turn>)
    ensures Visible(a + b) == Visible(a) + Visible(b)
  {
    if a == [] {
      assert a + b == b;
    } else {
      var head := if a[0].role == System then [] else [a[0]];
      assert (a + b)[0] == a[0];
      assert (a + b)[1..] == a[1..] + b;
      VisibleAppend(a[1..], b);
      calc {
        Visible(a + b);
        head + Visible(a[1..] + b);
        head + (Visible(a[1..]) + Visible(b));
        (head + Visible(a[1..])) + Visible(b);
      }
    }
  }

  /** Every non-system turn of the transcript is shown. */
  lemma {:induction false} VisibleKeepsConversation(ts: seq<Turn>, i: nat)
    requires i < |ts| && ts[i].role != System
    ensures ts[i] in Visible(ts)
  {
    if i > 0 {
      VisibleKeepsConversation(ts[1..], i - 1);
      assert ts[1..][i - 1] == ts[i];
    }
  }

  // ---------------------------------------------------------------------
  // The shape of a transcript
  // ---------------------------------------------------------------------

  /** One handled input: the user's text, the briefing context when it was
      a /brief, and the model's answer. */
  datatype Exchange = Exchange(input: string, augmentation: Option<string>, reply: string)

  /** The turns one exchange appends before the model is called: the
      input and, for a /brief, the briefing context. */
  function Asked(e: Exchange): seq<Turn> {
    [Turn(User, e.input)]
    + (if e.augmentation.Some? then [Turn(System, e.augmentation.value)] else [])
  }

  /** The turns one exchange appends, in order. */
  function Block(e: Exchange): seq<Turn> {
    Asked(e) + [Turn(Assistant, e.reply)]
  }

  function Turns(h: seq<Exchange>): seq<Turn> {
    if h == [] then [] else Turns(h[..|h| - 1]) + Block(h[|h| - 1])
  }

  /** The conversation as the user sees it: their inputs and the answers,
      alternating. */
  function Dialogue(h: seq<Exchange>): (r: seq<Turn>)
    ensures |r| == 2 * |h|
  {
    if h == [] then []
    else Dialogue(h[..|h| - 1]) + [Turn(User, h[|h| - 1].input), Turn(Assistant, h[|h| - 1].reply)]
  }

  /** An exchange the app can produce: a non-empty input, and a briefing
      context exactly when the input is a /brief command. */
  predicate Recorded(e: Exchange) {
    e.input != "" && (e.augmentation.Some? <==> IsBriefing(e.input))
  }

  ghost predicate AllRecorded(h: seq<Exchange>) {
    forall i :: 0 <= i < |h| ==> Recorded(h[i])
  }

  lemma RecordedSnoc(h: seq<Exchange>, e: Exchange)
    requires AllRecorded(h) && Recorded(e)
    ensures AllRecorded(h + [e])
  {
    forall i | 0 <= i < |h| + 1
      ensures Recorded((h + [e])[i])
    {
      if i < |h| {
        assert (h + [e])[i] == h[i];
      }
    }
  }

  /** The page never shows a briefing context: what it shows of the
      exchanges is exactly the alternation of inputs and answers. */
  lemma {:induction false} VisibleTurns(h: seq<Exchange>)
    ensures Visible(Turns(h)) == Dialogue(h)
  {
    if h != [] {
      var e := h[|h| - 1];
      VisibleTurns(h[..|h| - 1]);
      VisibleAppend(Turns(h[..|h| - 1]), Block(e));
      var u, a := Turn(User, e.input), Turn(Assistant, e.reply);
      if e.augmentation.Some? {
        var s := Turn(System, e.augmentation.value);
        VisibleAppend([u], [s] + [a]);
        VisibleAppend([s], [a]);
      } else {
        VisibleAppend([u], [a]);
      }
    }
  }

  function Count(ts: seq<Turn>, role: Role): nat {
    if ts == [] then 0 else (if ts[0].role == role then 1 else 0) + Count(ts[1..], role)
  }

  lemma {:induction false} CountAppend(a: seq<Turn>, b: seq<Turn>, role: Role)
    ensures Count(a + b, role) == Count(a, role) + Count(b, role)
  {
    if a == [] {
      assert a + b == b;
    } else {
      assert (a + b)[1..] == a[1..] + b;
      CountAppend(a[1..], b, role);
    }
  }

  function Briefings(h: seq<Exchange>): nat {
    if h == [] then 0 else Briefings(h[..|h| - 1]) + (if h[|h| - 1].augmentation.Some? then 1 else 0)
  }

  lemma SingleTurn(t: Turn)
    ensures Visible([t]) == if t.role == System then [] else [t]
    ensures forall role :: Count([t], role) == if t.role == role then 1 else 0
  {
    assert [t][1..] == [];
  }

  /** One exchange adds one user turn, one assistant turn, and a system
      turn only for a briefing; the page shows the first and the last. */
  lemma BlockShape(e: Exchange)
    ensures Count(Block(e), User) == 1 && Count(Block(e), Assistant) == 1
    ensures Count(Block(e), System) == if e.augmentation.Some? then 1 else 0
    ensures |Block(e)| == if e.augmentation.Some? then 3 else 2
    ensures Visible(Block(e)) == [Turn(User, e.input), Turn(Assistant, e.reply)]
  {
    var u, a := Turn(User, e.input), Turn(Assistant, e.reply);
    SingleTurn(u);
    SingleTurn(a);
    var middle := if e.augmentation.Some? then [Turn(System, e.augmentation.value)] else [];
    assert Block(e) == [u] + (middle + [a]);
    VisibleAppend([u], middle + [a]);
    VisibleAppend(middle, [a]);
    CountAppend([u], middle + [a], User);
    CountAppend(middle, [a], User);
    CountAppend([u], middle + [a], Assistant);
    CountAppend(middle, [a], Assistant);
    CountAppend([u], middle + [a], System);
    CountAppend(middle, [a], System);
    if e.augmentation.Some? {
      SingleTurn(middle[0]);
    }
  }

  /** Every input is answered exactly once, and a system turn is added
      only for a briefing. */
  lemma {:induction false} TurnCounts(h: seq<Exchange>)
    ensures Count(Turns(h), User) == |h|
    ensures Count(Turns(h), Assistant) == |h|
    ensures Count(Turns(h), System) == Briefings(h)
    ensures |Turns(h)| == 2 * |h| + Briefings(h)
  {
    if h != [] {
      var e := h[|h| - 1];
      TurnCounts(h[..|h| - 1]);
      CountAppend(Turns(h[..|h| - 1]), Block(e), User);
      CountAppend(Turns(h[..|h| - 1]), Block(e), Assistant);
      CountAppend(Turns(h[..|h| - 1]), Block(e), System);
      BlockShape(e);
    }
  }

  /** The briefing context a step adds for a /brief input: the data the
      current settings fetch, formatted. */
  function Augmentation(settings: Settings, input: string, newsReply: Reply, eventsReply: Reply): (r: Option<string>)
    ensures r.Some? <==> IsBriefing(input)
  {
    if IsBriefing(input) then
      var news := FetchNews(settings.newsKey, settings.profession, newsReply);
      var events := FetchEvents(settings.eventsKey, settings.location, settings.profession, eventsReply);
      Some(BriefingContext(news, events))
    else None
  }

  /** fetch_news_and_events (lines 106-108) without its cache: both
      fetches for the current profession and location. */
  method FetchNewsAndEvents(settings: Settings, newsReply: Reply, eventsReply: Reply)
    returns (news: seq<NewsItem>, events: seq<EventItem>)
    ensures news == FetchNews(settings.newsKey, settings.profession, newsReply)
    ensures events == FetchEvents(settings.eventsKey, settings.location, settings.profession, eventsReply)
  {
    news := FetchNews(settings.newsKey, settings.profession, newsReply);
    var _, fetched := QueryEvents(settings.eventsKey, settings.location, settings.profession, eventsReply);
    events := fetched;
  }

  /** Lines 167-181: for a /brief input, fetch the data for the current
      settings and write the briefing context; nothing otherwise. */
  method Augment(settings: Settings, input: string, newsReply: Reply, eventsReply: Reply)
    returns (augmentation: Option<string>)
    ensures augmentation == Augmentation(settings, input, newsReply, eventsReply)
  {
    augmentation := None;
    if IsBriefing(input) {
      var news, events := FetchNewsAndEvents(settings, newsReply, eventsReply);
      var context := BuildBriefingContext(news, events);
      augmentation := Some(context);
    }
  }

  // ---------------------------------------------------------------------
  // The session
  // ---------------------------------------------------------------------

  class ChatSession {
    /** st.session_state.messages */
    var messages: seq<Turn>
    /** The exchanges handled so far. */
    ghost var history: seq<Exchange>
    /** The system prompt written when the session was created. */
    ghost const basePrompt: string

    /** The transcript is the base system prompt followed by the turns of
        the exchanges, each of them one the app can produce. */
    ghost predicate Valid()
      reads this
    {
      && messages == [Turn(System, basePrompt)] + Turns(history)
      && AllRecorded(history)
    }

    /** Lines 145-147: the first run of a session writes the system prompt
        as the only turn. The app stops before this point when the model
        credential is empty. */
    constructor (settings: Settings, date: string)
      requires settings.llmKey != ""
      ensures Valid() && history == []
      ensures basePrompt == SystemPrompt(date, settings.profession, settings.location)
      ensures messages == [Turn(System, basePrompt)]
      ensures Visible(messages) == []
    {
      var prompt := BuildSystemPrompt(date, settings.profession, settings.location);
      messages := [Turn(System, prompt)];
      history := [];
      basePrompt := prompt;
      new;
      assert Visible(messages) == [] + Visible([]);
    }

    /** Lines 156-200 on one rerun. With no model credential the script
        stops and nothing happens; an empty input is skipped. Otherwise the
        input is appended as a user turn, a /brief input adds the briefing
        context as a system turn, the whole transcript goes to the model,
        and its answer is appended as one assistant turn. */
    method Step(settings: Settings, input: string, newsReply: Reply, eventsReply: Reply, reply: string)
      returns (request: Option<ChatRequest>)
      requires Valid()
      modifies this
      ensures Valid()
      ensures settings.llmKey == "" || input == "" ==>
        messages == old(messages) && history == old(history) && request.None?
      ensures settings.llmKey != "" && input != "" ==>
        var e := Exchange(input, Augmentation(settings, input, newsReply, eventsReply), reply);
        && history == old(history) + [e]
        && messages == old(messages) + Block(e)
        && Visible(messages) == Visible(old(messages)) + [Turn(User, input), Turn(Assistant, reply)]
        && request == Some(ChatRequest(ChatModel, old(messages) + Asked(e), true))
    {
      if settings.llmKey == "" || input == "" {
        return None;
      }
      var augmentation := Augment(settings, input, newsReply, eventsReply);
      var sent := messages + [Turn(User, input)];
      if augmentation.Some? {
        sent := sent + [Turn(System, augmentation.value)];
      }
      request := Some(ChatRequest(ChatModel, sent, true));
      var e := Exchange(input, augmentation, reply);
      assert sent == messages + Asked(e);
      Record(e);
    }

    /** Lines 184-200 on the transcript: the turns of one handled input
        are appended, and the transcript stays one the app can produce. */
    method Record(e: Exchange)
      requires Valid() && Recorded(e)
      modifies this
      ensures Valid()
      ensures history == old(history) + [e]
      ensures messages == old(messages) + Block(e)
      ensures Visible(messages) == Visible(old(messages)) + [Turn(User, e.input), Turn(Assistant, e.reply)]
    {
      ghost var h := history;
      AppendExchange(basePrompt, h, e);
      messages := messages + Block(e);
      history := h + [e];
      RecordedSnoc(h, e);
    }
  }

  /** Appending one exchange's turns to a transcript extends its history
      by that exchange, and the page then shows exactly the new input and
      its answer in addition. */
  lemma AppendExchange(basePrompt: string, h: seq<Exchange>, e: Exchange)
    ensures [Turn(System, basePrompt)] + Turns(h + [e]) == [Turn(System, basePrompt)] + Turns(h) + Block(e)
    ensures Visible([Turn(System, basePrompt)] + Turns(h) + Block(e))
         == Visible([Turn(System, basePrompt)] + Turns(h)) + [Turn(User, e.input), Turn(Assistant, e.reply)]
  {
    assert (h + [e])[..|h|] == h;
    VisibleAppend([Turn(System, basePrompt)] + Turns(h), Block(e));
    BlockShape(e);
  }

  /** In any transcript the app builds, the first turn is the base system
      prompt, every input has exactly one answer, and the page shows
      exactly the alternation of inputs and answers. */
  lemma TranscriptShape(basePrompt: string, h: seq<Exchange>)
    ensures var ms := [Turn(System, basePrompt)] + Turns(h);
      && ms[0] == Turn(System, basePrompt)
      && Count(ms, User) == Count(ms, Assistant) == |h|
      && Visible(ms) == Dialogue(h)
  {
    var base := [Turn(System, basePrompt)];
    TurnCounts(h);
    CountAppend(base, Turns(h), User);
    CountAppend(base, Turns(h), Assistant);
    VisibleAppend(base, Turns(h));
    VisibleTurns(h);
    assert Visible(base) == [] + Visible([]);
  }

  /** A briefing handled on a fresh transcript leaves four turns: the base
      prompt, the input, the context and the answer; the model was sent the
      first three. */
  lemma FirstBriefingShape(basePrompt: string, e: Exchange)
    requires e.augmentation.Some?
    ensures var ms := [Turn(System, basePrompt)] + Block(e);
      && |ms| == 4
      && ms == [Turn(System, basePrompt), Turn(User, e.input), Turn(System, e.augmentation.value), Turn(Assistant, e.reply)]
      && ms[..3] == [Turn(System, basePrompt)] + Asked(e)
  {
  }

  /** A /brief with a news key, no events key and a news reply carrying
      one complete article adds a context listing exactly that headline. */
  lemma OneHeadlineBriefing(settings: Settings, title: string, url: Json, source: string)
    requires settings.newsKey != "" && settings.eventsKey == "" && settings.profession == ""
    ensures var art := JObj(map["title" := JStr(title), "url" := url, "source" := JObj(map["name" := JStr(source)])]);
      Augmentation(settings, BriefCommand, Body(JObj(map["articles" := JArr([art])])), Failed)
      == Some(HeaderText + NewsHeading + NewsLine(NewsItem(title, url, source)) + "\n\n" + InstructionText)
  {
    OneArticle(settings.newsKey, "", title, url, source);
    CommandIsBriefing();
    OneHeadlineContext(NewsItem(title, url, source));
  }

  /** A /brief on a fresh session whose settings hold a model key and a
      news key but no events key, no profession and no location, with a
      news reply carrying one complete article: the transcript ends with
      four turns, the briefing context lists exactly that headline and no
      events, the model is sent the first three turns, and the page shows
      only the command and the answer. */
  method BriefingScenario(date: string, llmKey: string, newsKey: string, title: string, url: Json, source: string, reply: string)
    returns (transcript: seq<Turn>, request: Option<ChatRequest>)
    requires llmKey != "" && newsKey != ""
    ensures |transcript| == 4
    ensures transcript[0] == Turn(System, SystemPrompt(date, "", ""))
    ensures transcript[1] == Turn(User, BriefCommand)
    ensures transcript[2] == Turn(System, HeaderText + NewsHeading + NewsLine(NewsItem(title, url, source)) + "\n\n" + InstructionText)
    ensures transcript[3] == Turn(Assistant, reply)
    ensures Visible(transcript) == [Turn(User, BriefCommand), Turn(Assistant, reply)]
    ensures request == Some(ChatRequest(ChatModel, transcript[..3], true))
  {
    var settings := Settings(llmKey, newsKey, "", "", "");
    var session := new ChatSession(settings, date);
    var article := JObj(map["title" := JStr(title), "url" := url, "source" := JObj(map["name" := JStr(source)])]);
    var newsReply := Body(JObj(map["articles" := JArr([article])]));
    OneHeadlineBriefing(settings, title, url, source);
    request := session.Step(settings, BriefCommand, newsReply, Failed, reply);
    transcript := session.messages;
    ghost var e := Exchange(BriefCommand, Augmentation(settings, BriefCommand, newsReply, Failed), reply);
    FirstBriefingShape(SystemPrompt(date, "", ""), e);
  }
}
