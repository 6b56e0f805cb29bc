/** The two texts the app writes for the language model: the base system
    prompt (build_system_prompt, streamlit_app.py:114-129) and the briefing
    context added for /brief (streamlit_app.py:172-181). Both are built by
    appending optional clauses to a fixed opening. Each is specified by a
    function that lays the clauses side by side (an absent clause is the
    empty string), and the lemmas say which clauses are present, in what
    order, and where they sit in the text. */
module Prompts {
  import opened Text
  import opened Payload

  // ---------------------------------------------------------------------
  // System prompt
  // ---------------------------------------------------------------------

  const IdentityLead := "You are CareerMate, a multilingual professional assistant. " + "Today's date is "
  const ProfessionLead := " The user's profession is '"
  const LocationLead := " The user is located in "
  const GuidanceText :=
    " Curate relevant news and events, and provide clear, concise, and actionable feedback. "
    + "When asked for a daily briefing, provide a bullet summary in Korean, then offer deeper dives."

  /** The opening sentence, with the date. */
  function IdentityClause(date: string): string {
    IdentityLead + date + "."
  }

  /** The profession sentence, written only for a non-empty profession. */
  function ProfessionClause(profession: string): string {
    if profession != "" then ProfessionLead + profession + "'." else ""
  }

  /** The location sentence, written only for a non-empty location. */
  function LocationClause(location: string): string {
    if location != "" then LocationLead + location + "." else ""
  }

  /** The text build_system_prompt returns for a date, a profession and a
      location. */
  function SystemPrompt(date: string, profession: string, location: string): string {
    IdentityClause(date) + ProfessionClause(profession) + LocationClause(location) + GuidanceText
  }

  /** build_system_prompt, with the date (strftime("%Y-%m-%d") of the
      current time) passed in. */
  method BuildSystemPrompt(date: string, profession: string, location: string) returns (prompt: string)
    ensures prompt == SystemPrompt(date, profession, location)
  {
    prompt := IdentityLead + date + ".";
    if profession != "" {
      prompt := prompt + (ProfessionLead + profession + "'.");
    }
    assert prompt == IdentityClause(date) + ProfessionClause(profession);
    if location != "" {
      prompt := prompt + (LocationLead + location + ".");
    }
    assert prompt == IdentityClause(date) + ProfessionClause(profession) + LocationClause(location);
    prompt := prompt + GuidanceText;
  }

  /** The prompt opens with the identity sentence and closes with the
      guidance. */
  lemma PromptEnds(date: string, profession: string, location: string)
    ensures var p := SystemPrompt(date, profession, location);
      StartsWith(p, IdentityClause(date)) && EndsWith(p, GuidanceText)
  {
    Parts4(IdentityClause(date), ProfessionClause(profession), LocationClause(location), GuidanceText);
  }

  /** Where each clause sits: after the identity sentence comes the
      profession sentence, quoting the profession, when one was given;
      after that the location sentence when a location was given; the
      guidance fills the rest. */
  lemma PromptLayout(date: string, profession: string, location: string)
    ensures var p := SystemPrompt(date, profession, location);
      var n := |IdentityClause(date)|;
      var m := n + |ProfessionClause(profession)|;
      var k := m + |LocationClause(location)|;
      && k + |GuidanceText| == |p|
      && (profession != "" ==> p[n..m] == ProfessionLead + profession + "'.")
      && (profession == "" ==> n == m)
      && (location != "" ==> p[m..k] == LocationLead + location + ".")
      && (location == "" ==> m == k)
      && p[k..] == GuidanceText
  {
    Parts4(IdentityClause(date), ProfessionClause(profession), LocationClause(location), GuidanceText);
  }

  /** In the text, right after the identity sentence, comes the
      profession sentence when a profession was given. */
  lemma ProfessionAfterIdentity(date: string, profession: string, location: string)
    requires profession != ""
    ensures var p := SystemPrompt(date, profession, location);
      var n := |IdentityClause(date)|;
      n <= |p| && StartsWith(p[n..], ProfessionLead)
  {
    var lc := LocationClause(location);
    Parts4(IdentityClause(date), ProfessionClause(profession), lc, GuidanceText);
    Parts5(ProfessionLead, profession, "'.", lc, GuidanceText);
  }

  /** Without a profession, right after the identity sentence comes the
      location sentence when a location was given, and no profession
      sentence. */
  lemma LocationAfterIdentity(date: string, location: string)
    requires location != ""
    ensures var p := SystemPrompt(date, "", location);
      var n := |IdentityClause(date)|;
      && n <= |p|
      && StartsWith(p[n..], LocationLead)
      && !StartsWith(p[n..], ProfessionLead)
  {
    var lc := LocationClause(location);
    var pc := ProfessionClause("");
    Parts4(IdentityClause(date), pc, lc, GuidanceText);
    EmptyAppend(lc);
    assert pc + lc + GuidanceText == lc + GuidanceText;
    Parts4(LocationLead, location, ".", GuidanceText);
    LeadsDiffer(lc + GuidanceText);
  }

  /** The profession and location sentences differ at their tenth
      character. */
  lemma LeadsDiffer(next: string)
    requires StartsWith(next, LocationLead)
    ensures !StartsWith(next, ProfessionLead)
  {
    assert ProfessionLead[9] == '\'' && LocationLead[9] == ' ';
    assert next[9] == next[..|LocationLead|][9];
  }

  // ---------------------------------------------------------------------
  // Briefing context
  // ---------------------------------------------------------------------

  const NewsHeading := "Recent news headlines:\n"
  const EventsHeading := "Upcoming events:\n"
  const NoDataMarker := "(No external data available)\n\n"
  const HeaderText := "You gathered the following data:\n\n"
  const InstructionText :=
    "Please craft a Korean daily briefing " + "in bullet points (max 120 words), then suggest next actions."

  /** f"- {n['title']} ({n['source']})" */
  function NewsLine(n: NewsItem): string {
    "- " + n.title + " (" + n.source + ")"
  }

  /** f"- {e['start']} {e['name']} @ {e['venue']}" */
  function EventLine(e: EventItem): string {
    "- " + e.start + " " + e.name + " @ " + e.venue
  }

  function NewsLines(news: seq<NewsItem>): (r: seq<string>)
    ensures |r| == |news| && forall i :: 0 <= i < |news| ==> r[i] == NewsLine(news[i])
  {
    seq(|news|, i requires 0 <= i < |news| => NewsLine(news[i]))
  }

  function EventLines(events: seq<EventItem>): (r: seq<string>)
    ensures |r| == |events| && forall i :: 0 <= i < |events| ==> r[i] == EventLine(events[i])
  {
    seq(|events|, i requires 0 <= i < |events| => EventLine(events[i]))
  }

  /** The headlines section, written only when there is news. */
  function NewsSection(news: seq<NewsItem>): string {
    if news != [] then NewsHeading + Join(NewsLines(news), "\n") + "\n\n" else ""
  }

  /** The events section, written only when there are events. */
  function EventsSection(events: seq<EventItem>): string {
    if events != [] then EventsHeading + Join(EventLines(events), "\n") + "\n\n" else ""
  }

  /** The no-data marker, written only when there is neither. */
  function NoDataSection(news: seq<NewsItem>, events: seq<EventItem>): string {
    if news == [] && events == [] then NoDataMarker else ""
  }

  /** The briefing_context text for the fetched news and events. */
  function BriefingContext(news: seq<NewsItem>, events: seq<EventItem>): string {
    HeaderText + NewsSection(news) + EventsSection(events) + NoDataSection(news, events) + InstructionText
  }

  /** The briefing_context string of lines 172-181. */
  method BuildBriefingContext(news: seq<NewsItem>, events: seq<EventItem>) returns (context: string)
    ensures context == BriefingContext(news, events)
  {
    context := HeaderText;
    if news != [] {
      context := context + (NewsHeading + Join(NewsLines(news), "\n") + "\n\n");
    }
    assert context == HeaderText + NewsSection(news);
    if events != [] {
      context := context + (EventsHeading + Join(EventLines(events), "\n") + "\n\n");
    }
    assert context == HeaderText + NewsSection(news) + EventsSection(events);
    if news == [] && events == [] {
      context := context + NoDataMarker;
    }
    assert context == HeaderText + NewsSection(news) + EventsSection(events) + NoDataSection(news, events);
    context := context + InstructionText;
  }

  /** The context opens with the header and closes with the instruction. */
  lemma BriefingEnds(news: seq<NewsItem>, events: seq<EventItem>)
    ensures var c := BriefingContext(news, events);
      StartsWith(c, HeaderText) && EndsWith(c, InstructionText)
  {
    Parts5(HeaderText, NewsSection(news), EventsSection(events), NoDataSection(news, events), InstructionText);
  }

  /** In the text, right after the header comes the news heading exactly
      when there is news; without news, the events heading exactly when
      there are events; with neither, the no-data marker. */
  lemma SectionAfterHeader(news: seq<NewsItem>, events: seq<EventItem>)
    ensures var c := BriefingContext(news, events);
      var n := |HeaderText|;
      && n <= |c|
      && (StartsWith(c[n..], NewsHeading) <==> news != [])
      && (news == [] ==> (StartsWith(c[n..], EventsHeading) <==> events != []))
      && (news == [] && events == [] ==> StartsWith(c[n..], NoDataMarker))
  {
    var es, ds := EventsSection(events), NoDataSection(news, events);
    Parts5(HeaderText, NewsSection(news), es, ds, InstructionText);
    var next := NewsSection(news) + es + ds + InstructionText;
    if news != [] {
      var lines := Join(NewsLines(news), "\n");
      Parts5(NewsHeading + lines, "\n\n", es, ds, InstructionText);
      StartsWithPrefix(next, NewsHeading, lines);
    } else {
      EmptyAppend(es);
      assert next == es + ds + InstructionText;
      SectionAfterNews(news, events);
      HeadingsDiffer(next);
    }
  }

  /** The news comes before the events: right after the news section
      comes the events heading exactly when there are events, and the
      no-data marker when there is neither. */
  lemma SectionAfterNews(news: seq<NewsItem>, events: seq<EventItem>)
    ensures var c := BriefingContext(news, events);
      var m := |HeaderText| + |NewsSection(news)|;
      && m <= |c|
      && (StartsWith(c[m..], EventsHeading) <==> events != [])
      && (news == [] && events == [] ==> StartsWith(c[m..], NoDataMarker))
  {
    var es, ds := EventsSection(events), NoDataSection(news, events);
    Parts5(HeaderText, NewsSection(news), es, ds, InstructionText);
    var next := es + ds + InstructionText;
    if events != [] {
      var lines := Join(EventLines(events), "\n");
      Parts4(EventsHeading + lines, "\n\n", ds, InstructionText);
      StartsWithPrefix(next, EventsHeading, lines);
    } else if news == [] {
      EmptyAppend(NoDataMarker);
      assert next == NoDataMarker + InstructionText;
      StartsWithAppend(NoDataMarker, InstructionText);
      HeadingsDiffer(next);
    } else {
      EmptyAppend("");
      EmptyAppend(InstructionText);
      assert next == InstructionText;
      InstructionIsNoHeading(next);
    }
  }

  /** After the events section comes the no-data marker exactly when there
      is neither news nor events; with either, the instruction follows the
      sections directly. */
  lemma NoDataIffEmpty(news: seq<NewsItem>, events: seq<EventItem>)
    ensures var c := BriefingContext(news, events);
      var k := |HeaderText| + |NewsSection(news)| + |EventsSection(events)|;
      && k <= |c|
      && (StartsWith(c[k..], NoDataMarker) <==> news == [] && events == [])
      && (news != [] || events != [] ==> c[k..] == InstructionText)
  {
    var c := BriefingContext(news, events);
    var ds := NoDataSection(news, events);
    Parts5(HeaderText, NewsSection(news), EventsSection(events), ds, InstructionText);
    var k := |HeaderText| + |NewsSection(news)| + |EventsSection(events)|;
    if news == [] && events == [] {
      Parts4(HeaderText + NewsSection(news), EventsSection(events), ds, InstructionText);
      assert c[k..] == ds + InstructionText;
      StartsWithAppend(ds, InstructionText);
    } else {
      assert |ds| == 0;
      assert c[k..] == InstructionText;
      InstructionIsNoMarker(c[k..]);
    }
  }

  /** The closing instruction does not open with the no-data marker. */
  lemma InstructionIsNoMarker(next: string)
    requires next == InstructionText
    ensures !StartsWith(next, NoDataMarker)
  {
    assert InstructionText[..|NoDataMarker|][0] == InstructionText[0];
    assert InstructionText[0] == 'P' && NoDataMarker[0] == '(';
  }

  /** With one headline and no events the context is the header, the news
      heading, that headline's line and the instruction, and nothing else. */
  lemma OneHeadlineContext(n: NewsItem)
    ensures BriefingContext([n], []) == HeaderText + NewsHeading + NewsLine(n) + "\n\n" + InstructionText
  {
    assert NewsLines([n]) == [NewsLine(n)];
    assert NewsSection([n]) == NewsHeading + NewsLine(n) + "\n\n";
    assert EventsSection([]) + NoDataSection([n], []) == [];
  }

  /** The three openings differ in their first character. */
  lemma HeadingsDiffer(next: string)
    ensures StartsWith(next, EventsHeading) ==> !StartsWith(next, NewsHeading)
    ensures StartsWith(next, NoDataMarker) ==> !StartsWith(next, NewsHeading) && !StartsWith(next, EventsHeading)
  {
    assert NewsHeading[0] == 'R' && EventsHeading[0] == 'U' && NoDataMarker[0] == '(';
    if StartsWith(next, EventsHeading) {
      assert next[0] == next[..|EventsHeading|][0];
    }
    if StartsWith(next, NoDataMarker) {
      assert next[0] == next[..|NoDataMarker|][0];
    }
  }

  /** The closing instruction does not open with the events heading. */
  lemma InstructionIsNoHeading(next: string)
    requires next == InstructionText
    ensures !StartsWith(next, EventsHeading)
  {
    assert InstructionText[..|EventsHeading|][0] == InstructionText[0];
    assert InstructionText[0] == 'P' && EventsHeading[0] == 'U';
  }

  /** One line per news item, in input order: one more item adds exactly
      its own line at the end of the section. */
  lemma {:induction false} NewsSectionSnoc(news: seq<NewsItem>, n: NewsItem)
    requires news != []
    ensures NewsSection(news + [n])
         == NewsHeading + Join(NewsLines(news), "\n") + "\n" + NewsLine(n) + "\n\n"
  {
    assert NewsLines(news + [n]) == NewsLines(news) + [NewsLine(n)];
    JoinSnoc(NewsLines(news), NewsLine(n), "\n");
  }

  /** One line per event, in input order. */
  lemma {:induction false} EventsSectionSnoc(events: seq<EventItem>, e: EventItem)
    requires events != []
    ensures EventsSection(events + [e])
         == EventsHeading + Join(EventLines(events), "\n") + "\n" + EventLine(e) + "\n\n"
  {
    assert EventLines(events + [e]) == EventLines(events) + [EventLine(e)];
    JoinSnoc(EventLines(events), EventLine(e), "\n");
  }
}
