/** Command routing: which user messages ask for the daily briefing
    (streamlit_app.py, the test on line 167). */
module Routing {
  import opened Text

  /** The one command the app recognises. */
  const BriefCommand := "/brief"

  /** user_input.strip().lower().startswith("/brief") */
  predicate IsBriefing(input: string) {
    StartsWith(Lower(Strip(input)), BriefCommand)
  }

  /** t begins with the command, compared case-insensitively. */
  predicate SpellsCommand(t: string) {
    |t| >= |BriefCommand| &&
    forall i :: 0 <= i < |BriefCommand| ==> LowerChar(t[i]) == BriefCommand[i]
  }

  lemma StartsWithLowerIff(t: string)
    ensures StartsWith(Lower(t), BriefCommand) <==> SpellsCommand(t)
  {
    if SpellsCommand(t) {
      assert Lower(t)[..|BriefCommand|] == BriefCommand;
    }
    if StartsWith(Lower(t), BriefCommand) {
      assert forall i :: 0 <= i < |BriefCommand| ==> Lower(t)[..|BriefCommand|][i] == BriefCommand[i];
    }
  }

  /** Trailing whitespace never reaches into the command. */
  lemma TrimEndKeepsCommand(t: string)
    ensures SpellsCommand(TrimEnd(t)) <==> SpellsCommand(t)
  {
    var u := TrimEnd(t);
    var n := |BriefCommand|;
    TrimEndSpec(t);
    if SpellsCommand(t) {
      assert LowerChar(t[n - 1]) == 'f';
      assert !IsSpace(t[n - 1]);
      assert |u| >= n;
    }
  }

  /** Reference statement of the routing rule: once the leading whitespace
      is skipped, the next six characters spell "/brief" in any mix of
      cases. Trailing whitespace and anything after the command are
      irrelevant. */
  lemma {:induction false} BriefingIffCommandAfterSpaces(input: string)
    ensures IsBriefing(input) <==> SpellsCommand(TrimStart(input))
  {
    StartsWithLowerIff(Strip(input));
    TrimEndKeepsCommand(TrimStart(input));
  }

  /** A message whose first non-space character is at k routes by what
      follows position k. */
  lemma RoutesFrom(s: string, k: nat)
    requires k < |s| && !IsSpace(s[k])
    requires forall i :: 0 <= i < k ==> IsSpace(s[i])
    ensures IsBriefing(s) <==> SpellsCommand(s[k..])
  {
    var r := TrimStart(s);
    TrimStartSpec(s);
    assert |s| - |r| == k;
    BriefingIffCommandAfterSpaces(s);
  }

  /** Surrounding spaces and upper case are accepted, and text after the
      command is ignored. */
  lemma UpperCaseBriefing()
    ensures IsBriefing("  /BRIEF now")
  {
    var s := "  /BRIEF now";
    var t := "/BRIEF now";
    assert t[0] == '/' && t[1] == 'B' && t[2] == 'R' && t[3] == 'I' && t[4] == 'E' && t[5] == 'F';
    assert BriefCommand[0] == '/' && BriefCommand[1] == 'b' && BriefCommand[2] == 'r';
    assert BriefCommand[3] == 'i' && BriefCommand[4] == 'e' && BriefCommand[5] == 'f';
    assert SpellsCommand(t);
    assert s[2..] == t;
    assert s[0] == ' ' && s[1] == ' ' && s[2] == '/';
    RoutesFrom(s, 2);
  }

  /** The bare command is a briefing request. */
  lemma CommandIsBriefing()
    ensures IsBriefing(BriefCommand)
  {
    var t := BriefCommand;
    assert t[0] == '/' && t[1] == 'b' && t[2] == 'r' && t[3] == 'i' && t[4] == 'e' && t[5] == 'f';
    assert SpellsCommand(t);
    RoutesFrom(t, 0);
  }

  /** Ordinary text is plain chat. */
  lemma GreetingIsPlainChat()
    ensures !IsBriefing("hello")
  {
    RoutesFrom("hello", 0);
  }

  /** The command counts only at the start of the message. */
  lemma CommandMidTextIsPlainChat()
    ensures !IsBriefing("please /brief")
  {
    RoutesFrom("please /brief", 0);
  }
}
