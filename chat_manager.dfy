/** The conversation session: its append-only transcript, the one-way
    "conversation active" flag, the reply orchestration around the chat
    service, and the structure of the final report. The two language-model
    services are inputs (oracles), so every answer they could give, and every
    failure, is covered. */
module Chat {
  import opened Text
  import opened Sentiment

  datatype Speaker = User | Bot

  /** One transcript entry. */
  datatype Entry = Entry(speaker: Speaker, message: string, sentimentScore: real, sentimentLabel: Label)

  /** What a call to a language-model service gives back: its text, or the
      description of the exception it raised. */
  datatype Reply = Answer(text: string) | Failure(detail: string)

  /** The stateful chat service: its answer to a message may depend on every
      message the session sent it before. */
  type ChatService = (seq<string>, string) -> Reply

  /** The stateless summary service, given the formatted transcript (the
      fixed analyst instructions that precede it belong to the service). */
  type Summarizer = string -> Reply

  /** Rendering of a score with three decimals (`:.3f`). */
  type ScoreFormat = real -> string

  const ExitCommands: seq<string> := ["bye", "exit", "quit", "end"]

  const Farewell: string :=
    "Thank you for sharing your thoughts! I'm ready to generate the sentiment report now."

  const Apology: string :=
    "I apologize, I've run into an issue processing your request. Could you try rephrasing that?"

  /** The exit rule: the lower-cased input, unstripped, is one of the exit
      commands. */
  predicate IsExitCommand(input: string) {
    Lower(input) in ExitCommands
  }

  /** `s` spells `w` with any of its letters capitalised. */
  predicate SameIgnoringCase(s: string, w: string) {
    |s| == |w| && forall i :: 0 <= i < |s| ==> s[i] == w[i] || s[i] as int == w[i] as int - 32
  }

  /** The exit rule is a case-insensitive comparison with the exit commands,
      and nothing else: no whitespace or other characters are tolerated. */
  lemma ExitCommandIsCaseInsensitiveMatch(input: string)
    ensures IsExitCommand(input) <==> exists w :: w in ExitCommands && SameIgnoringCase(input, w)
  {
    forall w | w in ExitCommands
      ensures Lower(input) == w <==> SameIgnoringCase(input, w)
    {
      if |input| == |w| {
        forall i | 0 <= i < |w| ensures LowerChar(input[i]) == w[i] <==> input[i] == w[i] || input[i] as int == w[i] as int - 32 {
          LowerCharToSmallLetter(input[i], w[i]);
        }
        if SameIgnoringCase(input, w) {
          assert forall i :: 0 <= i < |w| ==> Lower(input)[i] == w[i];
        }
      }
    }
  }

  /** Worked cases of the exit rule: capitals are accepted, surrounding
      spaces are not. */
  lemma ExitCommandExamples()
    ensures IsExitCommand("bye") && IsExitCommand("BYE") && IsExitCommand("Exit") && IsExitCommand("quit")
    ensures !IsExitCommand(" bye ") && !IsExitCommand("goodbye") && !IsExitCommand("")
  {
    assert Lower("bye") == "bye";
    assert Lower("BYE") == "bye";
    assert Lower("Exit") == "exit";
    assert Lower("quit") == "quit";
    assert |Lower(" bye ")| == 5;
    assert |Lower("goodbye")| == 7;
  }

  /** The message sent to the chat service for a non-exit input. */
  function Prompt(sentimentLabel: Label, input: string): string {
    "Sentiment detected: " + sentimentLabel.Name() + ". User message: " + input
  }

  /** Reads the label back out of a prompt: the label names differ in their
      first or third letter, which sit at positions 20 and 22. */
  function PromptLabel(p: string): Label
    requires |p| > 22
  {
    if p[20] == 'P' then Positive else if p[22] == 'g' then Negative else Neutral
  }

  lemma PromptLabelRecovered(l: Label, x: string)
    ensures |Prompt(l, x)| > 22 && PromptLabel(Prompt(l, x)) == l
  {
    var p := Prompt(l, x);
    assert p[20] == l.Name()[0] && p[22] == l.Name()[2];
  }

  /** The prompt keeps both the classifier's label and the user's text
      recoverable: different (label, input) pairs never give the same prompt. */
  lemma PromptInjective(l1: Label, x1: string, l2: Label, x2: string)
    requires Prompt(l1, x1) == Prompt(l2, x2)
    ensures l1 == l2 && x1 == x2
  {
    PromptLabelRecovered(l1, x1);
    PromptLabelRecovered(l2, x2);
    var n := 20 + |l1.Name()| + 16;
    assert x1 == Prompt(l1, x1)[n..];
    assert x2 == Prompt(l2, x2)[n..];
  }

  /** The text shown for a chat-service reply: the stripped answer, or the
      fixed apology when the service failed. */
  function ReplyText(r: Reply): (text: string)
    ensures r.Failure? ==> text == Apology
    ensures r.Answer? ==> text == Strip(r.text)
  {
    match r
    case Answer(t) => Strip(t)
    case Failure(_) => Apology
  }

  /** Effect of one `get_bot_response` call: the reply, the new flag and the
      messages the chat service has been sent. */
  datatype Response = Response(reply: string, active: bool, sent: seq<string>)

  function BotResponse(active: bool, sent: seq<string>, input: string, sentimentLabel: Label, chat: ChatService): Response
  {
    if IsExitCommand(input) then Response(Farewell, false, sent)
    else
      var prompt := Prompt(sentimentLabel, input);
      Response(ReplyText(chat(sent, prompt)), active, sent + [prompt])
  }

  /** The transcript alternates User and Bot entries, starting with User. */
  predicate Alternating(h: seq<Entry>) {
    |h| % 2 == 0 && forall i :: 0 <= i < |h| ==> h[i].speaker == (if i % 2 == 0 then User else Bot)
  }

  /** Every Bot entry carries the fixed score 0.0 and label Neutral. */
  predicate SentinelsHold(h: seq<Entry>) {
    forall i :: 0 <= i < |h| ==>
      h[i].speaker == Bot ==> h[i].sentimentScore == 0.0 && h[i].sentimentLabel == Neutral
  }

  function BotEntry(message: string): Entry {
    Entry(Bot, message, 0.0, Neutral)
  }

  /** `get_user_compound_scores`: the scores of the User entries. */
  function UserScores(h: seq<Entry>): (r: seq<real>)
    ensures |r| <= |h|
    decreases |h|
  {
    if h == [] then []
    else (if h[0].speaker == User then [h[0].sentimentScore] else []) + UserScores(h[1..])
  }

  /** Extracting the scores commutes with concatenating transcripts, so the
      scores come out in transcript order. */
  lemma {:induction false} UserScoresAppend(a: seq<Entry>, b: seq<Entry>)
    ensures UserScores(a + b) == UserScores(a) + UserScores(b)
    decreases |a|
  {
    if a == [] {
      assert a + b == b;
    } else {
      assert (a + b)[0] == a[0];
      assert (a + b)[1..] == a[1..] + b;
      UserScoresAppend(a[1..], b);
      var head := if a[0].speaker == User then [a[0].sentimentScore] else [];
      assert UserScores(a + b) == head + UserScores(a[1..] + b);
      assert UserScores(a) == head + UserScores(a[1..]);
    }
  }

  /** Every extracted score belongs to some User entry. */
  lemma {:induction false} UserScoresFromUserEntries(h: seq<Entry>, x: real)
    requires x in UserScores(h)
    ensures exists i :: 0 <= i < |h| && h[i].speaker == User && h[i].sentimentScore == x
    decreases |h|
  {
    if !(h[0].speaker == User && h[0].sentimentScore == x) {
      UserScoresFromUserEntries(h[1..], x);
      var i :| 0 <= i < |h[1..]| && h[1..][i].speaker == User && h[1..][i].sentimentScore == x;
      assert h[i + 1] == h[1..][i];
    }
  }

  /** Every User entry's score is extracted. */
  lemma {:induction false} UserEntryScoreExtracted(h: seq<Entry>, i: nat)
    requires i < |h| && h[i].speaker == User
    ensures h[i].sentimentScore in UserScores(h)
    decreases |h|
  {
    if i > 0 {
      UserEntryScoreExtracted(h[1..], i - 1);
      assert h[1..][i - 1] == h[i];
    }
  }

  /** Number of User entries in a transcript. */
  function CountUser(h: seq<Entry>): nat
    decreases |h|
  {
    if h == [] then 0 else (if h[0].speaker == User then 1 else 0) + CountUser(h[1..])
  }

  /** There is one extracted score per User entry. */
  lemma {:induction false} UserScoresCount(h: seq<Entry>)
    ensures |UserScores(h)| == CountUser(h)
    decreases |h|
  {
    if h != [] {
      UserScoresCount(h[1..]);
    }
  }

  /** An alternating transcript starts with one User/Bot exchange followed
      by another alternating transcript. */
  lemma AlternatingTail(h: seq<Entry>)
    requires Alternating(h) && h != []
    ensures |h| >= 2 && h[0].speaker == User && h[1].speaker == Bot
    ensures Alternating(h[2..])
  {
    assert h[0].speaker == User;
    assert h[1].speaker == Bot;
    var rest := h[2..];
    forall i | 0 <= i < |rest| ensures rest[i].speaker == (if i % 2 == 0 then User else Bot) {
      assert rest[i] == h[i + 2];
    }
  }

  /** Appending a User entry and a Bot entry keeps a transcript well formed. */
  lemma ExchangeKeepsWellFormed(h: seq<Entry>, user: Entry, reply: string)
    requires Alternating(h) && SentinelsHold(h) && user.speaker == User
    ensures Alternating(h + [user, BotEntry(reply)])
    ensures SentinelsHold(h + [user, BotEntry(reply)])
  {
    var t := h + [user, BotEntry(reply)];
    forall i | 0 <= i < |t|
      ensures t[i].speaker == (if i % 2 == 0 then User else Bot)
      ensures t[i].speaker == Bot ==> t[i].sentimentScore == 0.0 && t[i].sentimentLabel == Neutral
    {
      if i < |h| {
        assert t[i] == h[i];
      }
    }
  }

  /** The scores of a transcript that opens with a User/Bot exchange. */
  lemma UserScoresOfExchange(h: seq<Entry>)
    requires |h| >= 2 && h[0].speaker == User && h[1].speaker == Bot
    ensures UserScores(h) == [h[0].sentimentScore] + UserScores(h[2..])
  {
    assert UserScores(h[1..]) == UserScores(h[2..]) by {
      var t := h[1..];
      assert t[0].speaker == Bot && t[1..] == h[2..];
      assert UserScores(t) == [] + UserScores(t[1..]);
    }
  }

  /** On an alternating transcript there is one score per exchange, the k-th
      being the score of the k-th user statement. */
  lemma {:induction false} UserScoresOfAlternating(h: seq<Entry>)
    requires Alternating(h)
    ensures |UserScores(h)| == |h| / 2
    ensures forall k :: 0 <= k < |h| / 2 ==> UserScores(h)[k] == h[2 * k].sentimentScore
    decreases |h|
  {
    if h != [] {
      var rest := h[2..];
      AlternatingTail(h);
      UserScoresOfAlternating(rest);
      UserScoresOfExchange(h);
      var scores := UserScores(h);
      forall k | 0 <= k < |h| / 2 ensures scores[k] == h[2 * k].sentimentScore {
        if k > 0 {
          assert scores[k] == UserScores(rest)[k - 1];
          assert rest[2 * (k - 1)] == h[2 * k];
        }
      }
    }
  }

  /** One transcript line of the summary request. */
  function FormatEntry(e: Entry, fmt: ScoreFormat): string {
    if e.speaker == User then
      "User (Sentiment: " + e.sentimentLabel.Name() + " / Score: " + fmt(e.sentimentScore) + "): " + e.message
    else
      "Bot: " + e.message
  }

  /** The transcript lines of the summary request, one per entry. */
  function FormattedTranscript(h: seq<Entry>, fmt: ScoreFormat): (r: seq<string>)
    ensures |r| == |h|
  {
    seq(|h|, i requires 0 <= i < |h| => FormatEntry(h[i], fmt))
  }

  /** The transcript as the summary service receives it: the entries, one
      per line. */
  function TranscriptText(h: seq<Entry>, fmt: ScoreFormat): string {
    JoinWith("\n", FormattedTranscript(h, fmt))
  }

  /** The transcript as chat_manager.py:159 joins it under Python 3.12 and
      later: the separator `'\\n'` is a backslash followed by `n`, not a
      line break. */
  function TranscriptTextAsWritten(h: seq<Entry>, fmt: ScoreFormat): string {
    JoinWith("\\n", FormattedTranscript(h, fmt))
  }

  /** Entries whose formatted lines hold no line break reach the summary
      service one per line, in transcript order. */
  lemma TranscriptOneLinePerEntry(h: seq<Entry>, fmt: ScoreFormat)
    requires h != []
    requires forall k :: 0 <= k < |h| ==> '\n' !in FormatEntry(h[k], fmt)
    ensures SplitLines(TranscriptText(h, fmt)) == FormattedTranscript(h, fmt)
    ensures |SplitLines(TranscriptText(h, fmt))| == |h|
  {
    var lines := FormattedTranscript(h, fmt);
    assert forall k :: 0 <= k < |lines| ==> lines[k] == FormatEntry(h[k], fmt);
    SplitJoinedLines(lines);
  }

  /** With the separator as written, the same transcript arrives as a
      single line, so two or more entries are run together. */
  lemma TranscriptAsWrittenIsOneLine(h: seq<Entry>, fmt: ScoreFormat)
    requires forall k :: 0 <= k < |h| ==> '\n' !in FormatEntry(h[k], fmt)
    ensures SplitLines(TranscriptTextAsWritten(h, fmt)) == [TranscriptTextAsWritten(h, fmt)]
  {
    var lines := FormattedTranscript(h, fmt);
    assert forall k :: 0 <= k < |lines| ==> lines[k] == FormatEntry(h[k], fmt);
    assert '\n' !in "\\n" by {
      assert "\\n"[0] == '\\' && "\\n"[1] == 'n';
    }
    JoinWithoutNewline("\\n", lines);
  }

  /** A two-line exchange such as "User ...: hi", "Bot: hello" is two lines
      when joined with a line break and one line when joined as written. */
  lemma JoinAsWrittenExample(a: string, b: string)
    requires '\n' !in a && '\n' !in b
    ensures SplitLines(JoinWith("\n", [a, b])) == [a, b]
    ensures |SplitLines(JoinWith("\\n", [a, b]))| == 1
  {
    SplitJoinedLines([a, b]);
    assert '\n' !in "\\n" by {
      assert "\\n"[0] == '\\' && "\\n"[1] == 'n';
    }
    JoinWithoutNewline("\\n", [a, b]);
  }

  function SummaryErrorText(detail: string): string {
    "\n--- LLM Summary Error: Could not generate detailed report due to API issue: " + detail + " ---"
  }

  /** `_generate_llm_summary`: the summary service's stripped answer over the
      formatted transcript, or an inline error text when it fails. */
  function LlmSummary(h: seq<Entry>, fmt: ScoreFormat, summarize: Summarizer): string {
    match summarize(TranscriptText(h, fmt))
    case Answer(t) => Strip(t)
    case Failure(e) => SummaryErrorText(e)
  }

  /** The summary is the service's answer without its surrounding
      whitespace (exactly the part between the leading and the trailing
      whitespace, empty only for an all-whitespace answer), or, when the call fails, an error text that carries the
      failure's detail; either way there is a text for the report. */
  lemma LlmSummaryOutcome(h: seq<Entry>, fmt: ScoreFormat, summarize: Summarizer)
    ensures var r := LlmSummary(h, fmt, summarize);
      match summarize(TranscriptText(h, fmt))
      case Answer(t) =>
        var n := LeadingSpaces(t);
        && OccursAt(r, t, n)
        && (forall i :: 0 <= i < n ==> IsSpace(t[i]))
        && (forall i :: n + |r| <= i < |t| ==> IsSpace(t[i]))
        && (r != [] ==> !IsSpace(r[0]) && !IsSpace(r[|r| - 1]))
        && (r == [] <==> forall i :: 0 <= i < |t| ==> IsSpace(t[i]))
      case Failure(e) =>
        Contains(r, e)
  {
    var r := LlmSummary(h, fmt, summarize);
    match summarize(TranscriptText(h, fmt))
    case Answer(t) =>
      StripSpec(t);
      var n := LeadingSpaces(t);
      assert t[n..n + |r|] == r;
    case Failure(e) =>
      var k := |SummaryErrorText("")| - 4;
      assert OccursAt(e, r, k);
  }

  /** The blocks of the report, in order. */
  datatype ReportPart =
    | Banner                           // rule, title, rule
    | Tier1Heading
    | OverallSentiment(overall: Overall)
    | AverageScore(average: real)      // rendered with three decimals
    | Tier23Heading
    | Analysis(text: string)           // the summary or its error text
    | NoHistory
    | ClosingRule

  /** The Tier-1 section: the overall label, then the average line when
      there is at least one user score. */
  function Tier1Section(scores: seq<real>): seq<ReportPart> {
    [Banner, Tier1Heading, OverallSentiment(AggregateSentiment(scores))]
    + (if scores != [] then [AverageScore(Mean(scores))] else [])
  }

  /** The report `generate_conversation_report` assembles from a transcript,
      given the text the summary service's call would produce (asked for
      only when the transcript is not empty). */
  function ConversationReport(h: seq<Entry>, summary: string): seq<ReportPart> {
    Tier1Section(UserScores(h)) + [Tier23Heading, if h != [] then Analysis(summary) else NoHistory, ClosingRule]
  }

  lemma Tier1Shape(scores: seq<real>)
    ensures var t := Tier1Section(scores);
      && |t| == (if scores != [] then 4 else 3)
      && t[2] == OverallSentiment(AggregateSentiment(scores))
      && (scores != [] ==> t[3] == AverageScore(Mean(scores)))
      && forall i :: 0 <= i < |t| ==> !t[i].Analysis? && !t[i].NoHistory? && (t[i].AverageScore? ==> i == 3)
  {
  }

  /** The Tier-1 section states the overall label of the user scores, and
      has an average line exactly when there is a user score, holding their
      mean. */
  lemma ReportTier1(h: seq<Entry>, summary: string)
    ensures var r := ConversationReport(h, summary);
      && r[2] == OverallSentiment(AggregateSentiment(UserScores(h)))
      && ((exists i :: 0 <= i < |r| && r[i].AverageScore?) <==> UserScores(h) != [])
      && (forall i :: 0 <= i < |r| && r[i].AverageScore? ==> UserScores(h) != [] && r[i].average == Mean(UserScores(h)))
  {
    var scores := UserScores(h);
    var t := Tier1Section(scores);
    var r := ConversationReport(h, summary);
    Tier1Shape(scores);
    assert forall i :: 0 <= i < |t| ==> r[i] == t[i];
    assert forall i :: |t| <= i < |r| ==> !r[i].AverageScore?;
    if scores != [] {
      assert r[3].AverageScore?;
    }
  }

  /** The summary text is used exactly when the transcript is not empty;
      otherwise the fixed "no history" text stands in its place. */
  lemma ReportTier23(h: seq<Entry>, summary: string)
    ensures var r := ConversationReport(h, summary);
      && ((exists i :: 0 <= i < |r| && r[i].Analysis?) <==> h != [])
      && (forall i :: 0 <= i < |r| && r[i].Analysis? ==> r[i].text == summary)
      && ((exists i :: 0 <= i < |r| && r[i].NoHistory?) <==> h == [])
  {
    var t := Tier1Section(UserScores(h));
    var r := ConversationReport(h, summary);
    Tier1Shape(UserScores(h));
    assert r[|t| + 1] == if h != [] then Analysis(summary) else NoHistory;
    assert forall i :: 0 <= i < |r| && i != |t| + 1 ==> !r[i].Analysis? && !r[i].NoHistory? by {
      assert forall i :: 0 <= i < |t| ==> r[i] == t[i];
    }
  }

  /** Two reports on the same transcript differ at most in the model-written
      analysis: the Tier-1 section and the layout are the same. */
  lemma ReportDeterministicOutsideAnalysis(h: seq<Entry>, summary1: string, summary2: string)
    ensures var r1, r2 := ConversationReport(h, summary1), ConversationReport(h, summary2);
      && |r1| == |r2|
      && forall i :: 0 <= i < |r1| && !r1[i].Analysis? ==> r1[i] == r2[i]
  {
    var t := Tier1Section(UserScores(h));
    var r1, r2 := ConversationReport(h, summary1), ConversationReport(h, summary2);
    assert forall i :: 0 <= i < |r1| && i != |t| + 1 ==> r1[i] == r2[i] by {
      assert forall i :: 0 <= i < |t| ==> r1[i] == t[i] == r2[i];
    }
  }

  /** The report of an empty conversation. */
  lemma EmptyConversationReport(summary: string)
    ensures ConversationReport([], summary)
            == [Banner, Tier1Heading, OverallSentiment(NoUserInput), Tier23Heading, NoHistory, ClosingRule]
  {
  }

  /** One conversation session. `chatLog` is what the chat service has been
      sent so far, in order (its own conversation context). */
  class ChatManager {
    var history: seq<Entry>
    var conversationActive: bool
    var chatLog: seq<string>

    constructor ()
      ensures history == [] && conversationActive && chatLog == []
    {
      history := [];
      conversationActive := true;
      chatLog := [];
    }

    /** `get_bot_response`: on an exit command, clear the flag and say
        goodbye without contacting the chat service; otherwise send exactly
        one sentiment-augmented prompt and answer with the service's reply,
        or the apology when it fails. The transcript is never touched. */
    method GetBotResponse(userInput: string, sentimentLabel: Label, chat: ChatService) returns (response: string)
      modifies this
      ensures history == old(history)
      ensures IsExitCommand(userInput) ==> response == Farewell && !conversationActive && chatLog == old(chatLog)
      ensures !IsExitCommand(userInput) ==>
                conversationActive == old(conversationActive)
                && chatLog == old(chatLog) + [Prompt(sentimentLabel, userInput)]
                && response == ReplyText(chat(old(chatLog), Prompt(sentimentLabel, userInput)))
      ensures Response(response, conversationActive, chatLog)
              == BotResponse(old(conversationActive), old(chatLog), userInput, sentimentLabel, chat)
    {
      var lowered := Lower(userInput);
      if lowered in ExitCommands {
        conversationActive := false;
        return Farewell;
      }
      var messageToLlm := Prompt(sentimentLabel, userInput);
      var reply := chat(chatLog, messageToLlm);
      chatLog := chatLog + [messageToLlm];
      match reply {
        case Answer(text) => response := Strip(text);
        case Failure(_) => response := Apology;
      }
    }

    /** `process_user_message`: append one User entry carrying the
        classifier's compound score and label. */
    method ProcessUserMessage(userMessage: string, result: Classification)
      modifies this
      ensures history == old(history) + [Entry(User, userMessage, result.compound, result.sentimentLabel)]
      ensures conversationActive == old(conversationActive) && chatLog == old(chatLog)
    {
      history := history + [Entry(User, userMessage, result.compound, result.sentimentLabel)];
    }

    /** `add_bot_message`: append one Bot entry with the fixed score 0.0 and
        label "Neutral". */
    method AddBotMessage(botMessage: string)
      modifies this
      ensures history == old(history) + [BotEntry(botMessage)]
      ensures conversationActive == old(conversationActive) && chatLog == old(chatLog)
    {
      history := history + [Entry(Bot, botMessage, 0.0, Neutral)];
    }

    /** `get_user_compound_scores`, as a loop over the transcript. */
    method GetUserCompoundScores() returns (scores: seq<real>)
      ensures scores == UserScores(history)
    {
      scores := [];
      var i := 0;
      while i < |history|
        invariant 0 <= i <= |history|
        invariant scores == UserScores(history[..i])
      {
        UserScoresAppend(history[..i], [history[i]]);
        assert history[..i + 1] == history[..i] + [history[i]];
        if history[i].speaker == User {
          scores := scores + [history[i].sentimentScore];
        }
        i := i + 1;
      }
      assert history[..i] == history;
    }

    /** `_generate_llm_summary`: format every entry (User lines annotated
        with label and score, Bot lines verbatim), join them with line
        breaks and hand them to the summary service. */
    method GenerateLlmSummary(fmt: ScoreFormat, summarize: Summarizer) returns (summary: string)
      ensures summary == LlmSummary(history, fmt, summarize)
    {
      var h := history;
      var formatted: seq<string> := [];
      for i := 0 to |h|
        invariant |formatted| == i
        invariant forall k :: 0 <= k < i ==> formatted[k] == FormatEntry(h[k], fmt)
      {
        formatted := formatted + [FormatEntry(h[i], fmt)];
      }
      assert formatted == FormattedTranscript(h, fmt);
      var reply := summarize(JoinWith("\n", formatted));
      match reply {
        case Answer(text) => summary := Strip(text);
        case Failure(e) => summary := SummaryErrorText(e);
      }
    }

    /** `generate_conversation_report`: built block by block; it reads the
        session and changes nothing. */
    method GenerateConversationReport(fmt: ScoreFormat, summarize: Summarizer) returns (report: seq<ReportPart>)
      ensures report == ConversationReport(history, LlmSummary(history, fmt, summarize))
    {
      var userScores := GetUserCompoundScores();
      var overall := AggregateSentiment(userScores);
      report := [Banner];
      report := report + [Tier1Heading];
      report := report + [OverallSentiment(overall)];
      if userScores != [] {
        var avgScore := Sum(userScores) / (|userScores| as real);
        report := report + [AverageScore(avgScore)];
      }
      assert report == Tier1Section(userScores);
      ghost var tier1 := report;
      report := report + [Tier23Heading];
      var analysis := NoHistory;
      if history != [] {
        var llmReport := GenerateLlmSummary(fmt, summarize);
        analysis := Analysis(llmReport);
      }
      report := report + [analysis];
      report := report + [ClosingRule];
      assert report == tier1 + [Tier23Heading, analysis, ClosingRule];
    }
  }
}
