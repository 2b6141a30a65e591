/** The console session loop: input lines are read one at a time until the
    conversation ends (an exit command) or the input does (end of file);
    blank lines are skipped, every other line becomes one User entry and one
    Bot entry; the report is produced once, from the final transcript.

    `Run` describes the session after a sequence of lines; `RunChatbot` is
    the loop itself, driving a `ChatManager`. */
module Console {
  import opened Text
  import opened Sentiment
  import opened Chat

  /** The sentiment network: the class probabilities of a statement. */
  type SentimentModel = string -> Probabilities

  /** What the loop has built so far: the transcript, the messages sent to
      the chat service, and the conversation flag. */
  datatype Session = Session(history: seq<Entry>, chatLog: seq<string>, active: bool)

  /** The User entry `process_user_message` makes for a line. */
  function UserEntry(line: string, model: SentimentModel): Entry {
    var c := AnalyzeStatement(model(line));
    Entry(User, line, c.compound, c.sentimentLabel)
  }

  /** One loop iteration on a non-blank line: the User entry, then the bot's
      reply to the line with that entry's label. */
  function Exchange(s: Session, line: string, model: SentimentModel, chat: ChatService): Session {
    var user := UserEntry(line, model);
    var r := BotResponse(s.active, s.chatLog, line, user.sentimentLabel, chat);
    Session(s.history + [user, BotEntry(r.reply)], r.sent, r.active)
  }

  /** The session after the loop has been offered `lines`: lines after the
      conversation ended are never read. */
  function Run(lines: seq<string>, model: SentimentModel, chat: ChatService): Session
    decreases |lines|
  {
    if lines == [] then Session([], [], true)
    else
      var s := Run(lines[..|lines| - 1], model, chat);
      var line := lines[|lines| - 1];
      if !s.active || IsBlank(line) then s else Exchange(s, line, model, chat)
  }

  /** The non-blank lines among `lines`, in order. */
  function NonBlank(lines: seq<string>): seq<string>
    decreases |lines|
  {
    if lines == [] then []
    else
      var rest := NonBlank(lines[..|lines| - 1]);
      if IsBlank(lines[|lines| - 1]) then rest else rest + [lines[|lines| - 1]]
  }

  /** Lines none of which is blank are all kept. */
  lemma {:induction false} NonBlankKeepsNonBlankLines(lines: seq<string>)
    requires forall i :: 0 <= i < |lines| ==> !IsBlank(lines[i])
    ensures NonBlank(lines) == lines
    decreases |lines|
  {
    if lines != [] {
      var init := lines[..|lines| - 1];
      assert forall i :: 0 <= i < |init| ==> init[i] == lines[i];
      NonBlankKeepsNonBlankLines(init);
      assert !IsBlank(lines[|lines| - 1]);
      assert init + [lines[|lines| - 1]] == lines;
    }
  }

  predicate NoExitCommand(lines: seq<string>) {
    forall i :: 0 <= i < |lines| ==> !IsExitCommand(lines[i])
  }

  /** `run_chatbot`'s loop over the input lines, then the report. The loop
      ends by an exit command or by the end of the input (EOFError), and the
      report is generated once, from the transcript the loop left. */
  method RunChatbot(inputs: seq<string>, model: SentimentModel, chat: ChatService, fmt: ScoreFormat, summarize: Summarizer)
    returns (report: seq<ReportPart>, transcript: seq<Entry>, sent: seq<string>)
    ensures transcript == Run(inputs, model, chat).history
    ensures sent == Run(inputs, model, chat).chatLog
    ensures report == ConversationReport(transcript, LlmSummary(transcript, fmt, summarize))
  {
    var manager := new ChatManager();
    var i := 0;
    while manager.conversationActive
      invariant 0 <= i <= |inputs|
      invariant manager.history == Run(inputs[..i], model, chat).history
      invariant manager.chatLog == Run(inputs[..i], model, chat).chatLog
      invariant manager.conversationActive ==> Run(inputs[..i], model, chat).active
      invariant !manager.conversationActive ==> i == |inputs| || !Run(inputs[..i], model, chat).active
      decreases |inputs| - i + (if manager.conversationActive then 1 else 0)
    {
      if i == |inputs| {
        // input() raises EOFError
        manager.conversationActive := false;
      } else {
        var userInput := inputs[i];
        i := i + 1;
        assert inputs[..i][..i - 1] == inputs[..i - 1];
        if IsBlank(userInput) {
          continue;
        }
        manager.ProcessUserMessage(userInput, AnalyzeStatement(model(userInput)));
        var currentSentiment := manager.history[|manager.history| - 1].sentimentLabel;
        var botResponse := manager.GetBotResponse(userInput, currentSentiment, chat);
        manager.AddBotMessage(botResponse);
      }
    }
    if i < |inputs| {
      RunIgnoresLinesAfterEnd(inputs[..i], inputs[i..], model, chat);
      assert inputs[..i] + inputs[i..] == inputs;
    } else {
      assert inputs[..i] == inputs;
    }
    report := manager.GenerateConversationReport(fmt, summarize);
    transcript := manager.history;
    sent := manager.chatLog;
  }

  /** Once the conversation has ended, further lines change nothing. */
  lemma {:induction false} RunIgnoresLinesAfterEnd(xs: seq<string>, ys: seq<string>, model: SentimentModel, chat: ChatService)
    requires !Run(xs, model, chat).active
    ensures Run(xs + ys, model, chat) == Run(xs, model, chat)
    decreases |ys|
  {
    if ys == [] {
      assert xs + ys == xs;
    } else {
      var init := ys[..|ys| - 1];
      assert (xs + ys)[..|xs + ys| - 1] == xs + init;
      RunIgnoresLinesAfterEnd(xs, init, model, chat);
    }
  }

  /** A blank line anywhere in the input has no effect. */
  lemma {:induction false} RunSkipsBlankLine(xs: seq<string>, b: string, ys: seq<string>, model: SentimentModel, chat: ChatService)
    requires IsBlank(b)
    ensures Run(xs + [b] + ys, model, chat) == Run(xs + ys, model, chat)
    decreases |ys|
  {
    if ys == [] {
      assert (xs + [b] + ys)[..|xs| ] == xs;
      assert xs + ys == xs;
    } else {
      var init := ys[..|ys| - 1];
      assert (xs + [b] + ys)[..|xs + [b] + ys| - 1] == xs + [b] + init;
      assert (xs + ys)[..|xs + ys| - 1] == xs + init;
      RunSkipsBlankLine(xs, b, init, model, chat);
    }
  }

  /** At every point the transcript alternates User and Bot entries starting
      with User (so its length is even), Bot entries carry the fixed score and
      label, User entries a classifier label, and the chat service has been
      sent at most one message per exchange. */
  lemma {:induction false} RunWellFormed(lines: seq<string>, model: SentimentModel, chat: ChatService)
    ensures Alternating(Run(lines, model, chat).history)
    ensures SentinelsHold(Run(lines, model, chat).history)
    ensures |Run(lines, model, chat).chatLog| <= |Run(lines, model, chat).history| / 2
    decreases |lines|
  {
    if lines != [] {
      var init := lines[..|lines| - 1];
      RunWellFormed(init, model, chat);
      var s := Run(init, model, chat);
      var line := lines[|lines| - 1];
      if s.active && !IsBlank(line) {
        var user := UserEntry(line, model);
        var r := BotResponse(s.active, s.chatLog, line, user.sentimentLabel, chat);
        assert Run(lines, model, chat) == Session(s.history + [user, BotEntry(r.reply)], r.sent, r.active);
        assert |r.sent| <= |s.chatLog| + 1;
        ExchangeKeepsWellFormed(s.history, user, r.reply);
      }
    }
  }

  /** Without an exit command the conversation stays active, and the session
      is exactly one exchange per non-blank line: the k-th User entry is the
      k-th non-blank line with its classification, the k-th prompt carries
      that entry's label and text, and the k-th Bot entry is the reply the
      chat service gave to that prompt in the context of the earlier ones. */
  lemma {:induction false} RunWithoutExitCommand(lines: seq<string>, model: SentimentModel, chat: ChatService)
    requires NoExitCommand(lines)
    ensures var s := Run(lines, model, chat);
      && s.active
      && |s.history| == 2 * |NonBlank(lines)|
      && |s.chatLog| == |NonBlank(lines)|
      && forall k :: 0 <= k < |NonBlank(lines)| ==>
           && s.history[2 * k] == UserEntry(NonBlank(lines)[k], model)
           && s.chatLog[k] == Prompt(s.history[2 * k].sentimentLabel, s.history[2 * k].message)
           && s.history[2 * k + 1] == BotEntry(ReplyText(chat(s.chatLog[..k], s.chatLog[k])))
    decreases |lines|
  {
    if lines != [] {
      var init := lines[..|lines| - 1];
      var line := lines[|lines| - 1];
      assert NoExitCommand(init) by {
        forall i | 0 <= i < |init| ensures !IsExitCommand(init[i]) {
          assert init[i] == lines[i];
        }
      }
      assert !IsExitCommand(line);
      RunWithoutExitCommand(init, model, chat);
      var s := Run(init, model, chat);
      var n := NonBlank(init);
      if !IsBlank(line) {
        var t := Run(lines, model, chat);
        var user := UserEntry(line, model);
        var prompt := Prompt(user.sentimentLabel, line);
        assert t.history == s.history + [user, BotEntry(ReplyText(chat(s.chatLog, prompt)))];
        assert t.chatLog == s.chatLog + [prompt];
        assert NonBlank(lines) == n + [line];
        forall k | 0 <= k < |NonBlank(lines)|
          ensures t.history[2 * k] == UserEntry(NonBlank(lines)[k], model)
          ensures t.chatLog[k] == Prompt(t.history[2 * k].sentimentLabel, t.history[2 * k].message)
          ensures t.history[2 * k + 1] == BotEntry(ReplyText(chat(t.chatLog[..k], t.chatLog[k])))
        {
          if k < |n| {
            assert t.history[2 * k] == s.history[2 * k];
            assert t.history[2 * k + 1] == s.history[2 * k + 1];
            assert t.chatLog[..k] == s.chatLog[..k];
          } else {
            assert t.chatLog[..k] == s.chatLog;
          }
        }
      }
    }
  }

  /** An exit command is never blank, so it always reaches the manager. */
  lemma ExitCommandIsNotBlank(line: string)
    requires IsExitCommand(line)
    ensures !IsBlank(line)
  {
    var w := Lower(line);
    assert w == "bye" || w == "exit" || w == "quit" || w == "end";
    assert 'a' <= w[0] <= 'z';
    assert !IsSpace(line[0]);
  }

  /** The first exit command ends the conversation right after its own User
      and Bot entries (the farewell), without a message to the chat
      service; later lines are never read. */
  lemma RunStopsAtExitCommand(xs: seq<string>, x: string, ys: seq<string>, model: SentimentModel, chat: ChatService)
    requires NoExitCommand(xs) && IsExitCommand(x)
    ensures Run(xs + [x] + ys, model, chat)
            == Session(Run(xs, model, chat).history + [UserEntry(x, model), BotEntry(Farewell)], Run(xs, model, chat).chatLog, false)
  {
    RunWithoutExitCommand(xs, model, chat);
    ExitCommandIsNotBlank(x);
    assert (xs + [x])[..|xs|] == xs;
    RunIgnoresLinesAfterEnd(xs + [x], ys, model, chat);
  }

  /** "bye" ends the session after one exchange and the next line is
      never read. */
  lemma ByeEndsTheSession(lines: seq<string>, model: SentimentModel, chat: ChatService)
    requires lines == ["bye", "hello"]
    ensures Run(lines, model, chat) == Session([UserEntry("bye", model), BotEntry(Farewell)], [], false)
  {
    ExitCommandExamples();
    RunStopsAtExitCommand([], "bye", ["hello"], model, chat);
    assert [] + ["bye"] + ["hello"] == lines;
  }

  /** Two ordinary lines make two exchanges, each sent to the chat service. */
  lemma TwoOrdinaryLines(lines: seq<string>, model: SentimentModel, chat: ChatService)
    requires |lines| == 2 && NoExitCommand(lines)
    requires !IsBlank(lines[0]) && !IsBlank(lines[1])
    ensures Run(lines, model, chat).active
    ensures |Run(lines, model, chat).history| == 4
    ensures Run(lines, model, chat).chatLog
            == [Prompt(UserEntry(lines[0], model).sentimentLabel, lines[0]),
                Prompt(UserEntry(lines[1], model).sentimentLabel, lines[1])]
  {
    NonBlankKeepsNonBlankLines(lines);
    RunWithoutExitCommand(lines, model, chat);
    var t := Run(lines, model, chat);
    assert t.history[0] == UserEntry(lines[0], model) && t.history[2] == UserEntry(lines[1], model);
    assert t.chatLog[0] == Prompt(t.history[0].sentimentLabel, t.history[0].message);
    assert t.chatLog[1] == Prompt(t.history[2].sentimentLabel, t.history[2].message);
  }

  /** The exit rule sees the unstripped line: " bye " is an ordinary
      message, sent to the chat service like "hello" after it, and the
      session goes on. */
  lemma PaddedByeDoesNotEndTheSession(lines: seq<string>, model: SentimentModel, chat: ChatService)
    requires lines == [" bye ", "hello"]
    ensures Run(lines, model, chat).active
    ensures |Run(lines, model, chat).history| == 4
    ensures Run(lines, model, chat).chatLog
            == [Prompt(UserEntry(" bye ", model).sentimentLabel, " bye "),
                Prompt(UserEntry("hello", model).sentimentLabel, "hello")]
  {
    assert NoExitCommand(lines) by {
      ExitCommandExamples();
      assert !IsExitCommand("hello") by { assert |Lower("hello")| == 5; }
    }
    NotBlank(lines[0], 1);
    NotBlank(lines[1], 0);
    TwoOrdinaryLines(lines, model, chat);
  }
}
