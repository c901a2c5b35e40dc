/** The terminal client that folds chat-stream events into its state, and what a client that
    attached late holds compared with one that was there all along. */
module TuiClient {
  import opened ChatEvents
  import opened Backlog
  import opened StreamProtocol

  datatype AgentState = Idle | Thinking | Working | Streaming | Failed

  datatype MessageKind =
    AssistantText | ToolActivity | System | ErrorLine | ResponseBoxOpen | ResponseBoxClose

  /** A chat line; icons and layout added around the text are not modelled. */
  datatype Message = Message(kind: MessageKind, content: string)

  datatype View = View(
    text: string, messages: seq<Message>, agent: AgentState, model: string, tokens: nat, steps: nat)

  const BLANK := View("", [], Idle, "", 0, 0)

  /** The state after one event. */
  function Apply(v: View, e: Event): View {
    match e
    case StepStart(_, model) =>
      v.(model := model, messages := v.messages + [Message(ResponseBoxOpen, "")], agent := Streaming)
    case TextDelta(text) =>
      v.(text := v.text + text, agent := if v.agent == Thinking then Streaming else v.agent)
    case ToolStart(name) => v.(messages := v.messages + [Message(System, name)], agent := Working)
    case ToolProgress(_) => v
    case ToolComplete(_, summary) => v.(messages := v.messages + [Message(ToolActivity, summary)])
    case StepComplete(p, c) => v.(tokens := p + c, steps := v.steps + 1)
    case Notice(line) => v.(messages := v.messages + [Message(System, line)])
    case Complete(p, c) =>
      var said := if v.text == "" then [] else [Message(AssistantText, v.text)];
      v.(text := "", messages := v.messages + said + [Message(ResponseBoxClose, "")],
         tokens := p + c, agent := Idle)
    case Tombstone(_, reason) =>
      v.(text := "", messages := v.messages + [Message(System, reason)], agent := Thinking)
    case Error(message, _) => v.(messages := v.messages + [Message(ErrorLine, message)], agent := Failed)
  }

  function Fold(v: View, events: seq<Event>): View {
    if events == [] then v else Apply(Fold(v, events[..|events| - 1]), events[|events| - 1])
  }

  class AppState {
    var messages: seq<Message>
    var streamingText: string
    var agentState: AgentState
    var model: string
    var tokens: nat
    var steps: nat

    function Current(): View
      reads this
    {
      View(streamingText, messages, agentState, model, tokens, steps)
    }

    constructor ()
      ensures Current() == BLANK
    {
      messages, streamingText, agentState, model, tokens, steps := [], "", Idle, "", 0, 0;
    }

    method OpenResponseBox()
      modifies this`messages, this`agentState
      ensures messages == old(messages) + [Message(ResponseBoxOpen, "")] && agentState == Streaming
    {
      messages := messages + [Message(ResponseBoxOpen, "")];
      agentState := Streaming;
    }

    method AppendStreaming(delta: string)
      modifies this`streamingText
      ensures streamingText == old(streamingText) + delta
    {
      streamingText := streamingText + delta;
    }

    /** Takes the streamed text, if any, into a finished message. */
    method CloseResponseBox()
      modifies this`messages, this`streamingText, this`agentState
      ensures streamingText == "" && agentState == Idle
      ensures old(streamingText) == "" ==> messages == old(messages) + [Message(ResponseBoxClose, "")]
      ensures old(streamingText) != "" ==>
                messages == old(messages)
                            + [Message(AssistantText, old(streamingText)), Message(ResponseBoxClose, "")]
    {
      if streamingText != "" {
        messages := messages + [Message(AssistantText, streamingText)];
        streamingText := "";
      }
      messages := messages + [Message(ResponseBoxClose, "")];
      agentState := Idle;
    }

    method Push(kind: MessageKind, text: string)
      modifies this`messages
      ensures messages == old(messages) + [Message(kind, text)]
    {
      messages := messages + [Message(kind, text)];
    }

    method PushError(text: string)
      modifies this`messages, this`agentState
      ensures messages == old(messages) + [Message(ErrorLine, text)] && agentState == Failed
    {
      messages := messages + [Message(ErrorLine, text)];
      agentState := Failed;
    }

    method ProcessEvent(e: Event)
      modifies this
      ensures Current() == Apply(old(Current()), e)
    {
      match e {
        case StepStart(_, newModel) =>
          model := newModel;
          agentState := Thinking;
          OpenResponseBox();
        case TextDelta(text) =>
          if agentState == Thinking {
            agentState := Streaming;
          }
          AppendStreaming(text);
        case ToolStart(name) =>
          agentState := Working;
          Push(System, name);
        case ToolProgress(_) =>
        case ToolComplete(_, summary) =>
          Push(ToolActivity, summary);
        case StepComplete(p, c) =>
          tokens := p + c;
          steps := steps + 1;
        case Notice(line) =>
          Push(System, line);
        case Complete(p, c) =>
          CloseResponseBox();
          tokens := p + c;
          agentState := Idle;
        case Tombstone(_, reason) =>
          if streamingText != "" {
            streamingText := "";
          }
          Push(System, reason);
          agentState := Thinking;
        case Error(message, _) =>
          PushError(message);
      }
    }

    /** Draining a batch of received events is the fold over them. */
    method Drain(events: seq<Event>)
      modifies this
      ensures Current() == Fold(old(Current()), events)
    {
      for i := 0 to |events|
        invariant Current() == Fold(old(Current()), events[..i])
      {
        assert events[..i + 1][..i] == events[..i];
        ProcessEvent(events[i]);
      }
      assert events[..|events|] == events;
    }
  }

  // ---------------------------------------------------------------------------------------
  // The streamed text, independently of the fold

  /** Events after which the streamed text is empty whatever it was before. */
  predicate Resets(e: Event) {
    e.Complete? || e.Tombstone?
  }

  predicate HasReset(events: seq<Event>) {
    exists i :: 0 <= i < |events| && Resets(events[i])
  }

  /** The deltas after the last reset, joined. */
  function Pending(events: seq<Event>): string {
    if events == [] || Resets(events[|events| - 1]) then ""
    else
      var e := events[|events| - 1];
      Pending(events[..|events| - 1]) + if e.TextDelta? then e.text else ""
  }

  lemma {:induction false} HasResetSnoc(events: seq<Event>)
    requires events != []
    ensures HasReset(events) <==> HasReset(events[..|events| - 1]) || Resets(events[|events| - 1])
  {
    var init := events[..|events| - 1];
    assert forall i :: 0 <= i < |init| ==> init[i] == events[i];
  }

  lemma {:induction false} ApplyText(v: View, e: Event)
    ensures Apply(v, e).text == if Resets(e) then "" else v.text + if e.TextDelta? then e.text else ""
  {
  }

  lemma {:induction false} FoldText(v: View, events: seq<Event>)
    ensures Fold(v, events).text == (if HasReset(events) then "" else v.text) + Pending(events)
  {
    if events != [] {
      var init := events[..|events| - 1];
      FoldText(v, init);
      ApplyText(Fold(v, init), events[|events| - 1]);
      HasResetSnoc(events);
    }
  }

  // ---------------------------------------------------------------------------------------
  // The rest of the view, told from the list of events

  /** The messages the event at `i` adds. */
  function Adds(events: seq<Event>, i: nat): seq<Message>
    requires i < |events|
  {
    match events[i]
    case StepStart(_, _) => [Message(ResponseBoxOpen, "")]
    case ToolStart(name) => [Message(System, name)]
    case ToolComplete(_, summary) => [Message(ToolActivity, summary)]
    case Notice(line) => [Message(System, line)]
    case Tombstone(_, reason) => [Message(System, reason)]
    case Error(message, _) => [Message(ErrorLine, message)]
    case Complete(_, _) => Answer(events, i) + [Message(ResponseBoxClose, "")]
    case _ => []
  }

  /** What has been streamed when the event at `i` comes, as a finished message. */
  function Answer(events: seq<Event>, i: nat): seq<Message>
    requires i <= |events|
  {
    if Pending(events[..i]) == "" then [] else [Message(AssistantText, Pending(events[..i]))]
  }

  function Transcript(events: seq<Event>, n: nat): seq<Message>
    requires n <= |events|
  {
    if n == 0 then [] else Transcript(events, n - 1) + Adds(events, n - 1)
  }

  lemma {:induction false} FoldStep(v: View, events: seq<Event>, n: nat)
    requires n < |events|
    ensures Fold(v, events[..n + 1]) == Apply(Fold(v, events[..n]), events[n])
  {
    assert events[..n + 1][..n] == events[..n];
  }

  lemma {:induction false} BlankFoldText(events: seq<Event>)
    ensures Fold(BLANK, events).text == Pending(events)
  {
    FoldText(BLANK, events);
    assert "" + Pending(events) == Pending(events);
  }

  lemma {:induction false} ApplyAdds(v: View, events: seq<Event>, i: nat)
    requires i < |events| && v.text == Pending(events[..i])
    ensures Apply(v, events[i]).messages == v.messages + Adds(events, i)
  {
  }

  /** The messages are those each event adds, in order. */
  lemma {:induction false} FoldMessages(events: seq<Event>, n: nat)
    requires n <= |events|
    ensures Fold(BLANK, events[..n]).messages == Transcript(events, n)
  {
    if n > 0 {
      var v := Fold(BLANK, events[..n - 1]);
      calc {
        Fold(BLANK, events[..n]).messages;
        { FoldStep(BLANK, events, n - 1); }
        Apply(v, events[n - 1]).messages;
        { BlankFoldText(events[..n - 1]); ApplyAdds(v, events, n - 1); }
        v.messages + Adds(events, n - 1);
        { FoldMessages(events, n - 1); }
        Transcript(events, n);
      }
    }
  }

  /** The assistant's messages among others. */
  function Answers(messages: seq<Message>): seq<string> {
    if messages == [] then []
    else
      var last := messages[|messages| - 1];
      Answers(messages[..|messages| - 1]) + if last.kind == AssistantText then [last.content] else []
  }

  /** The non-empty texts standing right before each `Complete`. */
  function Finished(events: seq<Event>, n: nat): seq<string>
    requires n <= |events|
  {
    if n == 0 then []
    else
      var text := Pending(events[..n - 1]);
      Finished(events, n - 1) + if events[n - 1].Complete? && text != "" then [text] else []
  }

  lemma {:induction false} AnswersConcat(a: seq<Message>, b: seq<Message>)
    ensures Answers(a + b) == Answers(a) + Answers(b)
    decreases |b|
  {
    if b == [] {
      assert a + b == a;
    } else {
      assert (a + b)[..|a + b| - 1] == a + b[..|b| - 1];
      AnswersConcat(a, b[..|b| - 1]);
    }
  }

  /** No answer is lost, and nothing else passes for one. */
  lemma {:induction false} AnswersAreKept(events: seq<Event>, n: nat)
    requires n <= |events|
    ensures Answers(Fold(BLANK, events[..n]).messages) == Finished(events, n)
  {
    FoldMessages(events, n);
    TranscriptAnswers(events, n);
  }

  lemma {:induction false} TranscriptAnswers(events: seq<Event>, n: nat)
    requires n <= |events|
    ensures Answers(Transcript(events, n)) == Finished(events, n)
  {
    if n > 0 {
      TranscriptAnswers(events, n - 1);
      AnswersConcat(Transcript(events, n - 1), Adds(events, n - 1));
      AddedAnswers(events, n - 1);
    }
  }

  lemma {:induction false} AddedAnswers(events: seq<Event>, i: nat)
    requires i < |events|
    ensures var text := Pending(events[..i]);
            Answers(Adds(events, i)) == if events[i].Complete? && text != "" then [text] else []
  {
    if events[i].Complete? {
      AnswersConcat(Answer(events, i), [Message(ResponseBoxClose, "")]);
      OneAnswer(Message(ResponseBoxClose, ""));
      OneAnswer(Message(AssistantText, Pending(events[..i])));
    } else if Adds(events, i) != [] {
      OneAnswer(Adds(events, i)[0]);
    }
  }

  lemma {:induction false} OneAnswer(m: Message)
    ensures Answers([m]) == if m.kind == AssistantText then [m.content] else []
  {
    assert [m][..0] == [];
  }

  /** No event after position `i` is one of those. */
  predicate LastOf(events: seq<Event>, i: int, kind: Event -> bool) {
    -1 <= i < |events| && (i >= 0 ==> kind(events[i])) && forall j :: i < j < |events| ==> !kind(events[j])
  }

  predicate StartsStep(e: Event) {
    e.StepStart?
  }

  predicate CountsTokens(e: Event) {
    e.StepComplete? || e.Complete?
  }

  /** Events that say what the agent is doing, whatever it did before. */
  predicate SetsAgent(e: Event) {
    e.StepStart? || e.ToolStart? || e.Complete? || e.Tombstone? || e.Error?
  }

  /** The model is that of the last `StepStart`. */
  lemma {:induction false} FoldModel(events: seq<Event>, i: int)
    requires LastOf(events, i, StartsStep)
    ensures Fold(BLANK, events).model == if i < 0 then "" else events[i].model
    decreases |events|
  {
    if events != [] && i < |events| - 1 {
      assert !StartsStep(events[|events| - 1]);
      FoldModel(events[..|events| - 1], i);
    }
  }

  /** The tokens are those of the last `StepComplete` or `Complete`. */
  lemma {:induction false} FoldTokens(events: seq<Event>, i: int)
    requires LastOf(events, i, CountsTokens)
    ensures Fold(BLANK, events).tokens ==
              if i < 0 then 0
              else if events[i].Complete? then events[i].totalPromptTokens + events[i].totalCompletionTokens
              else events[i].promptTokens + events[i].completionTokens
    decreases |events|
  {
    if events != [] && i < |events| - 1 {
      assert !CountsTokens(events[|events| - 1]);
      FoldTokens(events[..|events| - 1], i);
    }
  }

  function StepsAt(events: seq<Event>): set<int> {
    set i | 0 <= i < |events| && events[i].StepComplete?
  }

  /** One step is counted per `StepComplete`. */
  lemma {:induction false} FoldSteps(events: seq<Event>)
    ensures Fold(BLANK, events).steps == |StepsAt(events)|
  {
    if events == [] {
      assert StepsAt(events) == {};
    } else {
      var n := |events| - 1;
      FoldSteps(events[..n]);
      assert StepsAt(events) == StepsAt(events[..n]) + if events[n].StepComplete? then {n} else {};
    }
  }

  /** The agent's state is set by the last event that sets it; a delta after a retry makes it
      stream again. */
  lemma {:induction false} FoldAgent(events: seq<Event>, i: int)
    requires LastOf(events, i, SetsAgent)
    ensures Fold(BLANK, events).agent ==
              if i < 0 || events[i].Complete? then Idle
              else if events[i].StepStart? then Streaming
              else if events[i].ToolStart? then Working
              else if events[i].Error? then Failed
              else if exists j :: i < j < |events| && events[j].TextDelta? then Streaming
              else Thinking
    decreases |events|
  {
    if events != [] && i < |events| - 1 {
      var init, last := events[..|events| - 1], events[|events| - 1];
      assert !SetsAgent(last);
      FoldAgent(init, i);
      assert forall j :: 0 <= j < |init| ==> init[j] == events[j];
    }
  }

  lemma {:induction false} FoldConcat(v: View, a: seq<Event>, b: seq<Event>)
    ensures Fold(v, a + b) == Fold(Fold(v, a), b)
    decreases |b|
  {
    if b == [] {
      assert a + b == a;
    } else {
      assert (a + b)[..|a + b| - 1] == a + b[..|b| - 1];
      FoldConcat(v, a, b[..|b| - 1]);
    }
  }

  predicate IsSuffix(s: string, t: string) {
    |s| <= |t| && t[|t| - |s|..] == s
  }

  /** A client that starts blank at position `from` always holds a suffix of what an earlier
      client holds, and the two agree exactly when the earlier client held no text at `from`
      or a `Complete` or `Tombstone` has passed since. */
  lemma {:induction false} LateClientText(early: View, before: seq<Event>, since: seq<Event>)
    ensures var full, late := Fold(early, before + since).text, Fold(BLANK, since).text;
            && IsSuffix(late, full)
            && (late == full <==> Fold(early, before).text == "" || HasReset(since))
  {
    FoldConcat(early, before, since);
    FoldText(Fold(early, before), since);
    FoldText(BLANK, since);
    var held := Fold(early, before).text;
    assert "" + Pending(since) == Pending(since);
    assert |held + Pending(since)| == |held| + |Pending(since)|;
  }

  /** The header comment's promise that a client can rebuild the state from the latest
      `StepStart` fails for the streamed text of a second step. */
  lemma StepStartIsNotEnough()
    ensures exists before: seq<Event>, since: seq<Event> ::
              && since != [] && since[0].StepStart?
              && Fold(BLANK, since).text != Fold(BLANK, before + since).text
  {
    var before, since := [TextDelta("a")], [StepStart(2, "m")];
    assert before[..0] == [] && since[..0] == [];
    assert Fold(BLANK, before).text == "a" by {
      FoldText(BLANK, before);
      assert Pending(before[..0]) == "";
    }
    assert !HasReset(since);
    LateClientText(BLANK, before, since);
  }

  // ---------------------------------------------------------------------------------------
  // Over every run of the protocol

  /** In every reachable state, the text a subscriber has folded is a suffix of the text of a
      client present from the start that has read as far. */
  lemma {:induction false} SubscriberTextIsSuffix(s: State, sub: Subscriber)
    requires s.cap >= 1 && Reachable(s) && sub in s.subs
    ensures |sub.snapshot| <= sub.start <= sub.next <= |s.log|
    ensures var seen := Seen(s.log, sub);
            var full, late := Fold(BLANK, s.log[..sub.next]).text, Fold(BLANK, seen).text;
            && IsSuffix(late, full)
            && (late == full <==>
                  Fold(BLANK, s.log[..sub.start - |sub.snapshot|]).text == "" || HasReset(seen))
  {
    SubscriberSeesOneStretch(s, sub);
    var first := sub.start - |sub.snapshot|;
    LateClientText(BLANK, s.log[..first], s.log[first..sub.next]);
    PrefixSplits(s.log, first, sub.next);
  }

  lemma {:induction false} PrefixSplits(log: seq<Event>, i: nat, j: nat)
    requires i <= j <= |log|
    ensures log[..j] == log[..i] + log[i..j]
  {
  }

  /** A whole-log client holds no text right after a `Complete`, nor before the first event. */
  lemma {:induction false} TurnStartsBlank(log: seq<Event>)
    requires log == [] || log[|log| - 1].Complete?
    ensures Fold(BLANK, log).text == ""
  {
  }

  /** The events of `log` before its current turn. */
  function Earlier(log: seq<Event>): seq<Event> {
    log[..|log| - |CurrentTurn(log)|]
  }

  /** A replaying subscriber whose turn fitted the ring holds exactly the text of a client
      present from the start, if and only if that client held none when the turn began or a
      `Complete` or `Tombstone` has passed since. The first is guaranteed unless the turn before
      ended in an `Error`, which empties the ring and leaves the client's text standing. */
  lemma {:induction false} ReplayIsExact(s: State, sub: Subscriber)
    requires s.cap >= 1 && Reachable(s) && sub in s.subs && sub.replayed
    ensures sub.start <= sub.next <= |s.log|
    ensures var past, seen := Earlier(s.log[..sub.start]), Seen(s.log, sub);
            |CurrentTurn(s.log[..sub.start])| <= s.cap ==>
              && (Fold(BLANK, seen).text == Fold(BLANK, s.log[..sub.next]).text <==>
                    Fold(BLANK, past).text == "" || HasReset(seen))
              && (past == [] || !past[|past| - 1].Error? ==> Fold(BLANK, past).text == "")
  {
    SubscriberTextIsSuffix(s, sub);
    var upTo := s.log[..sub.start];
    if |CurrentTurn(upTo)| <= s.cap {
      WholeTurnIsReplayed(s, sub);
    }
    if Earlier(upTo) == [] || !Earlier(upTo)[|Earlier(upTo)| - 1].Error? {
      PastIsBlank(upTo);
    }
  }

  /** A snapshot of a turn that fits the ring starts where the turn does. */
  lemma {:induction false} WholeTurnIsReplayed(s: State, sub: Subscriber)
    requires s.cap >= 1 && Reachable(s) && sub in s.subs && sub.replayed
    requires |sub.snapshot| <= sub.start <= |s.log| && |CurrentTurn(s.log[..sub.start])| <= s.cap
    ensures Earlier(s.log[..sub.start]) == s.log[..sub.start - |sub.snapshot|]
  {
    SubscriberSeesOneStretch(s, sub);
  }

  lemma {:induction false} PastIsBlank(log: seq<Event>)
    requires Earlier(log) == [] || !Earlier(log)[|Earlier(log)| - 1].Error?
    ensures Fold(BLANK, Earlier(log)).text == ""
  {
    CurrentTurnIsLongest(log);
    TurnStartsBlank(Earlier(log));
  }

  /** The condition on `Error` cannot be dropped: text streamed before an `Error` stays with the
      early client, while a client attaching afterwards replays nothing of it. */
  lemma ErrorLeavesTextBehind()
    ensures var log := [TextDelta("a"), Error("boom", false)];
            Window(log, 8) == [] && Fold(BLANK, Window(log, 8)).text != Fold(BLANK, log).text
  {
    var log := [TextDelta("a"), Error("boom", false)];
    assert log[..1] == [TextDelta("a")] && [TextDelta("a")][..0] == [];
    FoldText(BLANK, log);
    assert Pending([TextDelta("a")]) == "" + "a" by {
      assert Pending([]) == "";
    }
    assert Pending(log) == "a";
  }
}
