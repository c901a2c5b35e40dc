/** The typed events of the chat stream, and the bounded ring that replays the
    current turn to late subscribers. */
module ChatEvents {

  /** `Notice` stands for every variant whose only effect on a client is one system line
      (status, delegation, ideas, files, compaction, injected user messages). */
  datatype Event =
    | StepStart(step: nat, model: string)
    | TextDelta(text: string)
    | ToolStart(toolName: string)
    | ToolProgress(output: string)
    | ToolComplete(toolName: string, summary: string)
    | StepComplete(promptTokens: nat, completionTokens: nat)
    | Notice(line: string)
    | Complete(totalPromptTokens: nat, totalCompletionTokens: nat)
    | Tombstone(step: nat, reason: string)
    | Error(message: string, recoverable: bool)
  {
    /** `Complete` and `Error` end a turn and clear the ring. */
    predicate Terminal() {
      Complete? || Error?
    }
  }
}

module Backlog {
  import opened Options
  import opened ChatEvents

  /** The last `n` elements of `s`, or all of it when it is shorter. */
  function LastN<T>(s: seq<T>, n: nat): seq<T> {
    if |s| <= n then s else s[|s| - n..]
  }

  /** The events after the last `Complete` or `Error` of a log. */
  function CurrentTurn(log: seq<Event>): (turn: seq<Event>)
    ensures |turn| <= |log| && log[|log| - |turn|..] == turn
  {
    if log == [] || log[|log| - 1].Terminal() then []
    else CurrentTurn(log[..|log| - 1]) + [log[|log| - 1]]
  }

  /** What the ring should hold once `log` has been published. */
  function Window(log: seq<Event>, cap: nat): seq<Event> {
    LastN(CurrentTurn(log), cap)
  }

  /** `CurrentTurn` is the longest suffix of the log free of `Complete` and `Error`. */
  lemma {:induction false} CurrentTurnIsLongest(log: seq<Event>)
    ensures forall e :: e in CurrentTurn(log) ==> !e.Complete? && !e.Error?
    ensures var k := |CurrentTurn(log)|;
            k < |log| ==> log[|log| - k - 1].Complete? || log[|log| - k - 1].Error?
  {
    if log != [] && !log[|log| - 1].Terminal() {
      CurrentTurnIsLongest(log[..|log| - 1]);
    }
  }

  /** A `Complete` or an `Error` ends the turn; every other event extends it. */
  lemma {:induction false} TurnGrows(log: seq<Event>, e: Event)
    ensures CurrentTurn(log + [e]) == if e.Complete? || e.Error? then [] else CurrentTurn(log) + [e]
  {
    assert (log + [e])[..|log|] == log;
  }

  /** Publishing one more event slides the window by one, or empties it. */
  lemma {:induction false} WindowStep(log: seq<Event>, e: Event, cap: nat)
    requires cap >= 1
    ensures Window(log + [e], cap) ==
            if e.Complete? || e.Error? then [] else LastN(Window(log, cap) + [e], cap)
  {
    TurnGrows(log, e);
    if !e.Terminal() {
      LastNSnoc(CurrentTurn(log), e, cap);
    }
  }

  lemma {:induction false} LastNSnoc(s: seq<Event>, e: Event, n: nat)
    requires n >= 1
    ensures LastN(s + [e], n) == LastN(LastN(s, n) + [e], n)
  {
    if |s| > n {
      assert LastN(s + [e], n) == (LastN(s, n) + [e])[1..];
    }
  }

  /** Dropping the oldest event of a full ring does not change what survives the next append. */
  lemma {:induction false} EvictionKeepsWindow(ring: seq<Event>, e: Event, cap: nat)
    requires 1 <= cap <= |ring|
    ensures LastN(ring[1..] + [e], cap) == LastN(ring + [e], cap)
  {
    assert ring + [e] == [ring[0]] + (ring[1..] + [e]);
  }

  /** A cloneable sender: the broadcast channel is the append-only `channel`; a receiver is a
      position in it. `capacity` is the ring size, or `None` when no backlog is attached. */
  class ChatStreamSender {
    const capacity: Option<nat>
    var channel: seq<Event>
    var ring: seq<Event>

    /** The ring always replays the most recent part of the turn in flight. */
    ghost predicate Valid()
      reads this
    {
      match capacity
      case None => ring == []
      case Some(cap) => ring == Window(channel, cap)
    }

    constructor New()
      ensures Valid() && capacity == None && channel == []
    {
      capacity := None;
      channel, ring := [], [];
    }

    constructor NewWithBacklog(backlogSize: nat)
      ensures Valid() && capacity == Some(backlogSize) && channel == [] && ring == []
    {
      capacity := Some(backlogSize);
      channel, ring := [], [];
    }

    /** One locked critical section: clear or evict-and-append, then broadcast. The eviction
        loop ends only when the ring has room for at least one event; a terminal event does not
        enter it. */
    method Send(event: Event)
      requires Valid() && (capacity == Some(0) ==> event.Complete? || event.Error?)
      modifies this`channel, this`ring
      ensures Valid()
      ensures channel == old(channel) + [event]
      ensures capacity.Some? ==>
                ring == if event.Complete? || event.Error? then []
                        else LastN(old(ring) + [event], capacity.value)
    {
      if capacity.Some? {
        assert (channel + [event])[..|channel|] == channel;
        if event.Terminal() {
          ring := [];
        } else {
          WindowStep(channel, event, capacity.value);
          while |ring| >= capacity.value
            invariant LastN(ring + [event], capacity.value) == LastN(old(ring) + [event], capacity.value)
            invariant channel == old(channel)
            decreases |ring|
          {
            EvictionKeepsWindow(ring, event, capacity.value);
            ring := ring[1..];
          }
          ring := ring + [event];
        }
        channel := channel + [event];
        return;
      }
      channel := channel + [event];
    }

    /** Copy the ring and subscribe under one lock: the snapshot and everything the receiver
        will be handed from `position` on form one gapless run of the channel. */
    method SnapshotAndSubscribe() returns (snapshot: seq<Event>, position: nat)
      requires Valid()
      ensures position == |channel| && |snapshot| <= position
      ensures snapshot == channel[position - |snapshot|..]
      ensures capacity.Some? ==> snapshot == Window(channel, capacity.value)
      ensures capacity.None? ==> snapshot == []
    {
      if capacity.Some? {
        snapshot := ring;
        position := |channel|;
        return;
      }
      snapshot, position := [], |channel|;
    }
  }
}
