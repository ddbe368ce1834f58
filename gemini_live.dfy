/**
 * The live voice session: connection status, the gapless playback schedule
 * for speech fragments streamed back by the remote model, barge-in
 * interruption, and teardown.
 */
module GeminiLive {
  import opened Types

  /** Error text recorded when the transport reports an error. */
  const ConnectionErrorText := "Connection error. Please try again."
  /** Error text recorded when connecting throws an error without a message. */
  const ConnectFailedText := "Failed to connect"

  /** A buffer source node, identified by the order in which it was created. */
  type SourceId = nat

  /** Where a source sits on the output timeline: `source.start(start)` with a buffer of `duration` seconds. */
  datatype Slot = Slot(start: real, duration: real) {
    function End(): real { start + duration }
  }

  /**
   * The part of an inbound message the session acts on: the decoded
   * duration of its speech fragment, if its first part carries non-empty
   * inline audio data, and whether it signals an interruption.
   */
  datatype ServerMessage = ServerMessage(audio: Option<real>, interrupted: bool)

  /** How the awaited steps of `connect` turn out: the microphone is granted, or something throws. */
  datatype ConnectOutcome = MicrophoneGranted | Threw(message: string)

  // ---------------------------------------------------------------------
  // The scheduling rule

  /**
   * `Math.max(nextStartTime, currentTime)`: a fragment starts once the
   * previous one has ended, but never in the past.
   */
  function StartTime(next: real, now: real): (t: real)
    ensures t >= next && t >= now
    ensures t == next || t == now
  {
    if next >= now then next else now
  }

  /** A fragment of `duration` seconds arriving when the output clock reads `now`. */
  datatype Arrival = Arrival(now: real, duration: real)

  /**
   * Where a run of fragments lands when they arrive in order with no
   * interruption, starting from schedule end `next`.
   */
  function Schedule(next: real, arrivals: seq<Arrival>): (slots: seq<Slot>)
    ensures |slots| == |arrivals|
    decreases arrivals
  {
    if arrivals == [] then []
    else
      var first := Slot(StartTime(next, arrivals[0].now), arrivals[0].duration);
      [first] + Schedule(first.End(), arrivals[1..])
  }

  /**
   * Fragments play in arrival order, each for its own duration, never before
   * it arrived and never before the earlier schedule ends; consecutive
   * fragments never overlap, and a fragment that arrives before its
   * predecessor ends starts exactly when the predecessor ends.
   */
  lemma {:induction false} ScheduleIsGapless(next: real, arrivals: seq<Arrival>)
    ensures var slots := Schedule(next, arrivals);
      && (slots != [] ==> slots[0].start >= next)
      && (forall k :: 0 <= k < |slots| ==>
            slots[k].start >= arrivals[k].now && slots[k].duration == arrivals[k].duration)
      && (forall k :: 0 <= k < |slots| - 1 ==> slots[k].End() <= slots[k + 1].start)
      && (forall k :: 0 <= k < |slots| - 1 && arrivals[k + 1].now <= slots[k].End() ==>
            slots[k + 1].start == slots[k].End())
    decreases arrivals
  {
    if arrivals != [] {
      var first := Slot(StartTime(next, arrivals[0].now), arrivals[0].duration);
      var rest := Schedule(first.End(), arrivals[1..]);
      ScheduleIsGapless(first.End(), arrivals[1..]);
      assert Schedule(next, arrivals) == [first] + rest;
    }
  }

  // ---------------------------------------------------------------------
  // Session state

  /**
   * The state the hook keeps across callbacks. Each `bool` handle field says
   * whether the corresponding reference is held (true) or null (false).
   * `slots` records, for every buffer source created so far, where it was
   * started; `created` counts them and so names the next one.
   */
  class LiveSession {
    var isConnected: bool
    var isSpeaking: bool
    var error: Option<string>

    var inputContext: bool
    var outputContext: bool
    var inputNode: bool
    var outputNode: bool
    var stream: bool
    var processor: bool
    var source: bool
    var session: bool

    var nextStartTime: real
    var activeSources: set<SourceId>
    var slots: map<SourceId, Slot>
    var created: nat

    /**
     * Every active source has a slot, every slot belongs to an already
     * created source and lasts a non-negative time, no active source plays
     * past the schedule end, active sources never overlap and play in
     * creation order, and the host is only reported speaking while some
     * source is active.
     */
    ghost predicate Valid()
      reads this
    {
      && (forall s :: s in activeSources ==> s in slots)
      && (forall s :: s in slots ==> s < created && slots[s].duration >= 0.0)
      && (forall s :: s in activeSources ==> slots[s].End() <= nextStartTime)
      && (forall s, t :: s in activeSources && t in activeSources && s < t ==>
            slots[s].End() <= slots[t].start)
      && (isSpeaking ==> activeSources != {})
    }

    /** Torn down: no stream, processor, source, contexts or session, not connected and not speaking. */
    predicate Disconnected()
      reads this
    {
      !stream && !processor && !source && !inputContext && !outputContext && !session
      && !isConnected && !isSpeaking
    }

    /** The hook's initial state. */
    constructor ()
      ensures Valid() && Disconnected()
      ensures error == None && !inputNode && !outputNode
      ensures nextStartTime == 0.0 && activeSources == {} && slots == map[] && created == 0
    {
      isConnected, isSpeaking, error := false, false, None;
      inputContext, outputContext, inputNode, outputNode := false, false, false, false;
      stream, processor, source, session := false, false, false, false;
      nextStartTime := 0.0;
      activeSources, slots, created := {}, map[], 0;
    }

    /**
     * `disconnect`: releases the stream, processor, source, both contexts and
     * the session, and reports not connected and not speaking. The gain
     * nodes, the error, the schedule and the active sources are left as they
     * are. A second call changes nothing.
     */
    method Disconnect()
      requires Valid()
      modifies this
      ensures Valid() && Disconnected()
      ensures old(Disconnected()) ==> unchanged(this)
      ensures error == old(error) && inputNode == old(inputNode) && outputNode == old(outputNode)
      ensures nextStartTime == old(nextStartTime) && activeSources == old(activeSources)
      ensures slots == old(slots) && created == old(created)
    {
      stream := false;
      processor := false;
      source := false;
      inputContext := false;
      outputContext := false;
      session := false;
      isConnected := false;
      isSpeaking := false;
    }

    /**
     * `sendText`: the text turn that goes out, which is none when no session
     * is held. Nothing in the session changes.
     */
    method SendText(text: string) returns (sent: Option<string>)
      ensures sent.Some? <==> session
      ensures sent.Some? ==> sent.value == text
    {
      if session {
        sent := Some(text);
      } else {
        sent := None;
      }
    }

    /**
     * The synchronous state changes of `connect`: the error is cleared and
     * both contexts and gain nodes are created; then either the microphone
     * stream is obtained and the session is requested, or the `catch` path
     * records the thrown message (or a default) and reports not connected.
     * The catch path does not release the contexts created before it.
     */
    method Connect(outcome: ConnectOutcome)
      requires Valid()
      modifies this
      ensures Valid()
      ensures inputContext && outputContext && inputNode && outputNode
      ensures outcome.MicrophoneGranted? ==>
        error == None && stream && session && isConnected == old(isConnected)
      ensures outcome.Threw? ==>
        && error == Some(if outcome.message == "" then ConnectFailedText else outcome.message)
        && !isConnected && stream == old(stream) && session == old(session)
      ensures processor == old(processor) && source == old(source) && isSpeaking == old(isSpeaking)
      ensures nextStartTime == old(nextStartTime) && activeSources == old(activeSources)
      ensures slots == old(slots) && created == old(created)
    {
      error := None;
      inputContext, outputContext := true, true;
      inputNode, outputNode := true, true;
      match outcome {
        case MicrophoneGranted =>
          stream := true;
          session := true;
        case Threw(message) =>
          error := Some(if message == "" then ConnectFailedText else message);
          isConnected := false;
      }
    }

    /**
     * `onopen`: the session is open; capture is wired up when the input
     * context and the stream are still held.
     */
    method OnOpen()
      requires Valid()
      modifies this`isConnected, this`source, this`processor
      ensures Valid() && isConnected
      ensures source == (old(source) || (inputContext && stream))
      ensures processor == (old(processor) || (inputContext && stream))
    {
      isConnected := true;
      if inputContext && stream {
        source := true;
        processor := true;
      }
    }

    /**
     * `onmessage`, handled as one step with the output clock at `now`. A
     * fragment is played only when the output context and node are held: it
     * gets a new source started at `max(nextStartTime, now)`, the schedule
     * end moves to where the fragment ends, and the host is speaking. An
     * interruption, checked afterwards, stops every active source, resets
     * the schedule to 0 and reports not speaking. Anything else is left
     * unchanged.
     */
    method OnMessage(message: ServerMessage, now: real)
      requires Valid()
      requires message.audio.Some? ==> message.audio.value >= 0.0
      modifies this`nextStartTime, this`activeSources, this`slots, this`created, this`isSpeaking
      ensures Valid()
      ensures var played := message.audio.Some? && outputContext && outputNode;
        && (played ==>
              && created == old(created) + 1
              && slots == old(slots)[old(created) := Slot(StartTime(old(nextStartTime), now), message.audio.value)])
        && (!played ==> created == old(created) && slots == old(slots))
        && (!message.interrupted && played ==>
              && activeSources == old(activeSources) + {old(created)}
              && old(created) !in old(activeSources)
              && nextStartTime == slots[old(created)].End()
              && isSpeaking)
        && (!message.interrupted && !played ==>
              && activeSources == old(activeSources)
              && nextStartTime == old(nextStartTime)
              && isSpeaking == old(isSpeaking))
        && (message.interrupted ==> activeSources == {} && nextStartTime == 0.0 && !isSpeaking)
      ensures !message.interrupted ==> nextStartTime >= old(nextStartTime)
    {
      if message.audio.Some? && outputContext && outputNode {
        isSpeaking := true;
        var start := StartTime(nextStartTime, now);
        var src := created;
        created := created + 1;
        slots := slots[src := Slot(start, message.audio.value)];
        nextStartTime := start + message.audio.value;
        activeSources := activeSources + {src};
      }
      if message.interrupted {
        activeSources := {};
        nextStartTime := 0.0;
        isSpeaking := false;
      }
    }

    /**
     * The `ended` listener of source `s`: it leaves the active set (an
     * unknown source leaves it unchanged), and the host stops speaking
     * exactly when the set is then empty.
     */
    method OnEnded(s: SourceId)
      requires Valid()
      modifies this`activeSources, this`isSpeaking
      ensures Valid()
      ensures activeSources == old(activeSources) - {s}
      ensures isSpeaking == (if activeSources == {} then false else old(isSpeaking))
    {
      activeSources := activeSources - {s};
      if |activeSources| == 0 {
        isSpeaking := false;
      }
    }

    /** `onerror`: records the connection error and then tears down as `disconnect` does. */
    method OnError()
      requires Valid()
      modifies this
      ensures Valid() && Disconnected()
      ensures error == Some(ConnectionErrorText)
      ensures inputNode == old(inputNode) && outputNode == old(outputNode)
      ensures nextStartTime == old(nextStartTime) && activeSources == old(activeSources)
      ensures slots == old(slots) && created == old(created)
    {
      error := Some(ConnectionErrorText);
      Disconnect();
    }

    /** `onclose`: reports not connected and changes nothing else. */
    method OnClose()
      requires Valid()
      modifies this`isConnected
      ensures Valid() && !isConnected
    {
      isConnected := false;
    }
  }
}
