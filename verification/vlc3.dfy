/** The 3.0 plugin: the input-event callback (PlayingChange), the worker's
    iteration with the 3.0 request, and the rules these callbacks follow.
    The item-change callback (ItemChange) is Engine.Submitter.BeginItem. */
module Vlc3 {
  import opened CText
  import opened Listen
  import opened Backoff
  import opened Http
  import opened Engine
  import Payload

  /** input_state_e, in its declared order. */
  datatype InputState = Init | Opening | Playing | Pause | End | Error

  function Rank(s: InputState): nat {
    match s
    case Init => 0
    case Opening => 1
    case Playing => 2
    case Pause => 3
    case End => 4
    case Error => 5
  }

  /** PlayingChange: `stateEvent` says the event is INPUT_EVENT_STATE,
      `hasVideo` that the input has a video elementary stream, and `item`
      is the input's item (`None` when it has none). */
  function OnInputEvent(t: Tracker, stateEvent: bool, hasVideo: bool, state: InputState,
                        now: int, epoch: int, item: Option<Metadata>): Tracker {
    if !stateEvent || hasVideo then t
    else if !t.metaRead && Rank(state) >= Rank(Playing) then ReadMeta(t, item)
    else if Rank(state) >= Rank(End) then Offer(t, now)
    else if state == Pause then PauseAt(t, now)
    else if state == Playing then Resume(t, now, epoch, item)
    else t
  }

  method PlayingChange(e: Submitter, stateEvent: bool, hasVideo: bool, state: InputState,
                       now: int, epoch: int, item: Option<Metadata>)
    requires e.Valid()
    modifies e, e.queue
    ensures e.Valid()
    ensures e.State() == OnInputEvent(old(e.State()), stateEvent, hasVideo, state, now, epoch, item)
  {
    if !stateEvent {
      return;
    }
    if hasVideo {
      return;
    }
    if !e.metaRead && Rank(state) >= Rank(Playing) {
      e.ReadMetaData(item);
      return;
    }
    if Rank(state) >= Rank(End) {
      e.AddToQueue(now);
    } else if state == Pause {
      e.Pause(now);
    } else if state == Playing {
      e.ResumePlayback(now, epoch, item);
    }
  }

  /** The queue only grows, by at most one song, only on a state event of
      an audio-only input whose metadata was read, and only when the input
      ends, fails, or resumes playing; it stays bounded and complete. */
  lemma InputEventRule(t: Tracker, stateEvent: bool, hasVideo: bool, state: InputState,
                       now: int, epoch: int, item: Option<Metadata>)
    requires WellFormed(t)
    ensures var r := OnInputEvent(t, stateEvent, hasVideo, state, now, epoch, item);
      && WellFormed(r)
      && t.pending <= r.pending && |r.pending| <= |t.pending| + 1
      && (r.pending != t.pending ==>
            stateEvent && !hasVideo && t.metaRead && (state == End || state == Error || state == Playing))
      && (!stateEvent || hasVideo ==> r == t)
  {
    TransitionsPreserveWellFormed(t, now, epoch, item, None);
    OfferRule(t, now);
    ResumeRule(t, now, epoch, item);
  }

  /** Ending or failing after the metadata was read submits the song; a
      PAUSE (ranked above PLAYING) that arrives before the metadata was read
      reads the metadata instead of stamping the pause. */
  lemma EndAndPause(t: Tracker, state: InputState, now: int, epoch: int, item: Option<Metadata>)
    ensures t.metaRead && (state == End || state == Error) ==>
      OnInputEvent(t, true, false, state, now, epoch, item) == Offer(t, now)
    ensures !t.metaRead && state == Pause ==>
      OnInputEvent(t, true, false, state, now, epoch, item) == ReadMeta(t, item)
      && OnInputEvent(t, true, false, state, now, epoch, item).timePause == t.timePause
    ensures t.metaRead && state == Pause ==>
      OnInputEvent(t, true, false, state, now, epoch, item) == t.(timePause := now)
  {
  }

  /** One iteration of Run after the wait: with nothing queued the worker
      sleeps; without a token or a submission URL it stops for good;
      otherwise it resets the interval, sends the 3.0 request for the
      pending songs, and settles the attempt. */
  method RunStep(e: Submitter, token: Option<string>, host: Option<string>,
                 outcome: Transport, now: int, interval: U32, next: int)
    returns (step: Step, interval': U32, next': int, request: Option<string>)
    requires e.Valid()
    modifies e, e.queue
    ensures e.Valid()
    ensures old(e.count) == 0 ==> step == Waiting
    ensures old(e.count) > 0 && (!NonEmpty(token) || host.None?) ==> step == Stopped
    ensures old(e.count) == 0 || !NonEmpty(token) || host.None? ==>
      request == None && interval' == interval && next' == next && e.State() == old(e.State())
    ensures old(e.count) > 0 && NonEmpty(token) && host.Some? ==>
      && request == Some(Request3(host.value, token.value, Payload.Payload(old(e.Pending()))))
      && Settlement(step, interval', next') == Settle(outcome, now)
      && (step == Delivered ==> e.State() == old(e.State()).(pending := []))
      && (step != Delivered ==> e.State() == old(e.State()))
  {
    if e.count == 0 {
      return Waiting, interval, next, None;
    }
    if token.None? || |token.value| == 0 {
      return Stopped, interval, next, None;
    }
    if host.None? {
      return Stopped, interval, next, None;
    }
    var payload := e.BuildPayload();
    request := Some(Request3(host.value, token.value, payload));
    step, interval', next' := e.Deliver(outcome, now);
  }
}
