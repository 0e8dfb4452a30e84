/** The 4.0 plugin: the player-state listener, the playlist-index listener,
    the worker's iteration with the 4.0 request, and the rules these
    callbacks follow. */
module Vlc4 {
  import opened CText
  import opened Listen
  import opened Backoff
  import opened Http
  import Engine
  import Payload

  /** enum vlc_player_state, in its declared order. */
  datatype PlayerState = Stopped | Started | Playing | Paused | Stopping

  function Rank(s: PlayerState): nat {
    match s
    case Stopped => 0
    case Started => 1
    case Playing => 2
    case Paused => 3
    case Stopping => 4
  }

  /** player_on_state_changed: `hasVideo` says the player has a video
      track; `item` is the player's current media (`None` when none). */
  function OnStateChanged(t: Tracker, hasVideo: bool, state: PlayerState,
                          now: int, epoch: int, item: Option<Metadata>): Tracker {
    if hasVideo then t
    else if !t.metaRead && Rank(state) >= Rank(Playing) then ReadMeta(t, item)
    else match state
      case Stopped => Offer(t, now)
      case Paused => PauseAt(t, now)
      case Playing => Resume(t, now, epoch, item)
      case _ => t
  }

  /** playlist_on_current_index_changed: the song that was playing is
      offered to the queue when the new index is positive, then the new
      item starts. */
  function OnIndexChanged(t: Tracker, index: int, media: Option<Media>, now: int, epoch: int): Tracker {
    var t1 := if index > 0 then Offer(t, now) else t;
    Begin(t1, media, now, epoch)
  }

  method PlayerStateChanged(e: Engine.Submitter, hasVideo: bool, state: PlayerState,
                            now: int, epoch: int, item: Option<Metadata>)
    requires e.Valid()
    modifies e, e.queue
    ensures e.Valid()
    ensures e.State() == OnStateChanged(old(e.State()), hasVideo, state, now, epoch, item)
  {
    if hasVideo {
      return;
    }
    if !e.metaRead && Rank(state) >= Rank(Playing) {
      e.ReadMetaData(item);
      return;
    }
    match state {
      case Stopped => e.AddToQueue(now);
      case Paused => e.Pause(now);
      case Playing => e.ResumePlayback(now, epoch, item);
      case _ =>
    }
  }

  method CurrentIndexChanged(e: Engine.Submitter, index: int, media: Option<Media>, now: int, epoch: int)
    requires e.Valid()
    modifies e, e.queue
    ensures e.Valid()
    ensures e.State() == OnIndexChanged(old(e.State()), index, media, now, epoch)
  {
    if index > 0 {
      e.AddToQueue(now);
    }
    e.BeginItem(media, now, epoch);
  }

  /** The queue only grows, by at most one song, and only when an
      audio-only player stops or resumes playing; STOPPED (ranked below
      PLAYING) submits even before the metadata was read, while STARTED and
      STOPPING after the read change nothing. */
  lemma StateChangeRule(t: Tracker, hasVideo: bool, state: PlayerState,
                        now: int, epoch: int, item: Option<Metadata>)
    requires WellFormed(t)
    ensures var r := OnStateChanged(t, hasVideo, state, now, epoch, item);
      && WellFormed(r)
      && t.pending <= r.pending && |r.pending| <= |t.pending| + 1
      && (r.pending != t.pending ==> !hasVideo && (state == Stopped || (state == Playing && t.metaRead)))
      && (hasVideo ==> r == t)
      && (!hasVideo && state == Stopped ==> r == Offer(t, now))
      && (!hasVideo && t.metaRead && (state == Started || state == Stopping) ==> r == t)
  {
    TransitionsPreserveWellFormed(t, now, epoch, item, None);
    OfferRule(t, now);
    ResumeRule(t, now, epoch, item);
  }

  /** A change to a positive index submits the previous song if it
      qualifies; any other index change never queues anything. Either way
      the new item is started as in BeginRule and the queue stays sound. */
  lemma IndexChangeRule(t: Tracker, index: int, media: Option<Media>, now: int, epoch: int)
    requires WellFormed(t)
    ensures var r := OnIndexChanged(t, index, media, now, epoch);
      && WellFormed(r)
      && (index > 0 ==> r.pending == Offer(t, now).pending)
      && (index <= 0 ==> r.pending == t.pending)
      && !(r.metaRead && (media.None? || media.value.hasVideo))
  {
    OfferRule(t, now);
    var t1 := if index > 0 then Offer(t, now) else t;
    BeginRule(t1, media, now, epoch);
  }

  /** One iteration of Run after the wait, with the 4.0 request (`agent` is
      the build's PACKAGE_NAME/PACKAGE_VERSION). */
  method RunStep(e: Engine.Submitter, token: Option<string>, host: Option<string>, agent: string,
                 outcome: Engine.Transport, now: int, interval: U32, next: int)
    returns (step: Engine.Step, interval': U32, next': int, request: Option<string>)
    requires e.Valid()
    modifies e, e.queue
    ensures e.Valid()
    ensures old(e.count) == 0 ==> step == Engine.Waiting
    ensures old(e.count) > 0 && (!NonEmpty(token) || host.None?) ==> step == Engine.Stopped
    ensures old(e.count) == 0 || !NonEmpty(token) || host.None? ==>
      request == None && interval' == interval && next' == next && e.State() == old(e.State())
    ensures old(e.count) > 0 && NonEmpty(token) && host.Some? ==>
      && request == Some(Request4(host.value, token.value, agent, Payload.Payload(old(e.Pending()))))
      && Engine.Settlement(step, interval', next') == Engine.Settle(outcome, now)
      && (step == Engine.Delivered ==> e.State() == old(e.State()).(pending := []))
      && (step != Engine.Delivered ==> e.State() == old(e.State()))
  {
    if e.count == 0 {
      return Engine.Waiting, interval, next, None;
    }
    if token.None? || |token.value| == 0 {
      return Engine.Stopped, interval, next, None;
    }
    if host.None? {
      return Engine.Stopped, interval, next, None;
    }
    var payload := e.BuildPayload();
    request := Some(Request4(host.value, token.value, agent, payload));
    step, interval', next' := e.Deliver(outcome, now);
  }
}
