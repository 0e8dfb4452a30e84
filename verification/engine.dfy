/** The plugin state (`intf_sys_t`) as an object: the fixed array of 50
    queue slots with its fill count, the current song with its start tick,
    and the pause bookkeeping. There is one method per C routine or per
    branch of one. The evaluator's methods (AddToQueue, ReadMetaData,
    Pause, ResumePlayback, RestartListen, BeginItem) are proved to move the
    abstract state `State()` exactly as the matching function of module
    Listen does; StoreDetails is the tail of ReadMetaData. The worker's
    pieces (BuildPayload, ClearQueue, Deliver) are proved against
    Payload.Payload, an emptied queue and Settle. */
module Engine {
  import opened CText
  import opened Listen
  import opened Payload
  import opened Backoff
  import opened Http

  /** How the network part of an attempt ended. `Replied` holds what the
      single read returned; an empty reply stands for a read of 0 bytes or
      an error. */
  datatype Transport = ConnectFailed | WriteFailed | Replied(bytes: string)

  /** The outcome of one iteration of the worker loop. */
  datatype Step =
    | Waiting      // nothing queued: the worker sleeps on the condition variable
    | Stopped      // no token or no submission URL: the worker returns
    | Delivered    // the reply contains OK: the queue is emptied
    | Refused      // a reply without OK: retry after the interval
    | Unreachable  // connection or write failed: retry after the interval
    | Silent       // nothing read: retry at once

  datatype Settlement = Settlement(step: Step, interval: U32, next: int)

  /** How an attempt that reached the network ends, given that the worker
      reset the interval to 0 and the next exchange to "none" beforehand. */
  function Settle(outcome: Transport, now: int): Settlement {
    match outcome
    case ConnectFailed => Settlement(Unreachable, NextInterval(0), now + NextInterval(0) * TicksPerMinute)
    case WriteFailed => Settlement(Unreachable, NextInterval(0), now + NextInterval(0) * TicksPerMinute)
    case Replied(bytes) =>
      if |bytes| == 0 then Settlement(Silent, 0, NoExchange)
      else if Confirms(bytes) then Settlement(Delivered, 0, NoExchange)
      else Settlement(Refused, NextInterval(0), now + NextInterval(0) * TicksPerMinute)
  }

  /** Every attempt that reached the network ends in one of three ways:
      delivered (exactly when the reply holds `OK`) or nothing read, both
      leaving the interval at 0 with no exchange scheduled; or a failure
      (no connection, a failed write, or a reply without `OK`), which waits
      exactly one minute. Since the worker resets the interval before each
      attempt, the doubling of HandleInterval's schedule never takes effect. */
  lemma SettleRule(outcome: Transport, now: int)
    ensures var r := Settle(outcome, now);
      && (r.step == Delivered <==> outcome.Replied? && exists i :: OkAt(outcome.bytes, i))
      && (r.step == Silent <==> outcome.Replied? && outcome.bytes == [])
      && (r.step == Delivered || r.step == Silent ==> r.interval == 0 && r.next == NoExchange)
      && (r.step == Unreachable || r.step == Refused ==> r.interval == 1 && r.next == now + TicksPerMinute)
      && (r.step == Unreachable <==> !outcome.Replied?)
      && (r.step == Refused <==> outcome.Replied? && outcome.bytes != [] && !exists i :: OkAt(outcome.bytes, i))
  {
    if outcome.Replied? {
      ConfirmsIff(outcome.bytes);
    }
  }

  class Submitter {
    /** p_queue: QUEUE_MAX slots, of which the first `count` are pending. */
    const queue: array<Song>
    /** i_songs */
    var count: nat
    /** p_current_song, without its start tick */
    var current: Song
    /** p_current_song.i_start */
    var start: int
    /** time_pause */
    var timePause: int
    /** time_total_pauses */
    var totalPauses: int
    /** b_meta_read */
    var metaRead: bool

    function Pending(): seq<Song>
      reads this, queue
      requires count <= queue.Length
    {
      queue[..count]
    }

    function State(): Tracker
      reads this, queue
      requires count <= queue.Length
    {
      Listen.Tracker(Pending(), current, start, timePause, totalPauses, metaRead)
    }

    predicate Valid()
      reads this, queue
    {
      queue.Length == QueueMax && count <= QueueMax && WellFormed(State())
    }

    /** Open: the state as calloc leaves it. */
    constructor ()
      ensures Valid() && State() == Initial && fresh(queue)
    {
      queue := new Song[QueueMax](_ => Blank);
      count := 0;
      current := Blank;
      start := 0;
      timePause := 0;
      totalPauses := 0;
      metaRead := false;
    }

    /** AddToQueue: judge the current song at tick `now`, copy it into the
        next free slot if it qualifies, and release its strings. */
    method AddToQueue(now: int)
      requires Valid()
      modifies this, queue
      ensures Valid()
      ensures State() == Offer(old(State()), now)
    {
      if current.title.Some? && current.artist.Some? {
        var played := CDiv(now - start - totalPauses, TicksPerSecond);
        if current.length == 0 {
          current := current.(length := played);
        }
        if current.length >= MinLength
          && !(played < MinPlayed && played < CDiv(current.length, 2))
          && NonEmpty(current.artist) && NonEmpty(current.title)
          && count < QueueMax
        {
          queue[count] := current;
          count := count + 1;
          assert Pending() == old(Pending()) + [current];
        }
      }
      current := Cleared(current);
    }

    /** ReadMetaData: store the item's non-empty fields into the current
        song; without artist or title the song is released. `None` when the
        player has no item. */
    method ReadMetaData(item: Option<Metadata>)
      requires Valid()
      modifies this
      ensures Valid()
      ensures State() == ReadMeta(old(State()), item)
    {
      if item.None? {
        return;
      }
      var m := item.value;
      metaRead := true;
      if NonEmpty(m.artist) {
        current := current.(artist := m.artist);
      }
      if current.artist.None? {
        current := Cleared(current);
        return;
      }
      if NonEmpty(m.title) {
        current := current.(title := m.title);
      }
      if current.title.None? {
        current := Cleared(current);
        return;
      }
      StoreDetails(m);
    }

    /** The optional fields and the duration, once artist and title are kept. */
    method StoreDetails(m: Metadata)
      modifies this
      ensures current == old(current).(album := Stored(old(current).album, m.album),
        mbid := Stored(old(current).mbid, m.trackId),
        number := Stored(old(current).number, m.trackNum),
        length := CDiv(m.duration, TicksPerSecond))
      ensures count == old(count) && start == old(start) && timePause == old(timePause)
      ensures totalPauses == old(totalPauses) && metaRead == old(metaRead)
    {
      if NonEmpty(m.album) {
        current := current.(album := m.album);
      }
      if NonEmpty(m.trackId) {
        current := current.(mbid := m.trackId);
      }
      if NonEmpty(m.trackNum) {
        current := current.(number := m.trackNum);
      }
      current := current.(length := CDiv(m.duration, TicksPerSecond));
    }

    /** The PAUSED branch: remember when playback paused. */
    method Pause(now: int)
      requires Valid()
      modifies this
      ensures Valid()
      ensures State() == PauseAt(old(State()), now)
    {
      timePause := now;
    }

    /** The PLAYING branch once metadata was read: account the pause and,
        after more than a minute of pause, emit the listen and restart it. */
    method ResumePlayback(now: int, epoch: int, item: Option<Metadata>)
      requires Valid()
      modifies this, queue
      ensures Valid()
      ensures State() == Resume(old(State()), now, epoch, item)
    {
      if timePause > 0 {
        var paused := now - timePause;
        totalPauses := totalPauses + paused;
        if CDiv(paused, TicksPerSecond) > LongPauseSeconds {
          var played := CDiv(now - start - totalPauses, TicksPerSecond);
          if played > MinLength && (played > MinPlayed || played >= CDiv(current.length, 2)) {
            RestartListen(now, epoch, item);
          }
        }
        timePause := 0;
      }
    }

    /** The long-pause branch: AddToQueue, ReadMetaData, then a new start
        tick, date and pause total. */
    method RestartListen(now: int, epoch: int, item: Option<Metadata>)
      requires Valid()
      modifies this, queue
      ensures Valid()
      ensures State() == Restart(old(State()), now, epoch, item)
    {
      AddToQueue(now);
      ReadMetaData(item);
      start := now;
      current := current.(date := epoch);
      totalPauses := 0;
    }

    /** The item-change steps common to both generations (`media` is `None`
        when there is no item). */
    method BeginItem(media: Option<Media>, now: int, epoch: int)
      requires Valid()
      modifies this
      ensures Valid()
      ensures State() == Begin(old(State()), media, now, epoch)
    {
      metaRead := false;
      if media.None? || media.value.hasVideo {
        return;
      }
      totalPauses := 0;
      current := current.(date := epoch);
      start := now;
      if media.value.preparsed {
        ReadMetaData(Some(media.value.meta));
      }
    }

    /** The body of the submission, built fragment by fragment from the
        pending slots. */
    method BuildPayload() returns (payload: string)
      requires Valid()
      ensures payload == Payload.Payload(Pending())
    {
      if count == 1 {
        payload := SingleHead;
      } else {
        payload := ImportHead;
      }
      FragmentsNone(payload, queue[..]);
      var i := 0;
      while i < count
        invariant i <= count
        invariant payload == Head(count) + Fragments(queue[..i])
      {
        var song := queue[i];
        ghost var before := payload;
        payload := AppendFragment(payload, song);
        FragmentsGrow(Head(count), queue[..], i, song, before, payload);
        i := i + 1;
      }
      ghost var body := payload;
      payload := payload + Tail;
      BodyDone(queue[..], count, body, payload);
    }

    /** After an accepted submission: release every pending slot and empty
        the queue. */
    method ClearQueue()
      requires Valid()
      modifies this, queue
      ensures Valid()
      ensures Pending() == []
      ensures current == old(current) && start == old(start) && timePause == old(timePause)
      ensures totalPauses == old(totalPauses) && metaRead == old(metaRead)
      ensures forall k :: 0 <= k < old(count) ==> queue[k] == Cleared(old(queue[k]))
    {
      var i := 0;
      while i < count
        modifies queue
        invariant i <= count <= QueueMax
        invariant forall k :: 0 <= k < i ==> queue[k] == Cleared(old(queue[k]))
        invariant forall k :: i <= k < queue.Length ==> queue[k] == old(queue[k])
      {
        queue[i] := Cleared(queue[i]);
        i := i + 1;
      }
      count := 0;
    }

    /** The network part of one attempt, the interval having been reset:
        back off after a failed connection, write or a reply without OK,
        retry at once after an empty read, and empty the queue after OK. */
    method Deliver(outcome: Transport, now: int) returns (step: Step, interval: U32, next: int)
      requires Valid()
      modifies this, queue
      ensures Valid()
      ensures Settlement(step, interval, next) == Settle(outcome, now)
      ensures step == Delivered ==> State() == old(State()).(pending := [])
      ensures step != Delivered ==> State() == old(State())
    {
      interval := 0;
      next := NoExchange;
      match outcome {
        case ConnectFailed =>
          next, interval := HandleInterval(now, interval);
          step := Unreachable;
        case WriteFailed =>
          next, interval := HandleInterval(now, interval);
          step := Unreachable;
        case Replied(bytes) =>
          if |bytes| == 0 {
            step := Silent;
          } else if Confirms(bytes) {
            ClearQueue();
            step := Delivered;
          } else {
            next, interval := HandleInterval(now, interval);
            step := Refused;
          }
      }
    }
  }

  /** The memstream printf calls for one queued song
      (vlc-3.0/listenbrainz.c:565-572), piece by piece as the worker emits
      them: the listening date, the artist, the title, the album and the
      recording id when present, and the closing braces. Payload.Fragment
      is the specification it is proved against. */
  method AppendFragment(payload: string, s: Song) returns (r: string)
    ensures r == payload + Fragment(s)
  {
    var head := ListenedAtKey + Decimal(U64(s.date));
    var names := ", \"track_metadata\": {\"artist_name\": \"" + Text(s.artist) + "\", "
      + " \"track_name\": \"" + Text(s.title) + "\", ";
    var release := "";
    if s.album.Some? {
      release := ReleaseKey + s.album.value + "\"";
    }
    var info := "";
    if s.mbid.Some? {
      info := InfoKey + s.mbid.value + "\"} ";
    }
    r := payload + ((head + names) + (release + info + FragmentEnd));
  }
}
