/** The listen evaluator shared by both plugin generations: the song record,
    the metadata rules, the eligibility rule, the bounded queue push and the
    pause accounting, each as a function of an abstract engine state
    (`Tracker`). Ticks are microseconds, dates are seconds since the epoch. */
module Listen {
  import opened CText

  const QueueMax: nat := 50
  const TicksPerSecond: int := 1_000_000
  /** Shortest track that is ever submitted, in seconds. */
  const MinLength: int := 30
  /** Listening this long always suffices, in seconds. */
  const MinPlayed: int := 240
  /** A pause longer than this (in seconds) re-evaluates the track. */
  const LongPauseSeconds: int := 60

  /** listenbrainz_song_t without its start tick, which the engine keeps
      beside the current song (the copy in a queue entry is never read).
      A string field is `None` where the C pointer is NULL. */
  datatype Song = Song(
    artist: Option<string>,
    title: Option<string>,
    album: Option<string>,
    number: Option<string>,
    length: int,
    mbid: Option<string>,
    date: int)

  /** A song record as calloc leaves it. */
  const Blank: Song := Song(None, None, None, None, 0, None, 0)

  /** What the player reports about the current item; `None` for a NULL meta string. */
  datatype Metadata = Metadata(
    artist: Option<string>,
    title: Option<string>,
    album: Option<string>,
    trackId: Option<string>,
    trackNum: Option<string>,
    duration: int)

  /** A newly current item: its metadata, whether it has video, whether it was preparsed. */
  datatype Media = Media(meta: Metadata, hasVideo: bool, preparsed: bool)

  predicate NonEmpty(o: Option<string>) { o.Some? && |o.value| > 0 }

  predicate HasMandatory(s: Song) { s.artist.Some? && s.title.Some? }

  /** A record fit to be submitted: non-empty artist and title. */
  predicate Complete(s: Song) { NonEmpty(s.artist) && NonEmpty(s.title) }

  predicate Unset(s: Song) {
    s.artist.None? && s.title.None? && s.album.None? && s.number.None? && s.mbid.None?
  }

  /** DeleteSong: every string field becomes NULL; length and date stay. */
  function Cleared(s: Song): (r: Song)
    ensures Unset(r) && r.length == s.length && r.date == s.date
  {
    s.(artist := None, title := None, album := None, number := None, mbid := None)
  }

  /** ALLOC_ITEM_META: a field is overwritten only by a non-empty value. */
  function Stored(prev: Option<string>, supplied: Option<string>): Option<string> {
    if NonEmpty(supplied) then supplied else prev
  }

  /** ReadMetaData on the current song, for an item that exists. */
  function ApplyMeta(s: Song, m: Metadata): Song {
    var artist := Stored(s.artist, m.artist);
    if artist.None? then Cleared(s)
    else
      var title := Stored(s.title, m.title);
      if title.None? then Cleared(s)
      else
        s.(artist := artist, title := title,
           album := Stored(s.album, m.album),
           mbid := Stored(s.mbid, m.trackId),
           number := Stored(s.number, m.trackNum),
           length := CDiv(m.duration, TicksPerSecond))
  }

  /** Whole seconds played since `start`, net of pauses (C division). */
  function Played(now: int, start: int, pauses: int): int {
    CDiv(now - start - pauses, TicksPerSecond)
  }

  /** A stored length of 0 means "unknown" and is replaced by the played time. */
  function EffectiveLength(length: int, played: int): int {
    if length == 0 then played else length
  }

  /** The eligibility rule of AddToQueue. */
  predicate Qualifies(length: int, played: int) {
    var l := EffectiveLength(length, played);
    l >= MinLength && !(played < MinPlayed && played < CDiv(l, 2))
  }

  /** The different test applied when playback resumes after a long pause. */
  predicate LongPauseQualifies(played: int, length: int) {
    played > MinLength && (played > MinPlayed || played >= CDiv(length, 2))
  }

  predicate Accepted(s: Song, played: int) {
    Complete(s) && Qualifies(s.length, played)
  }

  /** The record that AddToQueue copies into the queue. */
  function WithLength(s: Song, played: int): Song {
    s.(length := EffectiveLength(s.length, played))
  }

  /** The current song after AddToQueue: the length is substituted only once
      artist and title were found, and the strings are always released. */
  function Released(s: Song, played: int): Song {
    if HasMandatory(s) then Cleared(WithLength(s, played)) else Cleared(s)
  }

  /** The push into the fixed-size queue. */
  function Push(pending: seq<Song>, s: Song, played: int): seq<Song> {
    if Accepted(s, played) && |pending| < QueueMax then pending + [WithLength(s, played)]
    else pending
  }

  /** The engine state the evaluator reads and writes: the queued songs
      (p_queue[..i_songs]), the current song and its start tick, the pause
      stamp and total, and whether metadata was read for this item. */
  datatype Tracker = Tracker(
    pending: seq<Song>,
    current: Song,
    start: int,
    timePause: int,
    totalPauses: int,
    metaRead: bool)

  const Initial: Tracker := Tracker([], Blank, 0, 0, 0, false)

  predicate WellFormed(t: Tracker) {
    |t.pending| <= QueueMax && forall i :: 0 <= i < |t.pending| ==> Complete(t.pending[i])
  }

  /** AddToQueue at tick `now`. */
  function Offer(t: Tracker, now: int): Tracker {
    var played := Played(now, t.start, t.totalPauses);
    t.(pending := Push(t.pending, t.current, played), current := Released(t.current, played))
  }

  /** ReadMetaData; `None` when the player has no current item. */
  function ReadMeta(t: Tracker, item: Option<Metadata>): Tracker {
    match item
    case None => t
    case Some(m) => t.(metaRead := true, current := ApplyMeta(t.current, m))
  }

  /** The PAUSED transition. */
  function PauseAt(t: Tracker, now: int): Tracker {
    t.(timePause := now)
  }

  /** The PLAYING transition once metadata was read: pause accounting and the
      long-pause rule, which emits a listen and restarts the same song. */
  function Resume(t: Tracker, now: int, epoch: int, item: Option<Metadata>): Tracker {
    if t.timePause <= 0 then t
    else
      var paused := now - t.timePause;
      var t1 := t.(totalPauses := t.totalPauses + paused, timePause := 0);
      var played := Played(now, t1.start, t1.totalPauses);
      if CDiv(paused, TicksPerSecond) > LongPauseSeconds && LongPauseQualifies(played, t1.current.length) then
        Restart(t1, now, epoch, item)
      else t1
  }

  /** Emit the listen so far and start a new listen of the same item: new
      start tick, new date, no pauses. */
  function Restart(t: Tracker, now: int, epoch: int, item: Option<Metadata>): Tracker {
    var t2 := ReadMeta(Offer(t, now), item);
    t2.(start := now, current := t2.current.(date := epoch), totalPauses := 0)
  }

  /** The part of an item change common to both generations: forget that
      metadata was read; for an audio-only item restart the clock and the
      date, and read the metadata now if the item was preparsed. */
  function Begin(t: Tracker, media: Option<Media>, now: int, epoch: int): Tracker {
    var t1 := t.(metaRead := false);
    match media
    case None => t1
    case Some(md) =>
      if md.hasVideo then t1
      else
        var t2 := t1.(totalPauses := 0, current := t1.current.(date := epoch), start := now);
        if md.preparsed then ReadMeta(t2, Some(md.meta)) else t2
  }

  // ---------------------------------------------------------------------
  // Properties

  /** The eligibility rule: for a known length of at least 30 s a play counts
      iff it lasted 240 s or half the length; a shorter known length never
      counts; an unknown length (0) counts iff at least 30 s were played. */
  lemma EligibilityRule(length: int, played: int)
    ensures length >= MinLength ==>
      (Qualifies(length, played) <==> played >= MinPlayed || played >= length / 2)
    ensures length != 0 && length < MinLength ==> !Qualifies(length, played)
    ensures length == 0 ==> (Qualifies(length, played) <==> played >= MinLength)
  {
    if length == 0 && played >= MinLength {
      assert CDiv(played, 2) <= played;
    }
  }

  /** The long-pause test implies the AddToQueue rule whenever the length is
      unknown or at least 30 s; but the two rules differ: the first uses
      strict comparisons, and the second also checks the length. */
  lemma LongPauseVersusEligibility(played: int, length: int)
    ensures LongPauseQualifies(played, length) && (length == 0 || length >= MinLength) ==>
      Qualifies(length, played)
    ensures Qualifies(1000, 240) && !LongPauseQualifies(240, 1000)
    ensures Qualifies(0, 30) && !LongPauseQualifies(30, 0)
    ensures LongPauseQualifies(40, 20) && !Qualifies(20, 40)
  {
    if LongPauseQualifies(played, length) && length == 0 {
      assert CDiv(played, 2) <= played;
    }
  }

  /** AddToQueue keeps the queue bounded and complete, only ever appends, and
      appends exactly when the rule accepts the song and there is room. */
  lemma OfferRule(t: Tracker, now: int)
    requires WellFormed(t)
    ensures var t' := Offer(t, now);
      && WellFormed(t')
      && Unset(t'.current)
      && t'.start == t.start && t'.timePause == t.timePause
      && t'.totalPauses == t.totalPauses && t'.metaRead == t.metaRead
      && t.pending <= t'.pending
      && |t'.pending| <= |t.pending| + 1
  {
  }

  /** Which song AddToQueue appends, and when. */
  lemma OfferAppends(t: Tracker, now: int)
    ensures var played := Played(now, t.start, t.totalPauses);
      var t' := Offer(t, now);
      && (|t'.pending| == |t.pending| + 1 <==>
            Complete(t.current) && Qualifies(t.current.length, played) && |t.pending| < QueueMax)
      && (|t'.pending| == |t.pending| + 1 ==>
            var e := t'.pending[|t.pending|];
            && e.artist == t.current.artist && e.title == t.current.title
            && e.album == t.current.album && e.mbid == t.current.mbid
            && e.number == t.current.number && e.date == t.current.date
            && e.length == (if t.current.length == 0 then played else t.current.length))
      && (!HasMandatory(t.current) ==> t'.pending == t.pending && t'.current == Cleared(t.current))
      && (t.current.length != 0 && t.current.length < MinLength ==> t'.pending == t.pending)
      && (|t.pending| >= QueueMax ==> t'.pending == t.pending)
  {
  }

  /** ReadMetaData on a released record: the song is kept only when the item
      supplies both a non-empty artist and a non-empty title; then the
      optional fields are stored when non-empty and the length is the
      duration in whole seconds. */
  lemma ReadMetaRule(s: Song, m: Metadata)
    requires Unset(s)
    ensures var r := ApplyMeta(s, m);
      && (r.artist.Some? <==> NonEmpty(m.artist) && NonEmpty(m.title))
      && (!NonEmpty(m.artist) || !NonEmpty(m.title) ==> r == s)
      && (NonEmpty(m.artist) && NonEmpty(m.title) ==>
            && r.artist == m.artist && r.title == m.title
            && r.album == (if NonEmpty(m.album) then m.album else None)
            && r.mbid == (if NonEmpty(m.trackId) then m.trackId else None)
            && r.number == (if NonEmpty(m.trackNum) then m.trackNum else None)
            && r.length == CDiv(m.duration, TicksPerSecond)
            && r.date == s.date)
  {
  }

  /** ReadMetaData on a song that still holds an artist and a title (one
      that was never released, as after an item change with no END event):
      every text field the new item supplies non-empty replaces the stored
      one, and every field it lacks or leaves empty keeps its earlier value. */
  lemma ReadMetaKeepsUnsuppliedFields(s: Song, m: Metadata)
    requires NonEmpty(s.artist) && NonEmpty(s.title)
    ensures var r := ApplyMeta(s, m);
      && (NonEmpty(m.artist) ==> r.artist == m.artist)
      && (!NonEmpty(m.artist) ==> r.artist == s.artist)
      && (NonEmpty(m.title) ==> r.title == m.title)
      && (!NonEmpty(m.title) ==> r.title == s.title)
      && (NonEmpty(m.album) ==> r.album == m.album)
      && (!NonEmpty(m.album) ==> r.album == s.album)
      && (NonEmpty(m.trackId) ==> r.mbid == m.trackId)
      && (!NonEmpty(m.trackId) ==> r.mbid == s.mbid)
      && (NonEmpty(m.trackNum) ==> r.number == m.trackNum)
      && (!NonEmpty(m.trackNum) ==> r.number == s.number)
      && r.length == CDiv(m.duration, TicksPerSecond)
      && r.date == s.date
  {
  }

  /** A short pause (at most 60 s) is only accounted: it is added to the
      pause total, the pause stamp is cleared, and nothing is queued; the
      played time measured later is the played time as if the pause had not
      happened. */
  lemma ShortPauseIsAccounted(t: Tracker, now: int, epoch: int, item: Option<Metadata>, later: int)
    requires t.timePause > 0
    requires CDiv(now - t.timePause, TicksPerSecond) <= LongPauseSeconds
    ensures var t' := Resume(t, now, epoch, item);
      && t'.pending == t.pending && t'.current == t.current && t'.start == t.start
      && t'.timePause == 0
      && t'.totalPauses == t.totalPauses + (now - t.timePause)
      && Played(later, t'.start, t'.totalPauses)
         == Played(later - (now - t.timePause), t.start, t.totalPauses)
  {
  }

  /** A long pause after enough listening emits the listen and starts a fresh
      listen of the same song: new start tick, new date, no pauses; the
      metadata is read again, so a complete item refills the released record
      and marks the metadata as read. */
  lemma LongPauseSplitsListen(t: Tracker, now: int, epoch: int, item: Option<Metadata>)
    requires WellFormed(t)
    requires t.timePause > 0
    requires CDiv(now - t.timePause, TicksPerSecond) > LongPauseSeconds
    requires LongPauseQualifies(Played(now, t.start, t.totalPauses + (now - t.timePause)), t.current.length)
    ensures var t' := Resume(t, now, epoch, item);
      var t1 := t.(totalPauses := t.totalPauses + (now - t.timePause));
      && t'.pending == Offer(t1, now).pending
      && t'.start == now && t'.totalPauses == 0 && t'.timePause == 0
      && t'.current.date == epoch
      && WellFormed(t')
      && (item.None? ==> t'.metaRead == t.metaRead && t'.current.artist.None?)
      && (item.Some? ==> t'.metaRead)
      && (item.Some? && NonEmpty(item.value.artist) && NonEmpty(item.value.title) ==>
            var m := item.value;
            && t'.current.artist == m.artist && t'.current.title == m.title
            && t'.current.album == (if NonEmpty(m.album) then m.album else None)
            && t'.current.mbid == (if NonEmpty(m.trackId) then m.trackId else None)
            && t'.current.number == (if NonEmpty(m.trackNum) then m.trackNum else None)
            && t'.current.length == CDiv(m.duration, TicksPerSecond))
      && (item.Some? && !(NonEmpty(item.value.artist) && NonEmpty(item.value.title)) ==>
            t'.current.artist.None? && t'.current.title.None?)
  {
    var t1 := t.(totalPauses := t.totalPauses + (now - t.timePause), timePause := 0);
    OfferRule(t1, now);
    if item.Some? {
      ReadMetaRule(Offer(t1, now).current, item.value);
    }
  }

  /** A pause of more than 60 s after too little listening is only
      accounted: nothing is queued, the song and its clock stay, the pause is
      added to the total and the stamp is cleared. */
  lemma LongPauseTooEarly(t: Tracker, now: int, epoch: int, item: Option<Metadata>)
    requires t.timePause > 0
    requires CDiv(now - t.timePause, TicksPerSecond) > LongPauseSeconds
    requires !LongPauseQualifies(Played(now, t.start, t.totalPauses + (now - t.timePause)), t.current.length)
    ensures var t' := Resume(t, now, epoch, item);
      && t'.pending == t.pending && t'.current == t.current && t'.start == t.start
      && t'.metaRead == t.metaRead
      && t'.timePause == 0
      && t'.totalPauses == t.totalPauses + (now - t.timePause)
  {
  }

  /** Scenario: a 300 s track played for 300 s, paused, and resumed 70 s
      later yields exactly one queued listen and restarts the clock; when the
      item is still there, playing it to the end 300 s later queues a second
      listen, dated at the resume. */
  lemma LongPauseScenario(epoch: int, item: Option<Metadata>)
    ensures var song := Song(Some("A"), Some("T"), None, None, 300, None, 7);
      var t := Tracker([], song, 1, 300_000_001, 0, true);
      var t' := Resume(t, 370_000_001, epoch, item);
      && t'.pending == [song]
      && t'.start == 370_000_001 && t'.totalPauses == 0
      && (item == Some(Metadata(Some("A"), Some("T"), None, None, None, 300_000_000)) ==>
            var t'' := Offer(t', 670_000_001);
            && |t''.pending| == 2 && t''.pending[0] == song
            && t''.pending[1] == song.(date := epoch))
  {
    var song := Song(Some("A"), Some("T"), None, None, 300, None, 7);
    var t := Tracker([], song, 1, 300_000_001, 0, true);
    assert CDiv(70_000_000, TicksPerSecond) == 70;
    assert Played(370_000_001, 1, 70_000_000) == 300;
    assert CDiv(300, 2) == 150;
    assert Accepted(song, 300);
    assert WithLength(song, 300) == song;
    if item == Some(Metadata(Some("A"), Some("T"), None, None, None, 300_000_000)) {
      var t' := Resume(t, 370_000_001, epoch, item);
      assert CDiv(300_000_000, TicksPerSecond) == 300;
      assert t'.current == song.(date := epoch);
      assert Played(670_000_001, 370_000_001, 0) == 300;
      assert Accepted(song.(date := epoch), 300);
    }
  }

  /** Starting an item never queues anything; for an audio-only item it
      restarts the clock, the pause total and the date; the metadata counts as
      read afterwards exactly when the item is audio-only and preparsed. */
  lemma BeginRule(t: Tracker, media: Option<Media>, now: int, epoch: int)
    requires WellFormed(t)
    ensures var t' := Begin(t, media, now, epoch);
      && t'.pending == t.pending
      && t'.timePause == t.timePause
      && WellFormed(t')
      && (t'.metaRead <==> media.Some? && !media.value.hasVideo && media.value.preparsed)
      && (media.Some? && !media.value.hasVideo ==>
            t'.start == now && t'.totalPauses == 0 && t'.current.date == epoch)
      && (media.None? || media.value.hasVideo ==> t' == t.(metaRead := false))
  {
  }

  /** Resuming only ever appends, at most one song, and only after a pause. */
  lemma ResumeRule(t: Tracker, now: int, epoch: int, item: Option<Metadata>)
    requires WellFormed(t)
    ensures var r := Resume(t, now, epoch, item);
      && WellFormed(r)
      && t.pending <= r.pending && |r.pending| <= |t.pending| + 1
      && (t.timePause <= 0 ==> r == t)
      && r.timePause == (if t.timePause > 0 then 0 else t.timePause)
  {
    if t.timePause > 0 {
      var t1 := t.(totalPauses := t.totalPauses + (now - t.timePause), timePause := 0);
      OfferRule(t1, now);
    }
  }

  /** Every transition keeps the queue bounded by 50 and filled with complete records. */
  lemma TransitionsPreserveWellFormed(t: Tracker, now: int, epoch: int, item: Option<Metadata>, media: Option<Media>)
    requires WellFormed(t)
    ensures WellFormed(Offer(t, now))
    ensures WellFormed(ReadMeta(t, item))
    ensures WellFormed(PauseAt(t, now))
    ensures WellFormed(Resume(t, now, epoch, item))
    ensures WellFormed(Begin(t, media, now, epoch))
  {
    OfferRule(t, now);
    ResumeRule(t, now, epoch, item);
    BeginRule(t, media, now, epoch);
  }
}
