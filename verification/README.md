# ListenBrainz submission engine for VLC, modelled in Dafny

This project models the listen submission engine of the VLC ListenBrainz
plugin, in both of its generations: `vlc-3.0/listenbrainz.c` (the 3.0
interface API) and `vlc-4.0/listenbrainz.c` (the 4.0 player and playlist
API). The engine has three parts:

- The listen evaluator watches playback. It reads the current item's
  metadata into a song record, measures the time played net of pauses, and
  decides whether the song counts as a listen.
- The bounded queue has 50 slots. A song that counts is pushed there.
- The worker loop turns the queue into a request body, posts it over HTTPS
  and reads the reply. On failure it schedules a retry.

The two files share most of their code. The shared logic is modelled once:

| module | file | contents |
|---|---|---|
| `CText` | ctext.dfy | C conventions the plugin relies on: truncating `/`, the `(uint64_t)` cast, printf decimals, `strstr`, NUL-terminated buffers |
| `Listen` | listen.dfy | the song record, the metadata rule, the eligibility rule, and the abstract engine state `Tracker` with one function per transition |
| `Backoff` | backoff.dfy | `HandleInterval`, the retry schedule, and the 32-bit overflow of the 3.0 delay |
| `Payload` | payload.dfy | the request body exactly as the worker concatenates it |
| `Http` | http.dfy | both generations' request heads, a reader of HTTP/1.1 framing (RFC 7230, section 3), and the `OK` test on the reply |
| `Engine` | engine.dfy | class `Submitter`, the plugin state `intf_sys_t`, with one method per C routine or branch of one: the evaluator's methods (`AddToQueue`, `ReadMetaData`, `Pause`, `ResumePlayback`, `RestartListen`, `BeginItem`) are proved to move `State()` as the matching `Listen` function does; the worker's `BuildPayload`, `ClearQueue` and `Deliver` are proved against `Payload.Payload`, an emptied queue and `Engine.Settle` |
| `Vlc3` | vlc3.dfy | `PlayingChange` and one iteration of the 3.0 worker |
| `Vlc4` | vlc4.dfy | `player_on_state_changed`, `playlist_on_current_index_changed`, and one iteration of the 4.0 worker |

## Behaviour of the code worth knowing

The model follows the code as written, including where it behaves in ways
a reader of the plugin's own comments might not expect:

- **The back-off does not grow.** `HandleInterval` doubles a nonzero
  interval, up to 120 minutes, as its comments say
  (vlc-3.0/listenbrainz.c:462-473). But the worker resets `i_interval` to 0
  and `next_exchange` to "none" before every attempt
  (vlc-3.0/listenbrainz.c:553-554, vlc-4.0/listenbrainz.c:567-568). So
  every failure waits exactly one minute (`Engine.SettleRule`). The
  doubling of `HandleInterval` is proved on its own (`Backoff.BackoffSchedule`).
- **An empty read retries at once.** It does not back off: the interval
  stays at the 0 it was just reset to, and no exchange is scheduled.
- **The body is not JSON in general.**
  - Consecutive listens are not separated by commas
    (`Payload.AdjacentListensUnseparated`).
  - A missing album leaves `", }}` after the title
    (`Payload.OptionalFields`).
  - Strings are inserted without escaping.
- **The 3.0 request head differs.** It has no `Content-Type` line, and it
  writes `User-Agent:vlc/3.0.*` with no blank after the colon. Both
  generations send `\r\n\r\n` after the body, beyond the announced
  Content-Length.
- **Metadata accumulates.** A metadata field that the item lacks, or that
  is empty, keeps the value stored earlier. It is not cleared.
- **Two different eligibility tests.** The test after a long pause
  (`played > 30 && (played > 240 || played >= length / 2)`) is not the
  queue's own test. The two disagree at the boundaries
  (`Listen.LongPauseVersusEligibility`).
- **Any `OK` counts as success.** The reply counts as a success when `OK`
  occurs anywhere in the first 1023 bytes before a NUL. This includes an
  error reply that contains `OK`, such as `401 TOKEN`
  (`Http.LooseConfirmation`).

Clock readings (`mdate`, `vlc_tick_now`, `time`) are parameters: `now` is
in microsecond ticks and `epoch` in seconds. The network outcome of an
attempt is the parameter `Engine.Transport`. The configured token and host
are `Option<string>` parameters. Strings are byte strings: one `char` is
one byte.

## Model

| member | source | states |
|---|---|---|
| CText.CDiv | vlc-3.0/listenbrainz.c:221-223 | C's division of the played ticks by 10^6 truncates toward zero: the quotient times the divisor lies within one divisor of the dividend, on the dividend's side of zero |
| CText.U64 | vlc-3.0/listenbrainz.c:565 | the `(uint64_t)` cast of the date is below 2^64, is the date itself for dates in range, and is congruent to it modulo 2^64 |
| CText.Decimal | vlc-3.0/listenbrainz.c:565 | the `PRIu64` / `%zu` text is a non-empty string of digits with no leading zero except for 0 |
| CText.DecimalRoundTrip | vlc-3.0/listenbrainz.c:589 | a reader of decimal numerals gets back exactly the printed number |
| CText.ContainsIff | vlc-3.0/listenbrainz.c:642 | `strstr(s, p) != NULL` holds exactly when `p` occurs in `s` at some index |
| CText.CString | vlc-3.0/listenbrainz.c:641 | the string a C routine sees in the reply buffer is a prefix of it, has no NUL, and ends at the first NUL |
| Listen.Cleared | vlc-3.0/listenbrainz.c:138-145 | DeleteSong makes every string field NULL and keeps the length and the date |
| Listen.EligibilityRule | vlc-3.0/listenbrainz.c:220-243 | for a known length of at least 30 s, a play counts iff it lasted 240 s or half the length; a shorter known length never counts; an unknown length counts iff 30 s were played |
| Listen.LongPauseVersusEligibility | vlc-3.0/listenbrainz.c:332-337 | the long-pause test implies the queue's test for lengths that are unknown or at least 30 s, and the two tests disagree on named boundary inputs |
| Listen.OfferRule | vlc-3.0/listenbrainz.c:209-286 | AddToQueue keeps the queue at most 50 long and filled with songs that have an artist and a title; it only appends, at most one song; it always releases the current strings and touches no pause field |
| Listen.OfferAppends | vlc-3.0/listenbrainz.c:215-278 | a song is appended iff it is complete, qualifies and the queue has room; the appended entry carries the current fields and date, with length 0 replaced by the played seconds; no artist or title, a known length under 30 s, or a full queue leaves the queue unchanged |
| Listen.ReadMetaRule | vlc-3.0/listenbrainz.c:150-204 | on a released record the song is kept iff the item has a non-empty artist and title; then album, track id and track number are stored when non-empty and the length is the duration in whole seconds; otherwise the record stays released |
| Listen.ReadMetaKeepsUnsuppliedFields | vlc-3.0/listenbrainz.c:159-192 | on a song that still holds an artist and a title, each of artist, title, album, recording id and track number is replaced when the item supplies it non-empty and otherwise keeps the value stored earlier; the length becomes the duration in whole seconds and the date stays |
| Listen.ShortPauseIsAccounted | vlc-3.0/listenbrainz.c:324-345 | a resume after at most 60 s of pause queues nothing, clears the pause stamp, adds the pause to the total, and later played times ignore the pause |
| Listen.LongPauseSplitsListen | vlc-3.0/listenbrainz.c:332-343 | a resume after more than 60 s of pause, with the listen qualifying, queues what AddToQueue queues and restarts the listen: start = now, pause total 0, new date, queue still sound; the metadata is read again, so a complete item refills artist, title and the optional fields and marks the metadata read, and an item without artist or title leaves the record released |
| Listen.LongPauseTooEarly | vlc-3.0/listenbrainz.c:324-343 | a resume after more than 60 s of pause, with too little played, queues nothing and keeps the song, its start and the metadata flag; the pause is added to the total and the stamp cleared |
| Listen.LongPauseScenario | vlc-3.0/listenbrainz.c:324-345 | a 300 s track played 300 s, paused 70 s and resumed yields exactly one queued listen and a restarted clock; with the item still present, 300 s more of play queue a second listen of the same song, dated at the resume |
| Listen.ResumeRule | vlc-3.0/listenbrainz.c:324-346 | resuming keeps the queue bounded and complete, appends at most one song, changes nothing when no pause was stamped, and otherwise clears the pause stamp |
| Listen.BeginRule | vlc-3.0/listenbrainz.c:355-400 | an item change never queues; for an audio-only item it restarts the clock, the pause total and the date; metadata counts as read afterwards iff the item is audio-only and preparsed; without an item or for video only the read flag is cleared |
| Listen.TransitionsPreserveWellFormed | vlc-3.0/listenbrainz.c:253-278 | every transition keeps the queue at most 50 long and filled with complete songs |
| Backoff.NextInterval | vlc-4.0/listenbrainz.c:476-486 | 0 becomes 1, a nonzero interval below 2^31 becomes min(2·interval, 120), the result never exceeds 120 and is 0 only for 2^31 |
| Backoff.HandleInterval | vlc-4.0/listenbrainz.c:474-489 | the new interval is NextInterval of the old, lies in [1, 120] for a reachable interval, and the next exchange is exactly interval minutes after now |
| Backoff.BackoffSchedule | vlc-4.0/listenbrainz.c:474-489 | the n-th consecutive call from "unset" yields min(2^(n-1), 120) minutes |
| Backoff.BackoffSequence | vlc-4.0/listenbrainz.c:474-489 | from "unset" the calls yield 1, 2, …, 64, then 120 for ever |
| Backoff.LegacyDelayWraps | vlc-3.0/listenbrainz.c:473 | the 3.0 delay, computed in unsigned 32-bit arithmetic, is exact up to 71 minutes but wraps to 2905032704 µs for the capped 120 minutes |
| Payload.PayloadFrame | vlc-3.0/listenbrainz.c:556-575 | the body says `single` iff exactly one song is queued and `import` otherwise, and ends with `]}` |
| Payload.JoinedAt | vlc-3.0/listenbrainz.c:562-573 | in a text framed as `h + Joined(q, render) + t` — the body, when `h` is the head, `render` is Fragment and `t` is `]}` — the i-th song's text sits right after the head and the texts of the songs before it |
| Payload.AdjacentListensUnseparated | vlc-3.0/listenbrainz.c:562-573 | between two consecutive listens the body has `}}` immediately followed by `{`: no comma |
| Payload.FragmentShape | vlc-3.0/listenbrainz.c:565-572 | a fragment opens with `{` and closes with `}}` |
| Payload.FragmentDate | vlc-3.0/listenbrainz.c:565 | the listened_at number reads back as the date cast to 64-bit unsigned, followed by a comma |
| Payload.OptionalFields | vlc-3.0/listenbrainz.c:566-572 | `release_name` follows the title iff the album is present, `additional_info` follows iff the recording id is present, and with neither the title is followed by `", }}` |
| Http.ParseFrame | vlc-3.0/listenbrainz.c:582-592 | head lines joined with CRLF, an empty line and a body are read back as exactly those lines and that body |
| Http.Request3Reads | vlc-3.0/listenbrainz.c:582-592 | a server reads the 3.0 request as its seven head lines and body; Content-Length announces the payload's length, the entity is the payload, and four more bytes follow it |
| Http.Request3Headers | vlc-3.0/listenbrainz.c:582-589 | the 3.0 request names the configured host, `Token` and the token, the agent `vlc/3.0.*`, and has no Content-Type |
| Http.Request4Reads | vlc-4.0/listenbrainz.c:596-607 | a server reads the 4.0 request as its eight head lines and body; Content-Length announces the payload's length, the entity is the payload, and four more bytes follow it |
| Http.Request4Headers | vlc-4.0/listenbrainz.c:596-604 | the 4.0 request names the host, the token, the build's agent and the content type `application/json` |
| Http.ConfirmsIff | vlc-3.0/listenbrainz.c:632-642 | the reply is taken as success iff `OK` occurs within its first 1023 bytes with no NUL before it |
| Http.LooseConfirmation | vlc-3.0/listenbrainz.c:641-642 | an error reply containing `OK` counts as success; a NUL hides an `OK` after it |
| Engine.SettleRule | vlc-3.0/listenbrainz.c:553-654 | after an attempt reaches the network: delivered iff the reply holds `OK`, retried at once iff nothing was read, both with interval 0 and no exchange; unreachable iff no reply, refused iff a non-empty reply without `OK`, and any failure waits exactly one minute, never the doubled interval |
| Engine.Submitter.constructor | vlc-3.0/listenbrainz.c:405-414 | the state as calloc leaves it: empty queue, blank song, zero clocks, metadata unread |
| Engine.Submitter.AddToQueue | vlc-3.0/listenbrainz.c:209-286 | the array update moves the state exactly as Listen.Offer does, keeping the queue sound |
| Engine.Submitter.ReadMetaData | vlc-3.0/listenbrainz.c:150-204 | moves the state exactly as Listen.ReadMeta does |
| Engine.Submitter.StoreDetails | vlc-3.0/listenbrainz.c:190-194 | the tail of ReadMetaData once artist and title are kept: album, recording id and track number are replaced when supplied non-empty and kept otherwise, the length becomes the duration in whole seconds, and nothing else changes |
| Engine.Submitter.Pause | vlc-3.0/listenbrainz.c:322-323 | stamps the pause and changes nothing else |
| Engine.Submitter.ResumePlayback | vlc-3.0/listenbrainz.c:324-346 | moves the state exactly as Listen.Resume does |
| Engine.Submitter.RestartListen | vlc-3.0/listenbrainz.c:338-342 | AddToQueue, ReadMetaData, then a new start, date and pause total, as Listen.Restart |
| Engine.Submitter.BeginItem | vlc-3.0/listenbrainz.c:355-400 | ItemChange moves the state exactly as Listen.Begin does |
| Engine.Submitter.BuildPayload | vlc-3.0/listenbrainz.c:556-575 | the loop of printf calls over the pending slots produces Payload of the pending songs |
| Engine.AppendFragment | vlc-3.0/listenbrainz.c:565-572 | the printf calls for one song append exactly that song's fragment |
| Engine.Submitter.ClearQueue | vlc-3.0/listenbrainz.c:643-645 | every pending slot is released, the queue becomes empty, and the current song and clocks are untouched |
| Engine.Submitter.Deliver | vlc-3.0/listenbrainz.c:605-654 | the attempt ends as Engine.Settle says; on delivery only the queue changes (it is emptied, the current song, clocks and metadata flag stay), and otherwise nothing changes |
| Vlc3.PlayingChange | vlc-3.0/listenbrainz.c:291-350 | moves the state as Vlc3.OnInputEvent: other events and video inputs are ignored; an unread item at PLAYING or later reads metadata; END or ERROR queues; PAUSE stamps; PLAYING resumes |
| Vlc3.InputEventRule | vlc-3.0/listenbrainz.c:291-350 | an input event keeps the queue sound, appends at most one song, and only on END, ERROR or a resume of an audio input whose metadata was read |
| Vlc3.EndAndPause | vlc-3.0/listenbrainz.c:313-323 | END or ERROR after the read submits; a PAUSE before the read reads metadata and does not stamp the pause; a PAUSE after the read only stamps it |
| Vlc3.RunStep | vlc-3.0/listenbrainz.c:496-655 | nothing queued: wait; no token or no URL: stop with nothing changed; otherwise the 3.0 request carries Payload of the queue, and the attempt settles as Engine.Settle; on delivery only the queue changes (it is emptied), and otherwise nothing changes |
| Vlc4.PlayerStateChanged | vlc-4.0/listenbrainz.c:279-336 | moves the state as Vlc4.OnStateChanged: video is ignored; an unread item at PLAYING or later reads metadata; STOPPED queues; PAUSED stamps; PLAYING resumes |
| Vlc4.StateChangeRule | vlc-4.0/listenbrainz.c:279-336 | a state change keeps the queue sound and appends at most one song, only on STOPPED or a resume after the read; STOPPED queues even before the read; STARTED and STOPPING after the read change nothing |
| Vlc4.CurrentIndexChanged | vlc-4.0/listenbrainz.c:341-373 | moves the state as Vlc4.OnIndexChanged: a positive index offers the previous song first, then the new item starts |
| Vlc4.IndexChangeRule | vlc-4.0/listenbrainz.c:341-373 | a positive index queues exactly what AddToQueue would; any other index queues nothing; metadata is never marked read for a missing or video item |
| Vlc4.RunStep | vlc-4.0/listenbrainz.c:509-670 | as in 3.0, with the 4.0 request carrying the build's agent and the JSON content type |

## Findings

| source | as written | input that shows it | evidently intended | confidence | as-written member | corrected member |
|---|---|---|---|---|---|---|
| vlc-3.0/listenbrainz.c:473 | `*i_interval * 1000000 * 60` is evaluated in `unsigned int`, so the delay wraps modulo 2^32 µs | interval 120 gives 2905032704 µs (about 48 minutes) instead of 7200000000 µs (120 minutes); every interval above 71 wraps | a delay of exactly `interval` minutes, as the 4.0 plugin computes it in 64-bit ticks (vlc-4.0/listenbrainz.c:488) | high, not executed; unreachable from Run as written, which resets the interval to 0 before each attempt | Backoff.LegacyDelayWraps | Backoff.HandleInterval |

## Left out

- Threads, the mutex and the condition variable are left out. The
  callbacks and the worker are modelled as sequential steps on one
  `Submitter`. The worker builds the body under the lock and clears the
  queue without it, so a song queued between the two steps may be dropped
  unsent. Such races are not modelled.
- Waiting is left out: `mwait` / `vlc_tick_wait` until the next exchange,
  and the 4.0 worker's initial one-minute wait. Each `RunStep` starts after
  the wait.
- Clock readings are parameters. Within one callback all readings are one
  instant, although AddToQueue reads the clock again after the long-pause
  test.
- `vlc_uri_encode` / `vlc_uri_decode` are taken as the identity. The body
  decodes the stored strings in place, so a retry decodes them a second
  time. This repeated decoding is not modelled.
- URL building and parsing are left out. This includes the 3.0 `snprintf`
  into an uninitialised pointer (vlc-3.0/listenbrainz.c:533). The request
  path is `/1/submit-listens` and the host is the configured value.
- The TLS socket is not modelled. Its connect, write and single read
  become the input `Engine.Transport`. A reply split over several reads is
  not modelled.
- Out-of-memory exits are not modelled: failing memstreams, and Open's
  allocation failures.
- Configuration reading and the error dialog are not modelled. The token
  and the submission host are inputs.
- Module registration, listener wiring in Open and Close, and logging are
  left out. Freeing at Close is left out too, beyond fields becoming NULL.
- The 3.0 flag `b_submit_nowp` is left out: it is written and never read.
- Integer widths of lengths are not modelled. `i_l` is a C `int` that
  receives a 64-bit played time or duration. The model keeps lengths
  unbounded.
- Http.Request3Reads, Http.Request4Reads: stated only for a host, token and
  agent without line breaks. A configured token that contains CR LF would
  inject extra header lines, and this is not modelled.
- Http.Request3Headers, Http.Request4Headers: stated for a host and agent
  with no leading blank, which a reader would strip as optional whitespace.
  Header names are matched case-sensitively.
