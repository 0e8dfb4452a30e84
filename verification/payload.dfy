/** The submission body exactly as the worker concatenates it. It is not
    JSON in general: listens follow each other without a comma, a missing
    album leaves a dangling `", "` behind the title, and strings are inserted
    without escaping. */
module Payload {
  import opened CText
  import opened Listen

  const SingleHead: string := "{\"listen_type\":\"single\",\"payload\":["
  const ImportHead: string := "{\"listen_type\":\"import\",\"payload\":["
  const Tail: string := "]}"
  const ListenedAtKey: string := "{\"listened_at\": "
  const ReleaseKey: string := " \"release_name\": \""
  const InfoKey: string := ", \"additional_info\": {\"recording_mbid\":\""
  const FragmentEnd: string := "}}"

  /** The text `%s` prints for a stored field; every queued record has its
      artist and title, so the `None` case is never printed. */
  function Text(o: Option<string>): string {
    match o
    case Some(v) => v
    case None => ""
  }

  function Head(n: nat): string {
    if n == 1 then SingleHead else ImportHead
  }

  /** The mandatory part of a listen: date, artist and title. */
  function TrackPart(s: Song): string {
    ListenedAtKey + Decimal(U64(s.date)) + NamesPart(s)
  }

  function NamesPart(s: Song): string {
    ", \"track_metadata\": {\"artist_name\": \"" + Text(s.artist) + "\", "
    + " \"track_name\": \"" + Text(s.title) + "\", "
  }

  function ReleasePart(album: Option<string>): string {
    match album
    case Some(b) => ReleaseKey + b + "\""
    case None => ""
  }

  function InfoPart(mbid: Option<string>): string {
    match mbid
    case Some(m) => InfoKey + m + "\"} "
    case None => ""
  }

  /** The text one queued song contributes. */
  function Fragment(s: Song): string {
    TrackPart(s) + OptionalPart(s)
  }

  /** What follows the title: the optional fields and the closing braces. */
  function OptionalPart(s: Song): string {
    ReleasePart(s.album) + InfoPart(s.mbid) + FragmentEnd
  }

  /** The texts `render` gives the songs of `q`, concatenated in order. */
  function Joined(q: seq<Song>, render: Song -> string): string {
    if q == [] then "" else Joined(q[..|q| - 1], render) + render(q[|q| - 1])
  }

  /** The fragments of the queued songs, in queue order. */
  function Fragments(q: seq<Song>): string {
    Joined(q, Fragment)
  }

  function Payload(q: seq<Song>): string {
    Head(|q|) + Fragments(q) + Tail
  }

  /** The body opens with listen_type "single" exactly when one song is
      queued and "import" otherwise, and closes with `]}`. */
  lemma PayloadFrame(q: seq<Song>)
    ensures StartsWith(Payload(q), SingleHead) <==> |q| == 1
    ensures StartsWith(Payload(q), ImportHead) <==> |q| != 1
    ensures |Payload(q)| >= |SingleHead| + 2 && Payload(q)[|Payload(q)| - 2..] == Tail
  {
    Framed(Head(|q|), Fragments(q), Tail);
    if |q| == 1 {
      HeadsDiffer(Payload(q), SingleHead, ImportHead, 16);
    } else {
      HeadsDiffer(Payload(q), ImportHead, SingleHead, 16);
    }
  }

  lemma Framed(h: string, body: string, t: string)
    ensures StartsWith(h + body + t, h)
    ensures |h + body + t| >= |h| + |t| && (h + body + t)[|h + body + t| - |t|..] == t
  {
    assert (h + body + t)[..|h|] == h;
  }

  /** A text that starts with `a` does not start with `b` when the two differ
      at index `j`. */
  lemma HeadsDiffer(p: string, a: string, b: string, j: nat)
    requires StartsWith(p, a) && j < |a| && j < |b| && a[j] != b[j]
    ensures !StartsWith(p, b)
  {
    assert p[j] == p[..|a|][j];
    if |b| <= |p| {
      assert p[..|b|][j] == p[j];
    }
  }

  /** Offset of the i-th song's fragment in the body. */
  function FragmentOffset(q: seq<Song>, i: nat): nat
    requires i <= |q|
  {
    |SingleHead| + |Fragments(q[..i])|
  }

  /** `b` is found at offset |a| in `a + b + c`. */
  lemma SliceOfConcat(a: string, b: string, c: string)
    ensures (a + b + c)[|a|..|a| + |b|] == b
  {
  }

  lemma Regroup(h: string, b: string, f: string, r: string, t: string)
    ensures h + (b + f + r) + t == (h + b) + f + (r + t)
  {
  }

  lemma {:induction false} JoinedPrefix(q: seq<Song>, k: nat, render: Song -> string)
    requires k <= |q|
    ensures Joined(q[..k], render) <= Joined(q, render)
    decreases |q|
  {
    if k < |q| {
      var init := q[..|q| - 1];
      JoinedPrefix(init, k, render);
      assert init[..k] == q[..k];
    } else {
      assert q[..k] == q;
    }
  }

  lemma JoinedStep(q: seq<Song>, i: nat, render: Song -> string)
    requires i < |q|
    ensures Joined(q[..i + 1], render) == Joined(q[..i], render) + render(q[i])
  {
    var pre := q[..i + 1];
    assert pre[..|pre| - 1] == q[..i];
  }

  /** The text of the i-th song sits right after the texts of the songs
      before it, wherever the joined text is framed. */
  lemma {:induction false} JoinedAt(h: string, q: seq<Song>, t: string, i: nat, render: Song -> string, o: nat)
    requires i < |q| && o == |h| + |Joined(q[..i], render)|
    ensures o + |render(q[i])| <= |h + Joined(q, render) + t|
    ensures (h + Joined(q, render) + t)[o..o + |render(q[i])|] == render(q[i])
  {
    var before := Joined(q[..i], render);
    var f := render(q[i]);
    var all := Joined(q, render);
    JoinedPrefix(q, i + 1, render);
    JoinedStep(q, i, render);
    assert before + f <= all;
    var rest := all[|before + f|..];
    assert all == before + f + rest;
    Regroup(h, before, f, rest, t);
    SliceOfConcat(h + before, f, rest + t);
  }

  /** Appending the text of song `i` to the texts of the songs before it
      gives the texts of the first `i + 1` songs. */
  lemma JoinedGrows(h: string, q: seq<Song>, i: nat, s: Song, render: Song -> string, before: string, after: string)
    requires i < |q| && s == q[i]
    requires before == h + Joined(q[..i], render) && after == before + render(s)
    ensures after == h + Joined(q[..i + 1], render)
  {
    JoinedStep(q, i, render);
    assert (h + Joined(q[..i], render)) + render(q[i]) == h + (Joined(q[..i], render) + render(q[i]));
  }

  /** Appending the fragment of song `i` to the body built from the songs
      before it gives the body built from the first `i + 1` songs. */
  lemma FragmentsGrow(h: string, q: seq<Song>, i: nat, s: Song, before: string, after: string)
    requires i < |q| && s == q[i]
    requires before == h + Fragments(q[..i]) && after == before + Fragment(s)
    ensures after == h + Fragments(q[..i + 1])
  {
    JoinedGrows(h, q, i, s, Fragment, before, after);
  }

  /** Before any song the body is the head alone. */
  lemma FragmentsNone(h: string, q: seq<Song>)
    ensures h == h + Fragments(q[..0])
  {
    assert q[..0] == [];
  }

  /** The head, the fragments of the first `n` songs and the tail make the
      body for those songs. */
  lemma BodyDone(q: seq<Song>, n: nat, body: string, whole: string)
    requires n <= |q| && body == Head(n) + Fragments(q[..n]) && whole == body + Tail
    ensures whole == Payload(q[..n])
  {
  }

  lemma HeadLength(n: nat)
    ensures |Head(n)| == |SingleHead|
  {
  }

  lemma SliceOfSlice(p: string, a: nat, b: nat, c: nat, d: nat)
    requires a <= c <= d <= b <= |p|
    ensures p[c..d] == p[a..b][c - a..d - a]
  {
    assert forall j :: 0 <= j < d - c ==> p[c..d][j] == p[c + j] == p[a..b][c - a..d - a][j];
  }

  lemma SuffixOfConcat(a: string, b: string)
    ensures (a + b)[|a|..] == b
  {
  }

  /** A piece `f` found at `o` in `p` puts its last two characters just
      before `o' == o + |f|`. */
  lemma PieceEnds(p: string, o: nat, f: string, o': nat)
    requires o' == o + |f| && o' <= |p| && |f| >= 2 && p[o..o + |f|] == f
    ensures p[o' - 2..o'] == f[|f| - 2..]
  {
    SliceOfSlice(p, o, o + |f|, o + |f| - 2, o + |f|);
  }

  /** Opens with `{` and closes with `}}`. */
  predicate Braced(x: string) {
    |x| >= 3 && x[0] == '{' && x[|x| - 2..] == FragmentEnd
  }

  /** Where two braced texts follow each other in the joined text, the
      first one's `}}` is directly followed by the second one's `{`. */
  lemma JoinedJunction(h: string, q: seq<Song>, t: string, i: nat, render: Song -> string, o: nat)
    requires i + 1 < |q| && Braced(render(q[i])) && Braced(render(q[i + 1]))
    requires o == |h| + |Joined(q[..i + 1], render)|
    ensures 2 <= o < |h + Joined(q, render) + t|
    ensures (h + Joined(q, render) + t)[o - 2..o] == FragmentEnd && (h + Joined(q, render) + t)[o] == '{'
  {
    var p := h + Joined(q, render) + t;
    var f, g := render(q[i]), render(q[i + 1]);
    var o0 := |h| + |Joined(q[..i], render)|;
    JoinedStep(q, i, render);
    JoinedAt(h, q, t, i, render, o0);
    JoinedAt(h, q, t, i + 1, render, o);
    PieceEnds(p, o0, f, o);
    assert p[o] == p[o..o + |g|][0];
  }

  /** Consecutive listens are not separated by a comma: one fragment's `}}`
      is followed directly by the next one's `{`. */
  lemma AdjacentListensUnseparated(q: seq<Song>, i: nat)
    requires i + 1 < |q|
    ensures var o := FragmentOffset(q, i + 1);
      2 <= o < |Payload(q)| && Payload(q)[o - 2..o] == FragmentEnd && Payload(q)[o] == '{'
  {
    FragmentShape(q[i]);
    FragmentShape(q[i + 1]);
    HeadLength(|q|);
    JoinedJunction(Head(|q|), q, Tail, i, Fragment, FragmentOffset(q, i + 1));
  }

  /** The fragment laid out as key, date digits, names and what follows. */
  lemma FragmentLayout(s: Song)
    ensures Fragment(s) == ListenedAtKey + Decimal(U64(s.date)) + (NamesPart(s) + OptionalPart(s))
    ensures Fragment(s) == ListenedAtKey + (Decimal(U64(s.date)) + NamesPart(s) + (ReleasePart(s.album) + InfoPart(s.mbid))) + FragmentEnd
  {
    Layouts(ListenedAtKey, Decimal(U64(s.date)), NamesPart(s), ReleasePart(s.album) + InfoPart(s.mbid), FragmentEnd);
  }

  lemma Layouts(k: string, d: string, n: string, r: string, e: string)
    ensures k + d + n + (r + e) == k + d + (n + (r + e))
    ensures k + d + n + (r + e) == k + (d + n + r) + e
  {
  }

  /** The names part opens with a comma and ends with `", `. */
  lemma NamesShape(s: Song)
    ensures |NamesPart(s)| >= 3 && NamesPart(s)[0] == ','
    ensures NamesPart(s)[|NamesPart(s)| - 3..] == "\", "
  {
  }

  /** A fragment opens with `{` and closes with `}}`. */
  lemma FragmentShape(s: Song)
    ensures Braced(Fragment(s))
  {
    FragmentLayout(s);
    Enclosed(ListenedAtKey, Decimal(U64(s.date)) + NamesPart(s) + (ReleasePart(s.album) + InfoPart(s.mbid)), FragmentEnd);
  }

  lemma Enclosed(open: string, mid: string, close: string)
    requires |open| >= 1 && |close| == 2
    ensures var x := open + mid + close;
      |x| >= 3 && x[0] == open[0] && x[|x| - 2..] == close
  {
    assert (open + mid + close)[0] == open[0];
  }

  /** In `key + d + (n + o)`, `d` sits right after the key and is followed by
      the first character of `n`. */
  lemma AfterKey(key: string, d: string, n: string, o: string)
    requires |n| > 0
    ensures |key| + |d| < |key + d + (n + o)|
    ensures (key + d + (n + o))[|key|..|key| + |d|] == d
    ensures (key + d + (n + o))[|key| + |d|] == n[0]
  {
    SliceOfConcat(key, d, n + o);
  }

  /** The listened_at value reads back as the song's date converted to an
      unsigned 64-bit number, and is followed by a comma. */
  lemma FragmentDate(s: Song)
    ensures var d := Decimal(U64(s.date));
      var f := Fragment(s);
      && |ListenedAtKey| + |d| < |f|
      && ParseDecimal(f[|ListenedAtKey|..|ListenedAtKey| + |d|]) == Some(U64(s.date))
      && f[|ListenedAtKey| + |d|] == ','
  {
    FragmentLayout(s);
    NamesShape(s);
    AfterKey(ListenedAtKey, Decimal(U64(s.date)), NamesPart(s), OptionalPart(s));
    DecimalRoundTrip(U64(s.date));
  }

  lemma KeyAtFront(key: string, x: string, z: string, y: string)
    ensures StartsWith(key + x + z + y, key)
  {
    assert key + x + z + y == key + (x + z + y);
  }

  /** A text whose first character differs from the key's does not start
      with the key. */
  lemma NotKeyAtFront(key: string, a: string, x: string, z: string, y: string)
    requires |key| > 0 && |a| > 0 && a[0] != key[0]
    ensures !StartsWith(a + x + z + y, key)
  {
    assert (a + x + z + y)[0] == a[0];
  }

  lemma Tails(t: string, r: string, i: string, e: string)
    ensures |t| + |r| <= |t + (r + i + e)|
    ensures (t + (r + i + e))[|t|..] == r + i + e
    ensures (t + (r + i + e))[|t| + |r|..] == i + e
  {
    assert (t + (r + i + e))[|t| + |r|..] == (r + i + e)[|r|..];
    assert r + i + e == r + (i + e);
  }

  /** What follows the track part: the optional release, the optional
      recording id, then the closing braces. */
  lemma OptionalLayout(s: Song)
    ensures |TrackPart(s)| + |ReleasePart(s.album)| <= |Fragment(s)|
    ensures Fragment(s)[|TrackPart(s)|..] == ReleasePart(s.album) + InfoPart(s.mbid) + FragmentEnd
    ensures Fragment(s)[|TrackPart(s)| + |ReleasePart(s.album)|..] == InfoPart(s.mbid) + FragmentEnd
  {
    Tails(TrackPart(s), ReleasePart(s.album), InfoPart(s.mbid), FragmentEnd);
  }

  lemma ReleaseField(s: Song)
    ensures StartsWith(Fragment(s)[|TrackPart(s)|..], ReleaseKey) <==> s.album.Some?
  {
    OptionalLayout(s);
    match s.album
    case Some(b) =>
      KeyAtFront(ReleaseKey, b, "\"", InfoPart(s.mbid) + FragmentEnd);
      Tails(ReleaseKey + b + "\"", [], InfoPart(s.mbid), FragmentEnd);
      assert ReleasePart(s.album) + InfoPart(s.mbid) + FragmentEnd
        == ReleaseKey + b + "\"" + (InfoPart(s.mbid) + FragmentEnd);
    case None =>
      match s.mbid
      case Some(m) =>
        NotKeyAtFront(ReleaseKey, InfoKey, m, "\"} ", FragmentEnd);
        assert ReleasePart(s.album) + InfoPart(s.mbid) + FragmentEnd == InfoKey + m + "\"} " + FragmentEnd;
      case None =>
        NotKeyAtFront(ReleaseKey, FragmentEnd, "", "", "");
  }

  lemma InfoField(s: Song)
    ensures |TrackPart(s)| + |ReleasePart(s.album)| <= |Fragment(s)|
    ensures StartsWith(Fragment(s)[|TrackPart(s)| + |ReleasePart(s.album)|..], InfoKey) <==> s.mbid.Some?
  {
    OptionalLayout(s);
    match s.mbid
    case Some(m) =>
      KeyAtFront(InfoKey, m, "\"} ", FragmentEnd);
    case None =>
      NotKeyAtFront(InfoKey, FragmentEnd, "", "", "");
  }

  lemma BareEnding(s: Song)
    requires s.album.None? && s.mbid.None?
    ensures |TrackPart(s)| >= 3 && Fragment(s)[|TrackPart(s)| - 3..] == "\", }}"
  {
    NamesShape(s);
    BareTail(ListenedAtKey + Decimal(U64(s.date)), NamesPart(s), "", "", FragmentEnd);
  }

  /** With empty optional parts, the last three characters of the names are
      followed directly by the ending. */
  lemma BareTail(a: string, n: string, r: string, i: string, e: string)
    requires |n| >= 3 && |r| == 0 && |i| == 0
    ensures |a + n| >= 3 && (a + n + (r + i + e))[|a + n| - 3..] == n[|n| - 3..] + e
  {
    assert r + i + e == e;
    assert (a + n + e)[|a + n| - 3..] == (a + n)[|a + n| - 3..] + e;
  }

  /** After the title, `release_name` appears exactly when the album is
      present, and after that `additional_info` exactly when the recording
      id is present; with neither, the title is followed by `", }}`. */
  lemma OptionalFields(s: Song)
    ensures var f := Fragment(s);
      var k := |TrackPart(s)|;
      var k' := k + |ReleasePart(s.album)|;
      && k' <= |f|
      && (StartsWith(f[k..], ReleaseKey) <==> s.album.Some?)
      && (StartsWith(f[k'..], InfoKey) <==> s.mbid.Some?)
      && (s.album.None? && s.mbid.None? ==> f[k - 3..] == "\", }}")
  {
    ReleaseField(s);
    InfoField(s);
    if s.album.None? && s.mbid.None? {
      BareEnding(s);
    }
  }
}
