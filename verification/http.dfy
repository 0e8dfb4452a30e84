/** The HTTP/1.1 request the worker writes to the TLS socket, and a reader
    of the request head as a server applies it (section 3 of RFC 7230: lines
    ended by CRLF, an empty line, then the message body). The reader is the
    partner of the request builders: the lemmas below show that a server
    recovers from each request the header lines, the announced length and
    the payload. */
module Http {
  import opened CText

  const CRLF: string := "\r\n"
  const SubmitPath: string := "/1/submit-listens"

  /** A text that can be sent inside one header line. */
  predicate SingleLine(s: string) {
    forall i :: 0 <= i < |s| ==> s[i] != '\r' && s[i] != '\n'
  }

  /** Each line followed by CRLF. */
  function JoinLines(lines: seq<string>): string {
    if lines == [] then "" else lines[0] + CRLF + JoinLines(lines[1..])
  }

  /** A message: its head lines, the empty line, then the body. */
  function Frame(lines: seq<string>, body: string): string {
    JoinLines(lines) + CRLF + body
  }

  /** Index of the first CR in `s`. */
  function IndexOfCR(s: string): (r: Option<nat>)
    ensures r.Some? ==>
      (r.value < |s| && s[r.value] == '\r' && forall j :: 0 <= j < r.value ==> s[j] != '\r')
    ensures r.None? ==> forall j :: 0 <= j < |s| ==> s[j] != '\r'
  {
    if s == [] then None
    else if s[0] == '\r' then Some(0)
    else match IndexOfCR(s[1..])
      case None => None
      case Some(k) => Some(k + 1)
  }

  datatype Message = Message(lines: seq<string>, body: string)

  /** Reads head lines up to the empty line; the rest is the body. `None`
      when a CR is not followed by LF or the head never ends. */
  function Parse(s: string): Option<Message>
    decreases |s|
  {
    if StartsWith(s, CRLF) then Some(Message([], s[2..]))
    else match IndexOfCR(s)
      case None => None
      case Some(i) =>
        if i + 1 < |s| && s[i + 1] == '\n' then
          match Parse(s[i + 2..])
          case None => None
          case Some(m) => Some(Message([s[..i]] + m.lines, m.body))
        else None
  }

  predicate Sendable(lines: seq<string>) {
    forall k :: 0 <= k < |lines| ==> |lines[k]| > 0 && SingleLine(lines[k])
  }

  lemma {:induction false} ParseFrame(lines: seq<string>, body: string)
    requires Sendable(lines)
    ensures Parse(Frame(lines, body)) == Some(Message(lines, body))
    decreases |lines|
  {
    var s := Frame(lines, body);
    if lines == [] {
      assert s == CRLF + body;
      assert s[2..] == body;
    } else {
      var l := lines[0];
      var rest := Frame(lines[1..], body);
      assert s == l + (CRLF + rest);
      assert s[..|l|] == l;
      assert s[|l|] == '\r' && s[|l| + 1] == '\n';
      assert s[|l| + 2..] == rest;
      assert !StartsWith(s, CRLF) by {
        assert s[0] == l[0];
      }
      IndexOfCRAt(s, |l|);
      assert Sendable(lines[1..]);
      ParseFrame(lines[1..], body);
      assert [l] + lines[1..] == lines;
    }
  }

  lemma IndexOfCRAt(s: string, i: nat)
    requires i < |s| && s[i] == '\r'
    requires forall j :: 0 <= j < i ==> s[j] != '\r'
    ensures IndexOfCR(s) == Some(i)
  {
    var r := IndexOfCR(s);
    assert r.Some?;
  }

  /** The text without its leading blanks and tabs. */
  function TrimLeft(s: string): string {
    if s != [] && (s[0] == ' ' || s[0] == '\t') then TrimLeft(s[1..]) else s
  }

  /** The value of the first header line named `name`, without the
      optional whitespace after the colon. */
  function Header(lines: seq<string>, name: string): Option<string> {
    if lines == [] then None
    else if StartsWith(lines[0], name + ":") then Some(TrimLeft(lines[0][|name| + 1..]))
    else Header(lines[1..], name)
  }

  /** The number a receiver reads from Content-Length. */
  function ContentLength(m: Message): Option<nat> {
    match Header(m.lines, "Content-Length")
    case None => None
    case Some(v) => ParseDecimal(v)
  }

  /** The entity a receiver takes from the body: Content-Length bytes. */
  function Entity(m: Message): Option<string> {
    match ContentLength(m)
    case None => None
    case Some(n) => if n <= |m.body| then Some(m.body[..n]) else None
  }

  /** What the worker appends after the payload, beyond the announced length. */
  const Trailer: string := "\r\n\r\n"
  const AgentV3: string := "vlc/3.0.*"

  /** A header line as the plugin prints it: `name: value`. */
  function Field(name: string, value: string): string {
    name + ": " + value
  }

  const RequestLine: string := "POST " + SubmitPath + " HTTP/1.1"

  /** The head lines written by the 3.0 plugin; its User-Agent line has no
      blank after the colon. */
  function Lines3(host: string, token: string, length: nat): seq<string> {
    [ RequestLine,
      Field("Host", host),
      Field("Authorization", "Token " + token),
      "User-Agent:" + AgentV3,
      Field("Connection", "close"),
      Field("Accept-Encoding", "identity"),
      Field("Content-Length", Decimal(length)) ]
  }

  /** The head lines written by the 4.0 plugin: a blank after `User-Agent:`,
      the agent taken from the build, and a Content-Type line. */
  function Lines4(host: string, token: string, agent: string, length: nat): seq<string> {
    [ RequestLine,
      Field("Host", host),
      Field("Authorization", "Token " + token),
      Field("User-Agent", agent),
      Field("Connection", "close"),
      Field("Accept-Encoding", "identity"),
      Field("Content-Length", Decimal(length)),
      Field("Content-Type", "application/json") ]
  }

  function Request3(host: string, token: string, payload: string): string {
    Frame(Lines3(host, token, |payload|), payload + Trailer)
  }

  function Request4(host: string, token: string, agent: string, payload: string): string {
    Frame(Lines4(host, token, agent, |payload|), payload + Trailer)
  }

  /** A configured text that keeps its meaning inside a header line: no line
      break, and no leading blank that a reader would strip. */
  predicate Plain(s: string) {
    SingleLine(s) && (s == [] || (s[0] != ' ' && s[0] != '\t'))
  }

  lemma SingleLineConcat(a: string, b: string)
    requires SingleLine(a) && SingleLine(b)
    ensures SingleLine(a + b)
  {
  }

  lemma FieldSendable(name: string, v: string)
    requires SingleLine(name) && SingleLine(v)
    ensures |Field(name, v)| > 0 && SingleLine(Field(name, v))
  {
    SingleLineConcat(name, ": ");
    SingleLineConcat(name + ": ", v);
  }

  lemma DecimalSingleLine(n: nat)
    ensures Plain(Decimal(n))
  {
    var d := Decimal(n);
    forall i | 0 <= i < |d| ensures d[i] != '\r' && d[i] != '\n' {
      assert IsDigit(d[i]);
    }
    assert IsDigit(d[0]);
  }

  /** A line `name: value` is found under `name` and yields `value`. */
  lemma HeaderLine(name: string, v: string)
    requires Plain(v)
    ensures StartsWith(Field(name, v), name + ":")
    ensures TrimLeft(Field(name, v)[|name| + 1..]) == v
  {
    var l := Field(name, v);
    assert l[..|name| + 1] == name + ":";
    assert l[|name| + 1..] == " " + v;
    assert (" " + v)[1..] == v;
  }

  lemma Lines3Sendable(host: string, token: string, n: nat)
    requires SingleLine(host) && SingleLine(token)
    ensures Sendable(Lines3(host, token, n))
  {
    var lines := Lines3(host, token, n);
    FieldSendable("Host", host);
    SingleLineConcat("Token ", token);
    FieldSendable("Authorization", "Token " + token);
    FieldSendable("Connection", "close");
    FieldSendable("Accept-Encoding", "identity");
    DecimalSingleLine(n);
    FieldSendable("Content-Length", Decimal(n));
    assert SingleLine(lines[0]) && SingleLine(lines[3]);
  }

  lemma Lines4Sendable(host: string, token: string, agent: string, n: nat)
    requires SingleLine(host) && SingleLine(token) && SingleLine(agent)
    ensures Sendable(Lines4(host, token, agent, n))
  {
    var lines := Lines4(host, token, agent, n);
    FieldSendable("Host", host);
    SingleLineConcat("Token ", token);
    FieldSendable("Authorization", "Token " + token);
    FieldSendable("User-Agent", agent);
    FieldSendable("Connection", "close");
    FieldSendable("Accept-Encoding", "identity");
    DecimalSingleLine(n);
    FieldSendable("Content-Length", Decimal(n));
    FieldSendable("Content-Type", "application/json");
    assert SingleLine(lines[0]);
  }
  /** A server reading the 3.0 request recovers the head lines and the body,
      finds the payload as the entity Content-Length announces, and is sent
      four bytes (`\r\n\r\n`) beyond that entity. */
  lemma Request3Reads(host: string, token: string, payload: string)
    requires SingleLine(host) && SingleLine(token)
    ensures var m := Message(Lines3(host, token, |payload|), payload + Trailer);
      && Parse(Request3(host, token, payload)) == Some(m)
      && ContentLength(m) == Some(|payload|)
      && Entity(m) == Some(payload)
      && |m.body| == |payload| + 4
  {
    var lines := Lines3(host, token, |payload|);
    Lines3Sendable(host, token, |payload|);
    ParseFrame(lines, payload + Trailer);
    Content3(host, token, |payload|);
    DecimalRoundTrip(|payload|);
    assert (payload + Trailer)[..|payload|] == payload;
  }

  /** `l` does not start with `p` when they differ at index `i`. */
  lemma Differs(l: string, p: string, i: nat)
    requires i < |l| && i < |p| && l[i] != p[i]
    ensures !StartsWith(l, p)
  {
    if |p| <= |l| {
      assert l[..|p|][i] == l[i];
    }
  }

  lemma FieldChar(name: string, v: string, i: nat)
    requires i < |name|
    ensures i < |Field(name, v)| && Field(name, v)[i] == name[i]
  {
  }

  /** Header finds the first line carrying the name. */
  lemma {:induction false} HeaderAt(lines: seq<string>, name: string, k: nat)
    requires k < |lines| && StartsWith(lines[k], name + ":")
    requires forall j :: 0 <= j < k ==> !StartsWith(lines[j], name + ":")
    ensures Header(lines, name) == Some(TrimLeft(lines[k][|name| + 1..]))
    decreases k
  {
    if k > 0 {
      HeaderAt(lines[1..], name, k - 1);
    }
  }

  lemma Content3(host: string, token: string, n: nat)
    ensures Header(Lines3(host, token, n), "Content-Length") == Some(Decimal(n))
  {
    var lines := Lines3(host, token, n);
    DecimalSingleLine(n);
    HeaderLine("Content-Length", Decimal(n));
    NoContentLengthBefore(lines, host, token, n);
    HeaderAt(lines, "Content-Length", 6);
  }

  lemma NoContentLengthBefore(lines: seq<string>, host: string, token: string, n: nat)
    requires lines == Lines3(host, token, n)
    ensures forall j :: 0 <= j < 6 ==> !StartsWith(lines[j], "Content-Length" + ":")
  {
    var key := "Content-Length" + ":";
    forall j | 0 <= j < 6 ensures !StartsWith(lines[j], key) {
      if j == 0 {
        Differs(lines[0], key, 0);
      } else if j == 1 {
        FieldChar("Host", host, 0);
        Differs(lines[1], key, 0);
      } else if j == 2 {
        FieldChar("Authorization", "Token " + token, 0);
        Differs(lines[2], key, 0);
      } else if j == 3 {
        Differs(lines[3], key, 0);
      } else if j == 4 {
        FieldChar("Connection", "close", 3);
        Differs(lines[4], key, 3);
      } else {
        FieldChar("Accept-Encoding", "identity", 0);
        Differs(lines[5], key, 0);
      }
    }
  }

  lemma {:induction false} HeaderAbsent(lines: seq<string>, name: string)
    requires forall j :: 0 <= j < |lines| ==> !StartsWith(lines[j], name + ":")
    ensures Header(lines, name) == None
    decreases |lines|
  {
    if lines != [] {
      assert !StartsWith(lines[0], name + ":");
      HeaderAbsent(lines[1..], name);
    }
  }

  /** The host line, common to both generations. */
  lemma HostLine(lines: seq<string>, host: string)
    requires |lines| >= 2 && lines[0] == RequestLine && lines[1] == Field("Host", host)
    requires Plain(host)
    ensures Header(lines, "Host") == Some(host)
  {
    HeaderLine("Host", host);
    Differs(lines[0], "Host" + ":", 0);
    HeaderAt(lines, "Host", 1);
  }

  /** The token line, common to both generations. */
  lemma TokenLine(lines: seq<string>, host: string, token: string)
    requires |lines| >= 3 && lines[0] == RequestLine && lines[1] == Field("Host", host)
    requires lines[2] == Field("Authorization", "Token " + token)
    requires SingleLine(token)
    ensures Header(lines, "Authorization") == Some("Token " + token)
  {
    TokenPlain(token);
    HeaderLine("Authorization", "Token " + token);
    NoTokenBefore(lines, host);
    HeaderAt(lines, "Authorization", 2);
  }

  lemma TokenPlain(token: string)
    requires SingleLine(token)
    ensures Plain("Token " + token)
  {
    SingleLineConcat("Token ", token);
    assert ("Token " + token)[0] == 'T';
  }

  lemma NoTokenBefore(lines: seq<string>, host: string)
    requires |lines| >= 2 && lines[0] == RequestLine && lines[1] == Field("Host", host)
    ensures forall j :: 0 <= j < 2 ==> !StartsWith(lines[j], "Authorization" + ":")
  {
    Differs(lines[0], "Authorization" + ":", 0);
    FieldChar("Host", host, 0);
    Differs(lines[1], "Authorization" + ":", 0);
  }

  /** None of the three lines before the agent line carries `User-Agent:`. */
  lemma NoAgentBefore(lines: seq<string>, host: string, token: string)
    requires |lines| >= 3 && lines[0] == RequestLine && lines[1] == Field("Host", host)
    requires lines[2] == Field("Authorization", "Token " + token)
    ensures forall j :: 0 <= j < 3 ==> !StartsWith(lines[j], "User-Agent" + ":")
  {
    var key := "User-Agent" + ":";
    Differs(lines[0], key, 0);
    FieldChar("Host", host, 0);
    Differs(lines[1], key, 0);
    FieldChar("Authorization", "Token " + token, 0);
    Differs(lines[2], key, 0);
  }

  /** A server reading the 3.0 request finds the configured host, the token,
      the fixed agent `vlc/3.0.*` (the missing blank after the colon is
      optional whitespace) and no Content-Type. */
  lemma Request3Headers(host: string, token: string, n: nat)
    requires Plain(host) && SingleLine(token)
    ensures var lines := Lines3(host, token, n);
      && Header(lines, "Host") == Some(host)
      && Header(lines, "Authorization") == Some("Token " + token)
      && Header(lines, "User-Agent") == Some(AgentV3)
      && Header(lines, "Content-Type") == None
  {
    var lines := Lines3(host, token, n);
    HostLine(lines, host);
    TokenLine(lines, host, token);
    Agent3(lines, host, token, n);
    NoContentType3(lines, host, token, n);
    HeaderAbsent(lines, "Content-Type");
  }

  lemma Agent3(lines: seq<string>, host: string, token: string, n: nat)
    requires lines == Lines3(host, token, n)
    ensures Header(lines, "User-Agent") == Some(AgentV3)
  {
    var key := "User-Agent" + ":";
    assert lines[3][..|key|] == key;
    assert lines[3][|key|..] == AgentV3;
    assert TrimLeft(AgentV3) == AgentV3;
    NoAgentBefore(lines, host, token);
    HeaderAt(lines, "User-Agent", 3);
  }

  lemma NoContentType3(lines: seq<string>, host: string, token: string, n: nat)
    requires lines == Lines3(host, token, n)
    ensures forall j :: 0 <= j < |lines| ==> !StartsWith(lines[j], "Content-Type" + ":")
  {
    var key := "Content-Type" + ":";
    forall j | 0 <= j < |lines| ensures !StartsWith(lines[j], key) {
      if j == 0 {
        Differs(lines[0], key, 0);
      } else if j == 1 {
        FieldChar("Host", host, 0);
        Differs(lines[1], key, 0);
      } else if j == 2 {
        FieldChar("Authorization", "Token " + token, 0);
        Differs(lines[2], key, 0);
      } else if j == 3 {
        Differs(lines[3], key, 0);
      } else if j == 4 {
        FieldChar("Connection", "close", 3);
        Differs(lines[4], key, 3);
      } else if j == 5 {
        FieldChar("Accept-Encoding", "identity", 0);
        Differs(lines[5], key, 0);
      } else {
        FieldChar("Content-Length", Decimal(n), 8);
        Differs(lines[6], key, 8);
      }
    }
  }

  /** A server reading the 4.0 request recovers the head lines and the body,
      finds the payload as the entity Content-Length announces, and is sent
      four bytes beyond that entity. */
  lemma Request4Reads(host: string, token: string, agent: string, payload: string)
    requires SingleLine(host) && SingleLine(token) && SingleLine(agent)
    ensures var m := Message(Lines4(host, token, agent, |payload|), payload + Trailer);
      && Parse(Request4(host, token, agent, payload)) == Some(m)
      && ContentLength(m) == Some(|payload|)
      && Entity(m) == Some(payload)
      && |m.body| == |payload| + 4
  {
    var lines := Lines4(host, token, agent, |payload|);
    Lines4Sendable(host, token, agent, |payload|);
    ParseFrame(lines, payload + Trailer);
    Content4(host, token, agent, |payload|);
    DecimalRoundTrip(|payload|);
    assert (payload + Trailer)[..|payload|] == payload;
  }

  lemma Content4(host: string, token: string, agent: string, n: nat)
    ensures Header(Lines4(host, token, agent, n), "Content-Length") == Some(Decimal(n))
  {
    var lines := Lines4(host, token, agent, n);
    DecimalSingleLine(n);
    HeaderLine("Content-Length", Decimal(n));
    NotBefore4(lines, host, token, agent, n, "Content-Length" + ":", 6);
    HeaderAt(lines, "Content-Length", 6);
  }

  /** None of the first `k` lines of the 4.0 head carries `key`, a key that
      starts with `C` and differs from `Connection` at its fourth character
      and, past the sixth line, from `Content-Length` at its ninth. */
  lemma NotBefore4(lines: seq<string>, host: string, token: string, agent: string, n: nat, key: string, k: nat)
    requires lines == Lines4(host, token, agent, n)
    requires k <= 7 && |key| > 8 && key[0] == 'C' && key[3] != 'n'
    requires k == 7 ==> key[8] != 'L'
    ensures forall j :: 0 <= j < k ==> !StartsWith(lines[j], key)
  {
    forall j | 0 <= j < k ensures !StartsWith(lines[j], key) {
      if j == 0 {
        Differs(lines[0], key, 0);
      } else if j == 1 {
        FieldChar("Host", host, 0);
        Differs(lines[1], key, 0);
      } else if j == 2 {
        FieldChar("Authorization", "Token " + token, 0);
        Differs(lines[2], key, 0);
      } else if j == 3 {
        FieldChar("User-Agent", agent, 0);
        Differs(lines[3], key, 0);
      } else if j == 4 {
        FieldChar("Connection", "close", 3);
        Differs(lines[4], key, 3);
      } else if j == 5 {
        FieldChar("Accept-Encoding", "identity", 0);
        Differs(lines[5], key, 0);
      } else {
        FieldChar("Content-Length", Decimal(n), 8);
        Differs(lines[6], key, 8);
      }
    }
  }

  /** A server reading the 4.0 request finds the host, the token, the build's
      agent and the JSON content type. */
  lemma Request4Headers(host: string, token: string, agent: string, n: nat)
    requires Plain(host) && SingleLine(token) && Plain(agent)
    ensures var lines := Lines4(host, token, agent, n);
      && Header(lines, "Host") == Some(host)
      && Header(lines, "Authorization") == Some("Token " + token)
      && Header(lines, "User-Agent") == Some(agent)
      && Header(lines, "Content-Type") == Some("application/json")
  {
    var lines := Lines4(host, token, agent, n);
    HostLine(lines, host);
    TokenLine(lines, host, token);
    Agent4(lines, host, token, agent, n);
    ContentType4(lines, host, token, agent, n);
  }

  lemma Agent4(lines: seq<string>, host: string, token: string, agent: string, n: nat)
    requires lines == Lines4(host, token, agent, n) && Plain(agent)
    ensures Header(lines, "User-Agent") == Some(agent)
  {
    HeaderLine("User-Agent", agent);
    NoAgentBefore(lines, host, token);
    HeaderAt(lines, "User-Agent", 3);
  }

  lemma ContentType4(lines: seq<string>, host: string, token: string, agent: string, n: nat)
    requires lines == Lines4(host, token, agent, n)
    ensures Header(lines, "Content-Type") == Some("application/json")
  {
    assert Plain("application/json");
    HeaderLine("Content-Type", "application/json");
    NotBefore4(lines, host, token, agent, n, "Content-Type" + ":", 7);
    HeaderAt(lines, "Content-Type", 7);
  }

  // ---------------------------------------------------------------------
  // The reply

  /** One read into a 1024-byte buffer: at most 1023 bytes, then a NUL. */
  const ReplyCapacity: nat := 1023

  function Received(bytes: string): (r: string)
    ensures |r| <= ReplyCapacity && r <= bytes
  {
    bytes[..Min(|bytes|, ReplyCapacity)]
  }

  /** The success test: `strstr(buffer, "OK")` on what was read. */
  predicate Confirms(bytes: string) {
    Contains(CString(Received(bytes)), "OK")
  }

  /** `OK` starts at index `i` of the first 1023 bytes, with no NUL byte
      up to the `K`. */
  predicate OkAt(bytes: string, i: int) {
    0 <= i && i + 2 <= Min(|bytes|, ReplyCapacity)
    && bytes[i] == 'O' && bytes[i + 1] == 'K'
    && forall j :: 0 <= j <= i + 1 ==> bytes[j] != '\0'
  }

  /** The reply confirms exactly when `OK` occurs within its first 1023
      bytes with no NUL byte before it; the status code and the rest of the
      reply play no part. */
  lemma ConfirmsIff(bytes: string)
    ensures Confirms(bytes) <==> exists i :: OkAt(bytes, i)
  {
    var r := Received(bytes);
    var c := CString(r);
    ContainsIff(c, "OK");
    if Confirms(bytes) {
      var i :| Occurs(c, "OK", i);
      OkFound(bytes, r, c, i);
    }
    if i :| OkAt(bytes, i) {
      CStringReaches(r, i + 2);
      OkOccurs(bytes, r, c, i);
    }
  }

  /** An `OK` seen in the C string is an `OK` of the reply with no NUL before it. */
  lemma OkFound(bytes: string, r: string, c: string, i: int)
    requires r == Received(bytes) && c == CString(r) && Occurs(c, "OK", i)
    ensures OkAt(bytes, i)
  {
    assert c[i] == c[i..i + 2][0] && c[i + 1] == c[i..i + 2][1];
    forall j | 0 <= j <= i + 1
      ensures bytes[j] != '\0'
    {
      assert c[j] == r[j] == bytes[j];
    }
  }

  lemma OkOccurs(bytes: string, r: string, c: string, i: int)
    requires r == Received(bytes) && c == CString(r) && OkAt(bytes, i) && |c| >= i + 2
    ensures Occurs(c, "OK", i)
  {
    assert c[i] == r[i] == bytes[i];
    assert c[i + 1] == r[i + 1] == bytes[i + 1];
    assert c[i..i + 2] == "OK";
  }

  /** The NUL-terminated text extends at least to `k` when the buffer has no
      NUL before `k`. */
  lemma CStringReaches(b: string, k: nat)
    requires k <= |b|
    requires forall j :: 0 <= j < k ==> b[j] != '\0'
    ensures |CString(b)| >= k
  {
  }

  /** Any `OK` is taken for success, also inside an error reply; a NUL byte
      hides what follows it. */
  lemma LooseConfirmation()
    ensures Confirms("401 TOKEN")
    ensures !Confirms("\0OK")
  {
    assert OkAt("401 TOKEN", 5);
    ConfirmsIff("401 TOKEN");
    ConfirmsIff("\0OK");
  }
}
