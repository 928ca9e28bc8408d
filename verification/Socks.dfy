/** The SOCKS5 client handshake: RFC 1928 sections 3, 4 and 6, and RFC 1929 section 2. */
module Socks {
  import opened Options

  type Byte = x: int | 0 <= x < 256

  type Bytes = seq<Byte>

  datatype Peer = Peer(name: Option<Bytes>, ip: Bytes, port: Bytes)

  /** `proxied`: a proxy is configured at all. */
  datatype Config = Config(proxied: bool, username: Option<Bytes>, password: Option<Bytes>, remote: Peer)

  predicate ConfigOk(c: Config) {
    |c.remote.ip| == 4 && |c.remote.port| == 2
  }

  predicate NeedsAuth(c: Config) {
    c.username.Some? || c.password.Some?
  }

  // ---- What the client writes ----

  /** g_utf8_strlen: the bytes that do not continue a character. */
  function Utf8Length(s: Bytes): (n: nat)
    ensures n <= |s|
  {
    if s == [] then 0 else Utf8Length(s[..|s| - 1]) + if 128 <= s[|s| - 1] < 192 then 0 else 1
  }

  function Shortened(s: Bytes): (n: nat)
    ensures n <= |s| && n <= 255
  {
    var n := Utf8Length(s);
    if n > 255 then 255 else n
  }

  function Greeting(c: Config): Bytes {
    [5, 1, if NeedsAuth(c) then 2 else 0]
  }

  /** A length byte and as many bytes; a missing credential is a single zero byte. */
  function Credential(s: Option<Bytes>): Bytes {
    if s.Some? then [Shortened(s.value)] + s.value[..Shortened(s.value)] else [1, 0]
  }

  function AuthRequest(c: Config): Bytes {
    [1] + Credential(c.username) + Credential(c.password)
  }

  const ONION: Bytes := [46, 111, 110, 105, 111, 110]

  predicate HasSuffix(s: Bytes, t: Bytes) {
    |t| <= |s| && s[|s| - |t|..] == t
  }

  predicate ByName(p: Peer) {
    p.name.Some? && HasSuffix(p.name.value, ONION)
  }

  function ConnectRequest(c: Config): Bytes {
    var p := c.remote;
    if ByName(p) then [5, 1, 0, 3] + [Shortened(p.name.value)] + p.name.value[..Shortened(p.name.value)] + p.port
    else [5, 1, 0, 1] + p.ip + p.port
  }

  // ---- What the standards allow ----

  /** RFC 1929 section 2: a string of 1 to 255 bytes behind its length. */
  ghost predicate LengthPrefixed(b: Bytes, s: Bytes) {
    1 <= |s| <= 255 && b == [|s|] + s
  }

  /** RFC 1928 section 4: CONNECT to an IPv4 address, or to a name behind its length; port last. */
  ghost predicate IsConnect(b: Bytes) {
    |b| >= 7 && b[..3] == [5, 1, 0] && ((b[3] == 1 && |b| == 10) || (b[3] == 3 && b[4] == |b| - 7))
  }

  /** RFC 1928 section 6: a granted request, bound to an IPv4 address or to a name. */
  predicate IsReply(b: Bytes) {
    |b| >= 5 && b[0] == 5 && b[1] == 0 && ((b[3] == 1 && |b| == 10) || (b[3] == 3 && b[4] == |b| - 7))
  }

  /** A credential is sent in full exactly when it has 1 to 255 bytes, each of them a character. What is
      sent has the form of the standard exactly when the credential has a character at all. */
  lemma CredentialExact(s: Bytes)
    ensures LengthPrefixed(Credential(Some(s)), s) <==> 1 <= |s| <= 255 && Utf8Length(s) == |s|
    ensures (exists t :: LengthPrefixed(Credential(Some(s)), t)) <==> Utf8Length(s) > 0
    ensures LengthPrefixed(Credential(None), [0])
  {
    assert s[..|s|] == s;
    var b := Credential(Some(s));
    assert b[0] == Shortened(s) && b[1..] == s[..Shortened(s)];
    if Utf8Length(s) > 0 {
      assert LengthPrefixed(b, s[..Shortened(s)]);
    }
    if t :| LengthPrefixed(b, t) {
      assert b[0] == |t|;
    }
  }

  lemma {:induction false} Utf8Snoc(s: Bytes, x: Byte)
    ensures Utf8Length(s + [x]) == Utf8Length(s) + if 128 <= x < 192 then 0 else 1
  {
    assert (s + [x])[..|s|] == s;
  }

  /** Two ways to be refused or misread: an empty credential is a lone zero byte, which the standard does
      not allow; and a credential of one character in two bytes loses its second byte. */
  lemma CredentialLoses()
    ensures Credential(Some([])) == [0] && forall t :: !LengthPrefixed([0], t)
    ensures Credential(Some([195, 169])) == [1, 195]
  {
    Utf8Snoc([], 195);
    Utf8Snoc([195], 169);
    assert [] + [195] == [195] && [195] + [169] == [195, 169];
    assert Utf8Length([195, 169]) == 1;
    assert [195, 169][..1] == [195];
  }

  /** RFC 1928 section 4: the request names this host and port. */
  predicate Names(b: Bytes, name: Bytes, port: Bytes) {
    |name| <= 255 && b == [5, 1, 0, 3] + [|name|] + name + port
  }

  /** The request carries the whole name exactly when its length in characters is its length in bytes
      and fits a byte; what it carries is always the beginning of the name. */
  lemma NameExact(c: Config)
    requires ConfigOk(c) && ByName(c.remote)
    ensures var name := c.remote.name.value;
            (Names(ConnectRequest(c), name, c.remote.port) <==> Utf8Length(name) == |name| <= 255) &&
            Names(ConnectRequest(c), name[..Shortened(name)], c.remote.port)
  {
    var name, b := c.remote.name.value, ConnectRequest(c);
    assert name[..|name|] == name;
    assert b[4] == Shortened(name);
    if Names(b, name, c.remote.port) { assert b[4] == |name|; }
  }

  /** A name with one character in two bytes: the last letter of its suffix is cut off. */
  lemma NameLoses(port: Bytes)
    requires |port| == 2
    ensures var name: Bytes := [195, 169] + ONION;
            ConnectRequest(Config(true, None, None, Peer(Some(name), [0, 0, 0, 0], port))) ==
            [5, 1, 0, 3] + [7] + ([195, 169] + ONION[..5]) + port
  {
    var name: Bytes := [195, 169] + ONION;
    OnionLength([195, 169]);
    Utf8Snoc([], 195);
    Utf8Snoc([195], 169);
    assert [] + [195] == [195] && [195] + [169] == [195, 169];
    assert name[..7] == [195, 169] + ONION[..5];
    assert HasSuffix(name, ONION);
  }

  lemma OnionLength(s: Bytes)
    ensures Utf8Length(s + ONION) == Utf8Length(s) + 6
  {
    Utf8Snoc(s, 46);
    Utf8Snoc(s + [46], 111);
    Utf8Snoc(s + [46, 111], 110);
    Utf8Snoc(s + [46, 111, 110], 105);
    Utf8Snoc(s + [46, 111, 110, 105], 111);
    Utf8Snoc(s + [46, 111, 110, 105, 111], 110);
    assert s + [46] + [111] == s + [46, 111];
    assert s + [46, 111] + [110] == s + [46, 111, 110];
    assert s + [46, 111, 110] + [105] == s + [46, 111, 110, 105];
    assert s + [46, 111, 110, 105] + [111] == s + [46, 111, 110, 105, 111];
    assert s + [46, 111, 110, 105, 111] + [110] == s + ONION;
  }

  predicate EndsInOnion(p: Peer) {
    p.name.Some? && |p.name.value| >= 6 && p.name.value[|p.name.value| - 6..] == [46, 111, 110, 105, 111, 110]
  }

  /** The request connects by name exactly for an onion name, otherwise to the four bytes of the address,
      and its last two bytes are the port. */
  lemma RequestIsConnect(c: Config)
    requires ConfigOk(c)
    ensures var b := ConnectRequest(c);
            IsConnect(b) && b[|b| - 2..] == c.remote.port && (b[3] == 3 <==> EndsInOnion(c.remote)) &&
            (b[3] == 1 ==> b[4..8] == c.remote.ip)
  {
    var b := ConnectRequest(c);
    assert b[..3] == [5, 1, 0];
  }

  /** RFC 1928 section 3: version 5 and one method, by password exactly when there is a credential. RFC
      1929 section 2: version 1, the user's name behind its length, the password behind its length. */
  lemma OffersExact(c: Config)
    ensures var b := Greeting(c);
            |b| == 3 && b[0] == 5 && b[1] == 1 && (b[2] == 2 || b[2] == 0) && (b[2] == 2 <==> c.username.Some? || c.password.Some?)
    ensures c.username.Some? && c.password.Some? ==>
              var u, p := c.username.value, c.password.value;
              (1 <= |u| <= 255 && Utf8Length(u) == |u| && 1 <= |p| <= 255 && Utf8Length(p) == |p| ==>
                AuthRequest(c) == [1, |u|] + u + [|p|] + p)
  {
    if c.username.Some? && c.password.Some? {
      var u, p := c.username.value, c.password.value;
      assert u[..|u|] == u && p[..|p|] == p;
      assert [1] + ([|u|] + u) + ([|p|] + p) == [1, |u|] + u + [|p|] + p;
    }
  }

  /** No reply is the beginning of another one, so its end is where application data starts. */
  lemma ReplyPrefixFree(a: Bytes, b: Bytes)
    requires IsReply(a) && IsReply(b) && a <= b
    ensures a == b
  {
    assert forall i :: 0 <= i < |a| ==> a[i] == b[i];
  }

  // ---- The states ----

  datatype State =
    | Connect | Init | Choice | SendAuth | ReadAuth | SendRequest | ReadStatus | ReadType | ReadAddress | ReadNameLength
    | ReadName | Open | Failed

  datatype Error = NoError | ConnectError | ChoiceError | AuthError | AddressError | VersionError | StatusError | WriteError | ReadError

  datatype Want = Nothing | ToRead | ToWrite | Done

  function Method(c: Config): Byte {
    if NeedsAuth(c) then 2 else 0
  }

  /** What the client has written in full before a state. */
  function Before(c: Config, s: State): Bytes {
    match s
    case Connect => []
    case Init => []
    case Choice => Greeting(c)
    case SendAuth => Greeting(c)
    case ReadAuth => Greeting(c) + AuthRequest(c)
    case _ => Full(c) + if s.SendRequest? then [] else ConnectRequest(c)
  }

  function Full(c: Config): Bytes {
    if NeedsAuth(c) then Greeting(c) + AuthRequest(c) else Greeting(c)
  }

  predicate Sending(s: State) {
    s.Init? || s.SendAuth? || s.SendRequest?
  }

  function Message(c: Config, s: State): Bytes {
    if s.Init? then Greeting(c) else if s.SendAuth? then AuthRequest(c) else ConnectRequest(c)
  }

  /** The accepted replies that come before the reply to the request. */
  function Accepted(c: Config): Bytes {
    if NeedsAuth(c) then [5, 2, 1, 0] else [5, 0]
  }

  /** The bytes read before a state: `rest` is what the state itself has gathered. */
  ghost predicate ReadBefore(c: Config, s: State, rest: Bytes, got: Bytes) {
    match s
    case Connect => got == [] && rest == []
    case Init => got == []
    case Choice => got == rest && |rest| < 2
    case SendAuth => got == [5, 2] && NeedsAuth(c)
    case ReadAuth => got == [5, 2] + rest && |rest| < 2 && NeedsAuth(c)
    case SendRequest => got == Accepted(c)
    case ReadStatus => got == Accepted(c) + rest && |rest| < 2
    case ReadType => got == Accepted(c) + [5, 0] + rest && |rest| < 2
    case ReadAddress => |rest| < 6 && exists x: Byte :: got == Accepted(c) + [5, 0, x, 1] + rest
    case ReadNameLength => rest == [] && exists x: Byte :: got == Accepted(c) + [5, 0, x, 3]
    case ReadName => 1 <= |rest| && rest[0] > |rest| - 3 && exists x: Byte :: got == Accepted(c) + [5, 0, x, 3] + rest
    case Open => rest == [] && |got| >= |Accepted(c)| && got[..|Accepted(c)|] == Accepted(c) && IsReply(got[|Accepted(c)|..])
    case Failed => true
  }

  /** The bytes moved so far, both ways, against the state. */
  ghost predicate Aligned(c: Config, s: State, buffer: Option<Bytes>, sent: Bytes, got: Bytes) {
    var rest := if buffer.Some? then buffer.value else [];
    if s.Failed? then true
    else if buffer == Some([]) then false
    else if s.Open? && !c.proxied then sent == [] && got == [] && buffer.None?
    else
      ReadBefore(c, s, rest, got) && (s.Connect? || c.proxied) &&
      if Sending(s) then
        if buffer.Some? then sent + rest == Before(c, s) + Message(c, s) else sent == Before(c, s)
      else sent == Before(c, s)
  }

  /** Never is a message begun before the reply it depends on: no credentials before the method is
      agreed, no request before the credentials are accepted. */
  ghost predicate InOrder(c: Config, sent: Bytes, got: Bytes) {
    sent <= Full(c) + ConnectRequest(c) &&
    (|sent| > |Greeting(c)| ==> |got| >= 2 && got[..2] == [5, Method(c)]) &&
    (|sent| > |Full(c)| ==> |got| >= |Accepted(c)| && got[..|Accepted(c)|] == Accepted(c))
  }

  /** How much is written in a state, at most. */
  function Sendable(c: Config, s: State): Bytes {
    Before(c, s) + if Sending(s) then Message(c, s) else []
  }

  lemma SendableOnScript(c: Config, s: State)
    requires s.SendAuth? || s.ReadAuth? ==> NeedsAuth(c)
    ensures Sendable(c, s) <= Full(c) + ConnectRequest(c)
    ensures s.Connect? || s.Init? || s.Choice? ==> |Sendable(c, s)| <= |Greeting(c)|
    ensures s.SendAuth? || s.ReadAuth? ==> |Sendable(c, s)| <= |Full(c)|
    ensures |Greeting(c)| <= |Full(c)|
  {
    hide AuthRequest, ConnectRequest;
    assert Greeting(c) + [] == Greeting(c) && [] + Greeting(c) == Greeting(c);
  }

  /** From a state on, the replies before it have been read. */
  lemma RepliesRead(c: Config, s: State, rest: Bytes, got: Bytes)
    requires ReadBefore(c, s, rest, got) && !s.Connect? && !s.Init? && !s.Choice? && !s.Failed?
    ensures |got| >= 2 && got[..2] == [5, Method(c)]
    ensures !s.SendAuth? && !s.ReadAuth? ==> |got| >= |Accepted(c)| && got[..|Accepted(c)|] == Accepted(c)
  {
    if !s.SendAuth? && !s.ReadAuth? {
      assert got[..|Accepted(c)|] == Accepted(c);
      assert got[..2] == got[..|Accepted(c)|][..2];
    }
  }

  lemma AlignedInOrder(c: Config, s: State, buffer: Option<Bytes>, sent: Bytes, got: Bytes)
    requires Aligned(c, s, buffer, sent, got) && !s.Failed?
    ensures InOrder(c, sent, got)
  {
    hide AuthRequest, ConnectRequest, Full, Before, Message;
    var rest := if buffer.Some? then buffer.value else [];
    assert sent <= sent + rest;
    if !(s.Open? && !c.proxied) {
      SendableOnScript(c, s);
      assert sent <= Sendable(c, s);
      assert sent <= Full(c) + ConnectRequest(c);
      if !s.Connect? && !s.Init? && !s.Choice? { RepliesRead(c, s, rest, got); }
    }
  }

  /** The reading state after so many bytes, written down from the formats alone. */
  function StateAfter(c: Config, got: Bytes): State {
    var n := |Accepted(c)|;
    if |got| < 2 then Choice
    else if |got| < n then ReadAuth
    else if |got| < n + 2 then ReadStatus
    else if |got| < n + 4 then ReadType
    else if got[n + 3] == 1 then (if |got| < n + 10 then ReadAddress else Open)
    else if |got| == n + 4 then ReadNameLength
    else if |got| - n - 7 < got[n + 4] then ReadName
    else Open
  }

  /** The state after so many bytes written and read: the message that is due and not yet written in
      full, otherwise the reading state. */
  function StateOf(c: Config, sent: Bytes, got: Bytes): State {
    if got == [] && |sent| < 3 then Init
    else if NeedsAuth(c) && |got| == 2 && |sent| < |Full(c)| then SendAuth
    else if |got| == |Accepted(c)| && |sent| < |Full(c) + ConnectRequest(c)| then SendRequest
    else StateAfter(c, got)
  }

  /** The state depends only on the bytes that were written and read, not on how they were cut into
      calls. */
  lemma Determined(c: Config, s: State, buffer: Option<Bytes>, sent: Bytes, got: Bytes)
    requires c.proxied && Aligned(c, s, buffer, sent, got) && !s.Failed? && !s.Connect?
    requires ConfigOk(c)
    ensures s == StateOf(c, sent, got)
  {
    hide AuthRequest, ConnectRequest, StateAfter;
    assert sent + [] == sent;
    MessagesNotEmpty(c);
    if Sending(s) {
      var rest := if buffer.Some? then buffer.value else Message(c, s);
      assert sent + rest == Before(c, s) + Message(c, s) && rest != [];
      assert |sent| < |Before(c, s) + Message(c, s)|;
    }
    if !Sending(s) {
      ReadingAfter(c, s, if buffer.Some? then buffer.value else [], got);
    }
  }

  lemma MessagesNotEmpty(c: Config)
    requires ConfigOk(c)
    ensures AuthRequest(c) != [] && ConnectRequest(c) != [] && |Greeting(c)| == 3
  {
  }

  lemma ReadingAfter(c: Config, s: State, rest: Bytes, got: Bytes)
    requires ReadBefore(c, s, rest, got) && (Reading(s) || s.Open?)
    ensures s == StateAfter(c, got)
  {
    var n := |Accepted(c)|;
    if s.Open? {
      assert got[n..][3] == got[n + 3] && (got[n + 3] == 3 ==> got[n..][4] == got[n + 4]);
    }
  }

  // ---- The transport ----

  predicate Reading(s: State) {
    !s.Connect? && !Sending(s) && !s.Open? && !s.Failed?
  }

  /** How many bytes a reading state gathers. */
  function Wanted(s: State, rest: Bytes): nat {
    match s
    case ReadAddress => 6
    case ReadNameLength => 1
    case ReadName => if rest == [] then 1 else rest[0] as int + 3
    case _ => 2
  }

  /** The state behind a gathered piece of the replies, None when the piece is refused. */
  function Next(c: Config, s: State, piece: Bytes): Option<State>
    requires Reading(s) && |piece| == Wanted(s, piece)
  {
    match s
    case Choice => if piece == [5, Method(c)] then Some(if NeedsAuth(c) then SendAuth else SendRequest) else None
    case ReadAuth => if piece == [1, 0] then Some(SendRequest) else None
    case ReadStatus => if piece == [5, 0] then Some(ReadType) else None
    case ReadType => if piece[1] == 1 then Some(ReadAddress) else if piece[1] == 3 then Some(ReadNameLength) else None
    case ReadNameLength => Some(ReadName)
    case _ => Some(Open)
  }

  /** A reading state always waits for at least one byte more. */
  lemma Waits(c: Config, s: State, rest: Bytes, got: Bytes)
    requires ReadBefore(c, s, rest, got) && Reading(s)
    ensures |rest| < Wanted(s, rest) && (s.ReadName? ==> rest != [])
  {
  }

  lemma PieceGrows(c: Config, s: State, rest: Bytes, got: Bytes, data: Bytes)
    requires ReadBefore(c, s, rest, got) && Reading(s) && |rest + data| < Wanted(s, rest + data)
    requires s.ReadName? ==> rest != []
    ensures ReadBefore(c, s, rest + data, got + data)
  {
    hide Accepted;
    match s
    case ReadAddress =>
      var x: Byte :| got == Accepted(c) + [5, 0, x, 1] + rest;
      assert got + data == Accepted(c) + [5, 0, x, 1] + (rest + data);
    case ReadName =>
      var x: Byte :| got == Accepted(c) + [5, 0, x, 3] + rest;
      assert got + data == Accepted(c) + [5, 0, x, 3] + (rest + data);
    case ReadNameLength =>
      var x: Byte :| got == Accepted(c) + [5, 0, x, 3];
      assert got + data == got;
    case Choice =>
    case ReadAuth => assert [5, 2] + rest + data == [5, 2] + (rest + data);
    case ReadStatus => assert Accepted(c) + rest + data == Accepted(c) + (rest + data);
    case ReadType => assert Accepted(c) + [5, 0] + rest + data == Accepted(c) + [5, 0] + (rest + data);
  }

  /** A whole piece leads on exactly as the formats say. */
  lemma PieceWhole(c: Config, s: State, rest: Bytes, got: Bytes, data: Bytes)
    requires ReadBefore(c, s, rest, got) && Reading(s) && |rest + data| == Wanted(s, rest + data)
    requires Next(c, s, rest + data).Some?
    ensures var t := Next(c, s, rest + data).value;
            ReadBefore(c, t, if t.ReadName? then rest + data else [], got + data) && Before(c, t) == Before(c, s)
  {
    var piece, more, n := rest + data, got + data, |Accepted(c)|;
    hide AuthRequest, ConnectRequest, Greeting;
    match s
    case Choice =>
    case ReadAuth => assert more == [5, 2] + piece;
    case ReadStatus => assert more == Accepted(c) + piece;
    case ReadType =>
      assert more == Accepted(c) + [5, 0] + piece && piece == [piece[0], piece[1]];
      assert more == Accepted(c) + [5, 0, piece[0], piece[1]] + [];
      assert more == Accepted(c) + [5, 0, piece[0], piece[1]];
    case ReadNameLength =>
      var x: Byte :| got == Accepted(c) + [5, 0, x, 3];
      assert more == Accepted(c) + [5, 0, x, 3] + piece;
    case ReadAddress =>
      var x: Byte :| got == Accepted(c) + [5, 0, x, 1] + rest;
      assert more == Accepted(c) + ([5, 0, x, 1] + piece);
      assert more[..n] == Accepted(c) && more[n..] == [5, 0, x, 1] + piece;
    case ReadName =>
      var x: Byte :| got == Accepted(c) + [5, 0, x, 3] + rest;
      assert more == Accepted(c) + ([5, 0, x, 3] + piece);
      assert more[..n] == Accepted(c) && more[n..] == [5, 0, x, 3] + piece;
  }

  /** The verdict on all that was read, written down from the formats alone: the first rule that is
      broken. */
  function Verdict(c: Config, got: Bytes): Error {
    var n := |Accepted(c)|;
    if |got| < 2 then NoError
    else if got[..2] != [5, Method(c)] then ChoiceError
    else if |got| < n then NoError
    else if NeedsAuth(c) && got[2] != 1 then VersionError
    else if NeedsAuth(c) && got[3] != 0 then AuthError
    else if |got| < n + 2 then NoError
    else if got[n] != 5 then VersionError
    else if got[n + 1] != 0 then StatusError
    else if |got| < n + 4 || got[n + 3] == 1 || got[n + 3] == 3 then NoError
    else AddressError
  }

  /** The error of a refused piece. */
  function Refusal(s: State, piece: Bytes): Error
    requires Reading(s) && |piece| == Wanted(s, piece)
  {
    match s
    case ReadAuth => if piece[0] != 1 then VersionError else AuthError
    case ReadStatus => if piece[0] != 5 then VersionError else StatusError
    case ReadType => AddressError
    case _ => ChoiceError
  }

  /** A piece is refused for exactly the rule that it breaks. */
  lemma PieceRefused(c: Config, s: State, rest: Bytes, got: Bytes, data: Bytes)
    requires ReadBefore(c, s, rest, got) && Reading(s) && |rest + data| == Wanted(s, rest + data)
    requires Next(c, s, rest + data).None?
    ensures Verdict(c, got + data) == Refusal(s, rest + data) != NoError
  {
    var piece, more, n := rest + data, got + data, |Accepted(c)|;
    match s
    case Choice => assert more == piece && more[..2] == piece;
    case ReadAuth => assert more == [5, 2] + piece && more[..2] == [5, 2] && piece == [piece[0], piece[1]];
    case ReadStatus =>
      assert more == Accepted(c) + piece && piece == [piece[0], piece[1]];
      assert more[..2] == Accepted(c)[..2] && more[n] == piece[0] && more[n + 1] == piece[1];
    case ReadType =>
      assert more == Accepted(c) + [5, 0] + piece;
      assert more[..2] == Accepted(c)[..2] && more[n] == 5 && more[n + 1] == 0 && more[n + 3] == piece[1];
  }

  /** Accepted replies, and a tail that breaks no rule. */
  lemma TailUnbroken(c: Config, got: Bytes, tail: Bytes)
    requires got == Accepted(c) + tail
    requires (|tail| >= 2 ==> tail[0] == 5 && tail[1] == 0) && (|tail| >= 4 ==> tail[3] == 1 || tail[3] == 3)
    ensures Verdict(c, got) == NoError
  {
    assert got[..2] == Accepted(c)[..2];
  }

  /** A handshake that goes on, or is open, has broken no rule. */
  lemma NothingBroken(c: Config, s: State, buffer: Option<Bytes>, sent: Bytes, got: Bytes)
    requires Aligned(c, s, buffer, sent, got) && !s.Failed?
    ensures Verdict(c, got) == NoError
  {
    hide Verdict, Before, Message;
    var n := |Accepted(c)|;
    if (s.Open? && !c.proxied) || s.Connect? || s.Init? || s.Choice? {
      assert |got| < 2;
      FewBytes(c, got);
    } else if s.SendAuth? || s.ReadAuth? {
      assert got[..2] == [5, 2] && |got| < 4;
      FewBytes(c, got);
    } else {
      assert got == got[..n] + got[n..];
      TailUnbroken(c, got, got[n..]);
    }
  }

  lemma FewBytes(c: Config, got: Bytes)
    requires |got| < 2 || (|got| < |Accepted(c)| && got[..2] == [5, Method(c)])
    ensures Verdict(c, got) == NoError
  {
  }

  /** Of replies that accept everything, no beginning breaks a rule, and the state behind all of them is
      open. */
  lemma GoodReplies(c: Config, reply: Bytes, total: Bytes, got: Bytes)
    requires IsReply(reply) && Accepted(c) + reply <= total && got <= total
    ensures Verdict(c, got) == NoError
    ensures Accepted(c) + reply <= got ==> StateAfter(c, got) == Open
  {
    var n, whole := |Accepted(c)|, Accepted(c) + reply;
    forall i | 0 <= i < |whole| && i < |got| ensures got[i] == whole[i] {
      assert got[i] == total[i];
    }
    forall i | 0 <= i < |reply| ensures whole[n + i] == reply[i] {
    }
    if |got| >= 2 {
      assert got[..2] == [got[0], got[1]];
    }
    if whole <= got {
      assert got[n + 3] == reply[3] && got[n + 4] == reply[4];
    }
  }

  /** What became of one write or read of a message. */
  datatype Progress = Broken | Partly | Wholly

  /** Reading more never puts what was written out of order. */
  lemma GotMoreInOrder(c: Config, sent: Bytes, got: Bytes, more: Bytes)
    requires InOrder(c, sent, got) && got <= more
    ensures InOrder(c, sent, more)
  {
    if |sent| > |Greeting(c)| { assert more[..2] == got[..2]; }
    if |sent| > |Full(c)| { assert more[..|Accepted(c)|] == got[..|Accepted(c)|]; }
  }

  /** A message sent to its end is still in order. */
  lemma SentInOrder(c: Config, s: State, sent: Bytes, got: Bytes)
    requires Sending(s) && sent == Before(c, s) + Message(c, s) && ReadBefore(c, s, [], got)
    ensures InOrder(c, sent, got)
  {
    hide AuthRequest, ConnectRequest, Full, Before, Message;
    SendableOnScript(c, s);
    if !s.Init? { RepliesRead(c, s, [], got); }
  }

  /** What a state waits for. */
  function Wish(s: State): Want {
    if s.Open? then Done else if s.Failed? then Nothing else if s.Connect? || Sending(s) then ToWrite else ToRead
  }

  /** The handshake of one transport. `willing`: every call on the socket moves at least one byte as
      long as there is one to move. */
  class Handshake {
    const config: Config
    const willing: bool
    var state: State
    var error: Error
    var buffer: Option<Bytes>

    /** What the proxy still has to say. */
    var incoming: Bytes

    /** Every byte written to and read from the proxy. */
    ghost var sent: Bytes
    ghost var got: Bytes

    /** The last call on the socket moved nothing. */
    ghost var stalled: bool

    constructor (config: Config, incoming: Bytes, willing: bool)
      requires ConfigOk(config)
      ensures this.config == config && this.willing == willing && this.incoming == incoming
      ensures Valid() && state == Connect && error == NoError && sent == [] && got == []
    {
      this.config, this.willing, state, error, buffer, this.incoming := config, willing, Connect, NoError, None, incoming;
      sent, got, stalled := [], [], false;
    }

    /** A failure is that of the connection, before any byte; that of a call that moved nothing; or the
        rule that the proxy broke. */
    ghost predicate Explained()
      reads this
    {
      if !state.Failed? then error == NoError
      else
        (error == ConnectError && sent == [] && got == []) || (error in {ReadError, WriteError} && stalled) ||
        (error == Verdict(config, got) && error != NoError)
    }

    /** Bytes are only moved, at least one by a call that is not stalled. */
    twostate predicate Moved()
      reads this
    {
      old(sent) <= sent && old(got) <= got && old(got + incoming) == got + incoming &&
      (!stalled ==> |sent| + |got| > |old(sent)| + |old(got)|)
    }

    ghost predicate Valid()
      reads this
    {
      ConfigOk(config) && Explained() && Aligned(config, state, buffer, sent, got) && InOrder(config, sent, got)
    }

    /** tgentransport_write: some of the bytes, or a failure. */
    method Write(data: Bytes) returns (n: int)
      requires data != []
      modifies this`state, this`error, this`sent, this`stalled
      ensures n <= |data| && sent == if n > 0 then old(sent) + data[..n] else old(sent)
      ensures stalled <==> n <= 0
      ensures stalled ==> !willing
      ensures n > 0 ==> state == old(state) && error == old(error)
      ensures n == 0 ==> state.Failed?
      ensures n <= 0 ==> (state == old(state) && error == old(error)) || (state == Failed && error == WriteError)
    {
      n :| n <= |data| && (willing ==> n > 0);
      stalled := n <= 0;
      var broken := *;
      if n > 0 {
        sent := sent + data[..n];
      } else if n == 0 || broken {
        state, error := Failed, WriteError;
      }
    }

    /** tgentransport_read: some of the bytes, or none, or a failure. */
    method Read(limit: nat) returns (data: Bytes)
      requires limit > 0
      modifies this`state, this`error, this`got, this`incoming, this`stalled
      ensures |data| <= limit && got == old(got) + data && old(incoming) == data + incoming
      ensures stalled <==> data == []
      ensures stalled && willing ==> incoming == []
      ensures data != [] ==> state == old(state) && error == old(error)
      ensures data == [] ==> (state == old(state) && error == old(error)) || (state == Failed && error == ReadError)
    {
      var n: nat :| n <= limit && n <= |incoming| && (willing && incoming != [] ==> n > 0);
      data, incoming := incoming[..n], incoming[n..];
      stalled := n == 0;
      var broken := *;
      if n == 0 && broken {
        state, error := Failed, ReadError;
      }
      got := got + data;
    }

    /** Send the rest of a message: none of it, a part, or all that was left. */
    method Push(message: Bytes) returns (r: Progress)
      requires Valid() && Sending(state) && message == Message(config, state) && message != []
      modifies this`state, this`error, this`buffer, this`sent, this`stalled
      ensures Moved() && (stalled <==> r.Broken?) && (stalled ==> !willing) && error != ConnectError
      ensures InOrder(config, sent, got) && (state == old(state) || state.Failed?) && Explained()
      ensures r.Partly? ==> Valid() && state == old(state)
      ensures r.Wholly? ==> state == old(state) && buffer.None? && sent == Before(config, state) + message
    {
      hide InOrder, Full, AuthRequest, ConnectRequest, Greeting, Accepted;
      ghost var whole := Before(config, state) + message;
      if buffer.None? {
        buffer := Some(message);
      }
      var rest := buffer.value;
      assert sent + rest == whole;
      var n := Write(rest);
      if n <= 0 {
        buffer := None;
        return Broken;
      }
      assert sent + rest[n..] == whole;
      if n < |rest| {
        buffer := Some(rest[n..]);
        AlignedInOrder(config, state, buffer, sent, got);
        return Partly;
      }
      buffer := None;
      assert sent + [] == sent && sent + rest[n..] == sent;
      r := Wholly;
      SentInOrder(config, old(state), sent, got);
    }

    /** _tgentransport_sendSocksInit. */
    method SendInit() returns (w: Want)
      requires Valid() && state.Init?
      modifies this`state, this`error, this`buffer, this`sent, this`stalled
      ensures Moved() && Answered(w) && error != ConnectError && !state.Connect?
      ensures stalled ==> w == Nothing && !willing
    {
      var r := Push(Greeting(config));
      match r {
        case Broken => w := Nothing;
        case Partly => w := ToWrite;
        case Wholly => state, w := Choice, ToRead;
      }
    }

    /** _tgentransport_sendSocksAuth. */
    method SendCredentials() returns (w: Want)
      requires Valid() && state.SendAuth?
      modifies this`state, this`error, this`buffer, this`sent, this`stalled
      ensures Moved() && Answered(w) && error != ConnectError && !state.Connect?
      ensures stalled ==> w == Nothing && !willing
    {
      var r := Push(AuthRequest(config));
      match r {
        case Broken => w := Nothing;
        case Partly => w := ToWrite;
        case Wholly => state, w := ReadAuth, ToRead;
      }
    }

    /** _tgentransport_sendSocksRequest. */
    method SendConnect() returns (w: Want)
      requires Valid() && state.SendRequest?
      modifies this`state, this`error, this`buffer, this`sent, this`stalled
      ensures Moved() && Answered(w) && error != ConnectError && !state.Connect?
      ensures stalled ==> w == Nothing && !willing
    {
      var r := Push(ConnectRequest(config));
      match r {
        case Broken => w := Nothing;
        case Partly => w := ToWrite;
        case Wholly => state, w := ReadStatus, ToRead;
      }
    }

    /** The bytes gathered in the buffer. */
    function Gathered(): Bytes
      reads this`buffer
    {
      if buffer.Some? then buffer.value else []
    }

    /** _tgentransport_socksReceiveHelper: gather up to so many bytes; on a failure they are lost. */
    method Gather(wanted: nat) returns (ok: bool)
      requires |Gathered()| < wanted
      modifies this`state, this`error, this`buffer, this`got, this`incoming, this`stalled
      ensures Moved() && (stalled <==> !ok) && (stalled && willing ==> incoming == [])
      ensures ok ==> buffer.Some? && |old(Gathered())| < |buffer.value| <= wanted && old(Gathered()) <= buffer.value
      ensures (state == old(state) && error == old(error)) || (!ok && state.Failed? && error == ReadError)
      ensures ok ==> got == old(got) + buffer.value[|old(Gathered())|..] && error == old(error)
      ensures !ok ==> buffer.None? && got == old(got)
    {
      if buffer.None? {
        buffer := Some([]);
      }
      var data := Read(wanted - |buffer.value|);
      ok := data != [];
      buffer := if ok then Some(buffer.value + data) else None;
    }

    /** Gather the piece that the state waits for, in one read. */
    method GatherPiece() returns (r: Progress, piece: Bytes)
      requires Valid() && Reading(state)
      modifies this`state, this`error, this`buffer, this`got, this`incoming, this`stalled
      ensures Moved() && (stalled <==> r.Broken?) && error != ConnectError
      ensures stalled && willing ==> incoming == [] && Reading(StateAfter(config, got))
      ensures InOrder(config, sent, got) && (state == old(state) || state.Failed?) && Explained()
      ensures r.Partly? ==> Valid() && state == old(state)
      ensures r.Wholly? ==> state == old(state) && buffer == Some(piece) && |piece| == Wanted(state, piece)
      ensures r.Wholly? && Next(config, state, piece).None? ==> Verdict(config, got) == Refusal(state, piece) != NoError
      ensures r.Wholly? && Next(config, state, piece).Some? ==>
              var t := Next(config, state, piece).value;
              ReadBefore(config, t, if t.ReadName? then piece else [], got) && sent == Before(config, t)
    {
      hide InOrder, ReadBefore, Before, Next, Verdict, Refusal, StateAfter;
      ghost var rest := Gathered();
      Waits(config, state, rest, got);
      var wanted := Wanted(state, Gathered());
      var ok := Gather(wanted);
      GotMoreInOrder(config, sent, old(got), got);
      if !ok {
        ReadingAfter(config, old(state), rest, got);
        return Broken, [];
      }
      ghost var data := buffer.value[|rest|..];
      assert buffer.value == rest + data && (rest != [] ==> buffer.value[0] == rest[0]);
      if |buffer.value| < wanted {
        PieceGrows(config, state, rest, old(got), data);
        return Partly, [];
      }
      r, piece := Wholly, buffer.value;
      assert Wanted(state, piece) == wanted;
      if Next(config, state, piece).Some? {
        PieceWhole(config, state, rest, old(got), data);
      } else {
        PieceRefused(config, state, rest, old(got), data);
      }
    }

    /** What an answer says: the handshake goes on, waiting for what its state needs, as long as the last
        call moved bytes and the proxy has broken no rule. */
    ghost predicate Answered(w: Want)
      reads this
    {
      InOrder(config, sent, got) && Explained() && (w != Nothing ==> Valid() && w == Wish(state)) && (w.Done? <==> state.Open?) &&
      (!stalled && Verdict(config, got) == NoError && error != ConnectError ==> Valid() && !state.Failed? && w == Wish(state))
    }

    /** _tgentransport_receiveSocksChoice. */
    method ReceiveChoice() returns (w: Want)
      requires Valid() && state.Choice?
      modifies this`state, this`error, this`buffer, this`got, this`incoming, this`stalled
      ensures Moved() && Answered(w) && error != ConnectError && !state.Connect?
      ensures stalled ==> w == Nothing && (willing ==> incoming == [] && Reading(StateAfter(config, got)))
    {
      hide InOrder, ReadBefore, Before, Verdict, StateAfter;
      var r, piece := GatherPiece();
      if !r.Wholly? {
        return if r.Partly? then ToRead else Nothing;
      }
      buffer := None;
      if piece[0] == 5 && piece[1] == Method(config) {
        assert piece == [5, Method(config)];
        state := if NeedsAuth(config) then SendAuth else SendRequest;
        w := ToWrite;
      } else {
        state, error, w := Failed, ChoiceError, Nothing;
      }
    }

    /** _tgentransport_receiveSocksAuth. */
    method ReceiveAuth() returns (w: Want)
      requires Valid() && state.ReadAuth?
      modifies this`state, this`error, this`buffer, this`got, this`incoming, this`stalled
      ensures Moved() && Answered(w) && error != ConnectError && !state.Connect?
      ensures stalled ==> w == Nothing && (willing ==> incoming == [] && Reading(StateAfter(config, got)))
    {
      hide InOrder, ReadBefore, Before, Verdict, StateAfter;
      var r, piece := GatherPiece();
      if !r.Wholly? {
        return if r.Partly? then ToRead else Nothing;
      }
      buffer := None;
      if piece[0] != 1 {
        state, error, w := Failed, VersionError, Nothing;
      } else if piece[1] != 0 {
        state, error, w := Failed, AuthError, Nothing;
      } else {
        assert piece == [1, 0];
        state, w := SendRequest, ToWrite;
      }
    }

    /** _tgentransport_receiveSocksResponseTypeName. */
    method ReceiveName() returns (w: Want)
      requires Valid() && state.ReadName?
      modifies this`state, this`error, this`buffer, this`got, this`incoming, this`stalled
      ensures Moved() && Answered(w) && error != ConnectError && !state.Connect?
      ensures stalled ==> w == Nothing && (willing ==> incoming == [] && Reading(StateAfter(config, got)))
    {
      hide InOrder, ReadBefore, Before, Verdict, StateAfter;
      var r, piece := GatherPiece();
      if !r.Wholly? {
        return if r.Partly? then ToRead else Nothing;
      }
      buffer, state, w := None, Open, Done;
    }

    /** _tgentransport_receiveSocksResponseTypeNameLen: the length stays in the buffer. */
    method ReceiveNameLength() returns (w: Want)
      requires Valid() && state.ReadNameLength?
      modifies this`state, this`error, this`buffer, this`got, this`incoming, this`stalled
      ensures Moved() && Answered(w) && error != ConnectError && !state.Connect?
      ensures stalled ==> w == Nothing && (willing ==> incoming == [] && Reading(StateAfter(config, got)))
    {
      hide InOrder, ReadBefore, Before, Verdict, StateAfter;
      var r, piece := GatherPiece();
      if !r.Wholly? {
        return if r.Partly? then ToRead else Nothing;
      }
      state := ReadName;
      w := ReceiveName();
    }

    /** _tgentransport_receiveSocksResponseTypeIPv4. */
    method ReceiveAddress() returns (w: Want)
      requires Valid() && state.ReadAddress?
      modifies this`state, this`error, this`buffer, this`got, this`incoming, this`stalled
      ensures Moved() && Answered(w) && error != ConnectError && !state.Connect?
      ensures stalled ==> w == Nothing && (willing ==> incoming == [] && Reading(StateAfter(config, got)))
    {
      hide InOrder, ReadBefore, Before, Verdict, StateAfter;
      var r, piece := GatherPiece();
      if !r.Wholly? {
        return if r.Partly? then ToRead else Nothing;
      }
      buffer, state, w := None, Open, Done;
    }

    /** _tgentransport_receiveSocksResponseType. */
    method ReceiveType() returns (w: Want)
      requires Valid() && state.ReadType?
      modifies this`state, this`error, this`buffer, this`got, this`incoming, this`stalled
      ensures Moved() && Answered(w) && error != ConnectError && !state.Connect?
      ensures stalled ==> w == Nothing && (willing ==> incoming == [] && Reading(StateAfter(config, got)))
    {
      hide InOrder, ReadBefore, Before, Verdict, StateAfter;
      var r, piece := GatherPiece();
      if !r.Wholly? {
        return if r.Partly? then ToRead else Nothing;
      }
      buffer := None;
      if piece[1] == 1 {
        state := ReadAddress;
        w := ReceiveAddress();
      } else if piece[1] == 3 {
        state := ReadNameLength;
        w := ReceiveNameLength();
      } else {
        state, error, w := Failed, AddressError, Nothing;
      }
    }

    /** _tgentransport_receiveSocksResponseStatus. */
    method ReceiveStatus() returns (w: Want)
      requires Valid() && state.ReadStatus?
      modifies this`state, this`error, this`buffer, this`got, this`incoming, this`stalled
      ensures Moved() && Answered(w) && error != ConnectError && !state.Connect?
      ensures stalled ==> w == Nothing && (willing ==> incoming == [] && Reading(StateAfter(config, got)))
    {
      hide InOrder, ReadBefore, Before, Verdict, StateAfter;
      var r, piece := GatherPiece();
      if !r.Wholly? {
        return if r.Partly? then ToRead else Nothing;
      }
      buffer := None;
      if piece[0] == 5 && piece[1] == 0 {
        assert piece == [5, 0];
        state := ReadType;
        w := ReceiveType();
      } else {
        state, error, w := Failed, if piece[0] != 5 then VersionError else StatusError, Nothing;
      }
    }

    /** The whole handshake: on a socket that moves something in every call, a proxy that accepts the
        method, the credentials if any, and the request is always talked to until the connection is open;
        the bytes behind its reply are left for the stream. */
    method Drive(reply: Bytes)
      requires Valid() && willing && config.proxied && state.Connect? && IsReply(reply) && Accepted(config) + reply <= incoming
      modifies this
      ensures state.Open? && got == Accepted(config) + reply && old(incoming) == got + incoming
      ensures sent == Greeting(config) + (if NeedsAuth(config) then AuthRequest(config) else []) + ConnectRequest(config)
    {
      hide InOrder, Aligned, Accepted, StateAfter, StateOf, IsReply, Greeting, AuthRequest, ConnectRequest;
      ghost var total := incoming;
      ghost var all := Full(config) + ConnectRequest(config);
      StartsEmpty();
      while !state.Open?
        invariant Valid() && !state.Failed? && got + incoming == total && |sent| <= |all|
        decreases |all| - |sent| + |incoming|
      {
        var w := OnEvent(true, true, false);
        GoodReplies(config, reply, total, got);
        SentBounded();
      }
      OpenIsExact(this);
      OneReply(config, reply, total, got);
    }

    lemma StartsEmpty()
      requires Valid() && state.Connect?
      ensures sent == [] && got == []
    {
    }

    lemma SentBounded()
      requires InOrder(config, sent, got)
      ensures |sent| <= |Full(config) + ConnectRequest(config)|
    {
    }

    /** No call is issued: the connection is not there, what the state waits for is not, or the
        handshake is over. */
    predicate Idles(readable: bool, writable: bool)
      reads this
    {
      if Reading(state) then !readable else state.Open? || state.Failed? || !writable
    }

    /** What a state does with an event once the connection is there. */
    method Dispatch(readable: bool, writable: bool) returns (w: Want)
      requires Valid() && !state.Connect?
      modifies this
      ensures Answered(w) && !state.Connect? && (error == ConnectError ==> old(error) == ConnectError)
      ensures old(Idles(readable, writable)) ==>
                state == old(state) && error == old(error) && buffer == old(buffer) && sent == old(sent) && got == old(got) &&
                incoming == old(incoming) && w == Wish(state)
      ensures old(!Idles(readable, writable)) ==>
                Moved() && (stalled ==> w == Nothing) && (stalled && willing ==> incoming == [] && Reading(StateAfter(config, got)))
    {
      hide InOrder, Aligned, Verdict, Accepted, StateAfter;
      match state {
        case Init => if writable { w := SendInit(); } else { w := ToWrite; }
        case Choice => if readable { w := ReceiveChoice(); } else { w := ToRead; }
        case SendAuth => if writable { w := SendCredentials(); } else { w := ToWrite; }
        case ReadAuth => if readable { w := ReceiveAuth(); } else { w := ToRead; }
        case SendRequest => if writable { w := SendConnect(); } else { w := ToWrite; }
        case ReadStatus => if readable { w := ReceiveStatus(); } else { w := ToRead; }
        case ReadType => if readable { w := ReceiveType(); } else { w := ToRead; }
        case ReadAddress => if readable { w := ReceiveAddress(); } else { w := ToRead; }
        case ReadNameLength => if readable { w := ReceiveNameLength(); } else { w := ToRead; }
        case ReadName => if readable { w := ReceiveName(); } else { w := ToRead; }
        case Open => w := Done;
        case Failed => w := Nothing;
      }
    }

    /** tgentransport_onEvent: Nothing is a failure, Done means the connection is ready. An event that the
        state does not wait for changes nothing; a connection that fails is the only other failure than
        those of a call or of a rule; and the state is the one of the bytes moved so far. */
    method OnEvent(readable: bool, writable: bool, failed: bool) returns (w: Want)
      requires Valid()
      modifies this
      ensures Answered(w)
      ensures old(state.Connect? && failed) ==> state.Failed? && error == ConnectError && w == Nothing
      ensures error == ConnectError ==> old(error) == ConnectError || old(state.Connect? && failed)
      ensures old(Idles(readable, writable) && !(state.Connect? && failed)) ==>
                state == old(state) && error == old(error) && buffer == old(buffer) && sent == old(sent) && got == old(got) &&
                incoming == old(incoming) && w == Wish(state)
      ensures old(state.Connect? && !failed) && writable && !config.proxied ==> state.Open?
      ensures old(!Idles(readable, writable) && !(state.Connect? && (failed || !config.proxied))) ==>
                Moved() && (stalled ==> w == Nothing) && !state.Connect? &&
                (stalled && willing ==> incoming == [] && Reading(StateAfter(config, got)))
      ensures w != Nothing && config.proxied && !state.Connect? ==> state == StateOf(config, sent, got)
    {
      hide InOrder, Verdict, Accepted, StateOf, StateAfter;
      if failed && state.Connect? {
        state, error := Failed, ConnectError;
      }
      if state.Connect? && writable {
        state := if config.proxied then Init else Open;
      }
      if state.Connect? {
        w := ToWrite;
      } else {
        w := Dispatch(readable, writable);
      }
      if w != Nothing && config.proxied && !state.Connect? {
        Determined(config, state, buffer, sent, got);
      }
    }
  }

  /** Only one reply begins what the proxy says. */
  lemma OneReply(c: Config, reply: Bytes, total: Bytes, got: Bytes)
    requires IsReply(reply) && Accepted(c) + reply <= total && got <= total
    requires |got| >= |Accepted(c)| && got[..|Accepted(c)|] == Accepted(c) && IsReply(got[|Accepted(c)|..])
    ensures got == Accepted(c) + reply
  {
    hide IsReply, Accepted;
    var n, whole := |Accepted(c)|, Accepted(c) + reply;
    var tail := got[n..];
    assert got == Accepted(c) + tail;
    assert total[..|whole|] == whole && total[..|got|] == got;
    if |whole| <= |got| {
      assert got[..|whole|] == whole;
      assert tail[..|reply|] == reply;
      ReplyPrefixFree(reply, tail);
    } else {
      assert whole[..|got|] == got;
      assert reply[..|tail|] == tail;
      ReplyPrefixFree(tail, reply);
    }
  }

  /** What a successful handshake has moved: exactly the greeting, the credentials when there are
      any, and the request; exactly the accepting replies and one whole reply to the request. */
  lemma OpenIsExact(h: Handshake)
    requires h.Valid() && h.state.Open? && h.config.proxied
    ensures h.sent == Greeting(h.config) + (if NeedsAuth(h.config) then AuthRequest(h.config) else []) + ConnectRequest(h.config)
    ensures |h.got| >= |Accepted(h.config)| && h.got[..|Accepted(h.config)|] == Accepted(h.config) && IsReply(h.got[|Accepted(h.config)|..])
  {
    assert Greeting(h.config) + [] == Greeting(h.config);
  }
}
