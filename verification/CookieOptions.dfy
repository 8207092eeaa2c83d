/**
  EDNS options and the DNS cookie among them: writing an option list, and reading the
  server cookie back out of one.
*/
module CookieOptions {
  import opened Outcomes
  import opened MachineWords

  const CLIENT_BYTES: nat := 8
  const MIN_SERVER: nat := 8
  const MAX_SERVER: nat := 32
  const COOKIE: nat := 10
  const MAX_PACKET: nat := 0xffff

  datatype Opt = Opt(code: U16, data: seq<Byte>)

  datatype Error =
    | Length(actual: nat)
    | Truncated(offset: nat, required: nat, actual: nat)
    | ClientLength(actual: nat)
    | Client(observed: seq<Byte>, expected: seq<Byte>)
    | ServerLength(actual: nat)
    | Capacity(actual: nat)

  // ----- Option lists, as section 6.1.2 of RFC 6891 lays them out -----

  function EncodeOne(opt: Opt): (s: seq<Byte>)
    requires |opt.data| <= MAX_PACKET
    ensures |s| == 4 + |opt.data|
  {
    Big16(opt.code) + Big16(|opt.data|) + opt.data
  }

  /** An option is its code, its length, each two bytes with the high one first, and its data. */
  lemma OptionBytes(opt: Opt)
    requires |opt.data| <= 65535
    ensures var s, code: nat, length: nat := EncodeOne(opt), opt.code, |opt.data|;
            && |s| == 4 + length && s[0] == code / 256 && s[1] == code % 256
            && s[2] == length / 256 && s[3] == length % 256 && s[4..] == opt.data
  {
  }

  function Encode(opts: seq<Opt>): seq<Byte>
    requires forall o | o in opts :: |o.data| <= MAX_PACKET
  {
    if opts == [] then [] else
      EncodeOne(opts[0]) + Encode(opts[1..])
  }

  function FirstCookie(opts: seq<Opt>): Option<seq<Byte>> {
    if opts == [] then None
    else if opts[0].code == COOKIE then Some(opts[0].data)
    else FirstCookie(opts[1..])
  }

  /** What section 4 of RFC 7873 asks of a cookie returned to the client `expected`. */
  function Checked(data: seq<Byte>, expected: seq<Byte>): Result<seq<Byte>, Error>
    requires |expected| == CLIENT_BYTES
  {
    if |data| < CLIENT_BYTES then Err(ClientLength(|data|))
    else if data[..CLIENT_BYTES] != expected then Err(Client(data[..CLIENT_BYTES], expected))
    else if |data| - CLIENT_BYTES < MIN_SERVER then Err(ServerLength(|data| - CLIENT_BYTES))
    else if |data| - CLIENT_BYTES > MAX_SERVER then Err(Capacity(|data| - CLIENT_BYTES))
    else Ok(data[CLIENT_BYTES..])
  }

  // ----- Reading -----

  /** `required` bytes at `offset`, or where the packet falls short. */
  function Take(packet: seq<Byte>, offset: nat, required: nat): Result<seq<Byte>, Error>
    requires offset <= |packet|
  {
    if offset + required <= |packet| then Ok(packet[offset..offset + required])
    else Err(Truncated(offset, required, |packet| - offset))
  }

  /** One option at `offset`, or the first read that fails. */
  function TakeOpt(packet: seq<Byte>, offset: nat): (r: Result<Opt, Error>)
    requires offset < |packet|
    ensures r.Ok? ==> offset + 4 + |r.value.data| <= |packet| && |r.value.data| <= MAX_PACKET
  {
    match Take(packet, offset, 2)
    case Err(e) => Err(e)
    case Ok(_) =>
      match Take(packet, offset + 2, 2)
      case Err(e) => Err(e)
      case Ok(_) =>
        match Take(packet, offset + 4, Read16(packet, offset + 2))
        case Err(e) => Err(e)
        case Ok(data) => Ok(Opt(Read16(packet, offset), data))
  }

  /** The remaining options from `offset` on, given the cookie found so far. */
  function Scan(packet: seq<Byte>, expected: seq<Byte>, offset: nat, found: Option<seq<Byte>>): Result<Option<seq<Byte>>, Error>
    requires |expected| == CLIENT_BYTES && offset <= |packet|
    decreases |packet| - offset
  {
    if offset == |packet| then Ok(found) else
    match TakeOpt(packet, offset)
    case Err(e) => Err(e)
    case Ok(opt) =>
      var next := offset + 4 + |opt.data|;
      if opt.code != COOKIE || found.Some? then Scan(packet, expected, next, found) else
      match Checked(opt.data, expected)
      case Err(e) => Err(e)
      case Ok(server) => Scan(packet, expected, next, Some(server))
  }

  lemma ScanStep(packet: seq<Byte>, expected: seq<Byte>, offset: nat, found: Option<seq<Byte>>, opt: Opt)
    requires |expected| == CLIENT_BYTES && offset < |packet| && TakeOpt(packet, offset) == Ok(opt)
    ensures Scan(packet, expected, offset, found)
         == if opt.code != COOKIE || found.Some? then Scan(packet, expected, offset + 4 + |opt.data|, found) else
            match Checked(opt.data, expected)
            case Err(e) => Err(e)
            case Ok(server) => Scan(packet, expected, offset + 4 + |opt.data|, Some(server))
  {
  }

  /** Reads the next option: its code, its length, then that many bytes. */
  method NextOpt(packet: seq<Byte>, position: nat) returns (r: Result<Opt, Error>)
    requires position < |packet|
    ensures r == TakeOpt(packet, position)
  {
    var code := Take(packet, position, 2);
    if code.Err? { return Err(code.error); }
    var length := Take(packet, position + 2, 2);
    if length.Err? { return Err(length.error); }
    var data := Take(packet, position + 4, Read16(packet, position + 2));
    if data.Err? { return Err(data.error); }
    r := Ok(Opt(Read16(packet, position), data.value));
  }

  /** Checks one cookie; `CheckedMeans` says which are accepted and what the others are refused for. */
  method CheckCookie(data: seq<Byte>, expected: seq<Byte>) returns (r: Result<seq<Byte>, Error>)
    requires |expected| == CLIENT_BYTES
    ensures r == Checked(data, expected)
  {
    if |data| < CLIENT_BYTES { return Err(ClientLength(|data|)); }
    var client, server := data[..CLIENT_BYTES], data[CLIENT_BYTES..];
    if client != expected { return Err(Client(client, expected)); }
    if |server| < MIN_SERVER { return Err(ServerLength(|server|)); }
    if |server| > MAX_SERVER { return Err(Capacity(|server|)); }
    r := Ok(server);
  }

  /** The answer to a packet of options. */
  function Understood(options: seq<Byte>, expected: seq<Byte>): Result<Option<seq<Byte>>, Error>
    requires |expected| == CLIENT_BYTES
  {
    if |options| > MAX_PACKET then Err(Length(|options|)) else Scan(options, expected, 0, None)
  }

  /** The server cookie in an option list; only the first cookie option is looked at. */
  method FromOptions(options: seq<Byte>, expected: seq<Byte>) returns (r: Result<Option<seq<Byte>>, Error>)
    requires |expected| == CLIENT_BYTES
    ensures r == Understood(options, expected)
  {
    if |options| > MAX_PACKET { return Err(Length(|options|)); }
    ghost var whole := Scan(options, expected, 0, None);
    var cookie: Option<seq<Byte>> := None;
    var position := 0;
    while position < |options|
      invariant position <= |options|
      invariant Scan(options, expected, position, cookie) == whole
    {
      var opt := NextOpt(options, position);
      if opt.Err? { return Err(opt.error); }
      ScanStep(options, expected, position, cookie, opt.value);
      position := position + 4 + |opt.value.data|;
      if opt.value.code == COOKIE && cookie.None? {
        var server := CheckCookie(opt.value.data, expected);
        if server.Err? { return Err(server.error); }
        cookie := Some(server.value);
      }
    }
    r := Ok(cookie);
  }

  // ----- Reading undoes writing -----

  lemma TakeEncoded(packet: seq<Byte>, offset: nat, opt: Opt, after: seq<Byte>)
    requires |opt.data| <= MAX_PACKET && offset <= |packet| && packet[offset..] == EncodeOne(opt) + after
    ensures offset < |packet| && TakeOpt(packet, offset) == Ok(opt) && packet[offset + 4 + |opt.data|..] == after
  {
    var s := packet[offset..];
    ReadWritten([], opt.code, Big16(|opt.data|) + opt.data + after);
    assert s == [] + Big16(opt.code) + (Big16(|opt.data|) + opt.data + after);
    ReadWritten(Big16(opt.code), |opt.data|, opt.data + after);
    assert s == Big16(opt.code) + Big16(|opt.data|) + (opt.data + after);
    assert packet[offset] == s[0] && packet[offset + 1] == s[1] && packet[offset + 2] == s[2] && packet[offset + 3] == s[3];
    assert packet[offset + 4..offset + 4 + |opt.data|] == s[4..4 + |opt.data|] == opt.data;
    assert packet[offset + 4 + |opt.data|..] == s[4 + |opt.data|..];
  }

  /** The outcome of checking the first cookie of a list, if any. */
  function Decision(opts: seq<Opt>, expected: seq<Byte>): Result<Option<seq<Byte>>, Error>
    requires |expected| == CLIENT_BYTES
  {
    match FirstCookie(opts)
    case None => Ok(None)
    case Some(data) => match Checked(data, expected) case Err(e) => Err(e) case Ok(server) => Ok(Some(server))
  }

  lemma {:induction false} ScanEncoded(packet: seq<Byte>, offset: nat, opts: seq<Opt>, expected: seq<Byte>, found: Option<seq<Byte>>)
    requires |expected| == CLIENT_BYTES && forall o | o in opts :: |o.data| <= MAX_PACKET
    requires offset <= |packet| && packet[offset..] == Encode(opts)
    ensures Scan(packet, expected, offset, found) == if found.Some? then Ok(found) else Decision(opts, expected)
    decreases |opts|
  {
    if opts != [] {
      var opt := opts[0];
      TakeEncoded(packet, offset, opt, Encode(opts[1..]));
      ScanStep(packet, expected, offset, found, opt);
      ScanEncoded(packet, offset + 4 + |opt.data|, opts[1..], expected, found);
      if opt.code == COOKIE && found.None? && Checked(opt.data, expected).Ok? {
        ScanEncoded(packet, offset + 4 + |opt.data|, opts[1..], expected, Some(Checked(opt.data, expected).value));
      }
    }
  }

  /** On a well-formed list the result is decided by its first cookie option alone. */
  lemma WellFormedOptions(opts: seq<Opt>, expected: seq<Byte>)
    requires |expected| == CLIENT_BYTES && forall o | o in opts :: |o.data| <= MAX_PACKET
    ensures Scan(Encode(opts), expected, 0, None) == Decision(opts, expected)
  {
    assert Encode(opts)[0..] == Encode(opts);
    ScanEncoded(Encode(opts), 0, opts, expected, None);
  }

  /** The cookie option a client writes; a server that echoes it with its cookie is understood. */
  function CookieOption(client: seq<Byte>, server: seq<Byte>): Opt {
    Opt(COOKIE, client + server)
  }

  lemma CookieRoundTrip(client: seq<Byte>, server: seq<Byte>, others: seq<Opt>)
    requires |client| == CLIENT_BYTES && MIN_SERVER <= |server| <= MAX_SERVER
    requires forall o | o in others :: |o.data| <= MAX_PACKET
    ensures Scan(Encode([CookieOption(client, server)] + others), client, 0, None) == Ok(Some(server))
  {
    var opts := [CookieOption(client, server)] + others;
    WellFormedOptions(opts, client);
    assert (client + server)[..CLIENT_BYTES] == client && (client + server)[CLIENT_BYTES..] == server;
  }

  lemma TakenBytes(packet: seq<Byte>, offset: nat)
    requires offset < |packet| && TakeOpt(packet, offset).Ok?
    ensures var opt := TakeOpt(packet, offset).value;
            packet[offset..] == EncodeOne(opt) + packet[offset + 4 + |opt.data|..]
  {
    var opt := TakeOpt(packet, offset).value;
    assert packet[offset..offset + 2] == Big16(opt.code);
    assert packet[offset + 2..offset + 4] == Big16(|opt.data|);
  }

  /** Nothing but a well-formed list is accepted: success means the bytes are an encoding. */
  lemma {:induction false} AcceptedIsEncoding(packet: seq<Byte>, expected: seq<Byte>, offset: nat, found: Option<seq<Byte>>)
    returns (opts: seq<Opt>)
    requires |expected| == CLIENT_BYTES && offset <= |packet|
    requires Scan(packet, expected, offset, found).Ok?
    ensures (forall o | o in opts :: |o.data| <= MAX_PACKET) && packet[offset..] == Encode(opts)
    decreases |packet| - offset
  {
    if offset == |packet| {
      opts := [];
    } else {
      var opt := TakeOpt(packet, offset).value;
      var next := offset + 4 + |opt.data|;
      var now := if opt.code != COOKIE || found.Some? then found else Some(Checked(opt.data, expected).value);
      var rest := AcceptedIsEncoding(packet, expected, next, now);
      opts := [opt] + rest;
      assert opts[1..] == rest;
      TakenBytes(packet, offset);
    }
  }

  /** The parser succeeds exactly on well-formed lists whose first cookie option, if any, checks. */
  lemma AcceptsExactly(packet: seq<Byte>, expected: seq<Byte>)
    requires |expected| == CLIENT_BYTES
    ensures Scan(packet, expected, 0, None).Ok? <==>
              exists opts: seq<Opt> ::
                && (forall o | o in opts :: |o.data| <= MAX_PACKET) && packet == Encode(opts)
                && (FirstCookie(opts).Some? ==> Checked(FirstCookie(opts).value, expected).Ok?)
  {
    if Scan(packet, expected, 0, None).Ok? {
      var opts := AcceptedIsEncoding(packet, expected, 0, None);
      assert packet[0..] == packet;
      WellFormedOptions(opts, expected);
    }
    forall opts: seq<Opt> |
      && (forall o | o in opts :: |o.data| <= MAX_PACKET) && packet == Encode(opts)
      && (FirstCookie(opts).Some? ==> Checked(FirstCookie(opts).value, expected).Ok?)
      ensures Scan(packet, expected, 0, None).Ok?
    {
      WellFormedOptions(opts, expected);
    }
  }

  // ----- Which bytes lead to which answer -----

  predicate WellFormed(opts: seq<Opt>) {
    forall o | o in opts :: |o.data| <= 65535
  }

  /** Well-formed options, and no cookie among them. */
  predicate Plain(opts: seq<Opt>) {
    WellFormed(opts) && forall o | o in opts :: o.code != 10
  }

  /** `data` stands in the first cookie option, behind `pre` and before `after`. */
  predicate CookieBehind(packet: seq<Byte>, pre: seq<Opt>, data: seq<Byte>, after: seq<Byte>) {
    Plain(pre) && |data| <= 65535 && packet == Encode(pre) + (EncodeOne(Opt(10, data)) + after)
  }

  ghost predicate FirstCookieIs(packet: seq<Byte>, data: seq<Byte>) {
    exists pre, after :: CookieBehind(packet, pre, data, after)
  }

  /** How `tail`, which stands at `offset`, falls short of an option: in its code, its length or its data. */
  predicate CutShort(tail: seq<Byte>, offset: nat, e: Error) {
    && tail != []
    && if |tail| < 2 then e == Truncated(offset, 2, |tail|)
       else if |tail| < 4 then e == Truncated(offset + 2, 2, |tail| - 2)
       else
         var high: nat, low: nat := tail[2], tail[3];
         256 * high + low > |tail| - 4 && e == Truncated(offset + 4, 256 * high + low, |tail| - 4)
  }

  lemma TakeOptFails(packet: seq<Byte>, offset: nat, e: Error)
    requires offset < |packet|
    ensures TakeOpt(packet, offset) == Err(e) <==> CutShort(packet[offset..], offset, e)
  {
  }

  lemma EncodeSplits(opts: seq<Opt>, after: seq<Byte>)
    requires opts != [] && WellFormed(opts)
    ensures WellFormed(opts[1..]) && Encode(opts) + after == EncodeOne(opts[0]) + (Encode(opts[1..]) + after)
    ensures |Encode(opts)| == 4 + |opts[0].data| + |Encode(opts[1..])|
  {
  }

  lemma PassOne(packet: seq<Byte>, expected: seq<Byte>, offset: nat, found: Option<seq<Byte>>, opt: Opt, after: seq<Byte>)
    requires |expected| == CLIENT_BYTES && offset <= |packet| && |opt.data| <= 65535 && (found.Some? || opt.code != 10)
    requires packet[offset..] == EncodeOne(opt) + after
    ensures offset + 4 + |opt.data| <= |packet| && packet[offset + 4 + |opt.data|..] == after
    ensures Scan(packet, expected, offset, found) == Scan(packet, expected, offset + 4 + |opt.data|, found)
  {
    TakeEncoded(packet, offset, opt, after);
    ScanStep(packet, expected, offset, found, opt);
  }

  /** Options that decide nothing are passed over. */
  lemma {:induction false} ScanPasses(packet: seq<Byte>, expected: seq<Byte>, offset: nat, found: Option<seq<Byte>>,
                                      opts: seq<Opt>, after: seq<Byte>) returns (stop: nat)
    requires |expected| == CLIENT_BYTES && offset <= |packet| && WellFormed(opts) && (found.Some? || Plain(opts))
    requires packet[offset..] == Encode(opts) + after
    ensures offset <= stop <= |packet| && packet[stop..] == after && stop == offset + |Encode(opts)|
    ensures Scan(packet, expected, offset, found) == Scan(packet, expected, stop, found)
    decreases |opts|
  {
    if opts == [] {
      assert Encode(opts) + after == after;
      stop := offset;
    } else {
      EncodeSplits(opts, after);
      PassOne(packet, expected, offset, found, opts[0], Encode(opts[1..]) + after);
      stop := ScanPasses(packet, expected, offset + 4 + |opts[0].data|, found, opts[1..], after);
    }
  }

  /** What a cookie option that is not accepted is refused for. */
  predicate Rejects(data: seq<Byte>, expected: seq<Byte>, e: Error) {
    match e
    case ClientLength(actual) => actual == |data| < 8
    case Client(observed, own) => |data| >= 8 && observed == data[..8] && own == expected && observed != own
    case ServerLength(actual) => |data| >= 8 && data[..8] == expected && actual == |data| - 8 < 8
    case Capacity(actual) => |data| >= 8 && data[..8] == expected && actual == |data| - 8 > 32
    case _ => false
  }

  /** The server cookie in `data`: what follows the client's own eight bytes, eight to thirty-two bytes long. */
  predicate Echoes(data: seq<Byte>, expected: seq<Byte>, server: seq<Byte>) {
    data == expected + server && 8 <= |server| <= 32
  }

  /** A cookie is accepted exactly when it echoes the client's bytes with a server cookie of fit length. */
  lemma CheckedMeans(data: seq<Byte>, expected: seq<Byte>, r: Result<seq<Byte>, Error>)
    requires |expected| == 8
    ensures Checked(data, expected) == r <==> match r case Ok(s) => Echoes(data, expected, s) case Err(e) => Rejects(data, expected, e)
  {
    if |data| >= 8 { assert data == data[..8] + data[8..]; }
    if r.Ok? && Echoes(data, expected, r.value) { assert data[..8] == expected && data[8..] == r.value; }
  }

  lemma CookieAt(packet: seq<Byte>, expected: seq<Byte>, at: nat, data: seq<Byte>, after: seq<Byte>)
    requires |expected| == 8 && |data| <= 65535 && at <= |packet| && packet[at..] == EncodeOne(Opt(10, data)) + after
    ensures var next := at + 4 + |data|;
            && next <= |packet| && packet[next..] == after
            && Scan(packet, expected, at, None)
            == match Checked(data, expected) case Err(e) => Err(e) case Ok(server) => Scan(packet, expected, next, Some(server))
  {
    TakeEncoded(packet, at, Opt(10, data), after);
    ScanStep(packet, expected, at, None, Opt(10, data));
  }

  lemma StartsAtZero(packet: seq<Byte>)
    ensures packet[0..] == packet
  {
  }

  lemma CookieIsReached(packet: seq<Byte>, expected: seq<Byte>, pre: seq<Opt>, data: seq<Byte>, after: seq<Byte>) returns (at: nat)
    requires |expected| == 8 && CookieBehind(packet, pre, data, after)
    ensures at <= |packet| && packet[at..] == EncodeOne(Opt(10, data)) + after
    ensures Scan(packet, expected, 0, None) == Scan(packet, expected, at, None)
  {
    StartsAtZero(packet);
    at := ScanPasses(packet, expected, 0, None, pre, EncodeOne(Opt(10, data)) + after);
  }

  /** The options that can be read from `offset` on, up to a cookie if `plain`; what is left is empty, cut short or that cookie. */
  lemma {:induction false} Split(packet: seq<Byte>, offset: nat, plain: bool) returns (opts: seq<Opt>, tail: seq<Byte>)
    requires offset <= |packet|
    ensures WellFormed(opts) && (plain ==> Plain(opts)) && packet[offset..] == Encode(opts) + tail
    ensures |tail| <= |packet| && packet[|packet| - |tail|..] == tail
    ensures tail != [] ==> var r := TakeOpt(packet, |packet| - |tail|); r.Err? || (plain && r.value.code == 10)
    decreases |packet| - offset
  {
    if offset == |packet| || TakeOpt(packet, offset).Err? || (plain && TakeOpt(packet, offset).value.code == 10) {
      opts, tail := [], packet[offset..];
    } else {
      var opt := TakeOpt(packet, offset).value;
      TakenBytes(packet, offset);
      var rest;
      rest, tail := Split(packet, offset + 4 + |opt.data|, plain);
      opts := [opt] + rest;
      EncodeSplits(opts, tail);
    }
  }

  /** A list without a cookie, and one whose first cookie option echoes the client's bytes. */
  ghost predicate LacksCookie(packet: seq<Byte>) {
    exists opts :: Plain(opts) && packet == Encode(opts)
  }

  ghost predicate EchoesCookie(packet: seq<Byte>, expected: seq<Byte>, server: seq<Byte>) {
    && 8 <= |server| <= 32
    && exists pre, post :: WellFormed(post) && CookieBehind(packet, pre, expected + server, Encode(post))
  }

  ghost predicate RefusesCookie(packet: seq<Byte>, expected: seq<Byte>, e: Error) {
    exists data :: FirstCookieIs(packet, data) && Rejects(data, expected, e)
  }

  /** The options read so far let the reading go on. */
  ghost predicate Tolerable(pre: seq<Opt>, expected: seq<Byte>) {
    || Plain(pre)
    || (WellFormed(pre) && exists server :: EchoesCookie(Encode(pre), expected, server))
  }

  ghost predicate EndsTooSoon(packet: seq<Byte>, expected: seq<Byte>, e: Error) {
    exists pre, tail ::
      WellFormed(pre) && packet == Encode(pre) + tail && CutShort(tail, |packet| - |tail|, e) && Tolerable(pre, expected)
  }

  lemma LackingIsNone(packet: seq<Byte>, expected: seq<Byte>)
    requires |expected| == 8 && LacksCookie(packet)
    ensures Scan(packet, expected, 0, None) == Ok(None)
  {
    var opts :| Plain(opts) && packet == Encode(opts);
    StartsAtZero(packet);
    assert Encode(opts) + [] == Encode(opts);
    var stop := ScanPasses(packet, expected, 0, None, opts, []);
  }

  /** Once a cookie has been accepted, the options behind it are only passed over. */
  lemma EchoAt(packet: seq<Byte>, expected: seq<Byte>, at: nat, data: seq<Byte>, server: seq<Byte>, post: seq<Opt>, tail: seq<Byte>,
               after: seq<Byte>) returns (stop: nat)
    requires |expected| == 8 && |data| <= 65535 && Echoes(data, expected, server) && WellFormed(post)
    requires at <= |packet| && packet[at..] == EncodeOne(Opt(10, data)) + after && after == Encode(post) + tail
    ensures stop <= |packet| && packet[stop..] == tail
    ensures Scan(packet, expected, at, None) == Scan(packet, expected, stop, Some(server))
  {
    CheckedMeans(data, expected, Ok(server));
    CookieAt(packet, expected, at, data, after);
    var next := at + 4 + |data|;
    assert Scan(packet, expected, at, None) == Scan(packet, expected, next, Some(server));
    stop := ScanPasses(packet, expected, next, Some(server), post, tail);
  }

  lemma EchoIsFound(packet: seq<Byte>, expected: seq<Byte>, server: seq<Byte>)
    requires |expected| == 8 && EchoesCookie(packet, expected, server)
    ensures Scan(packet, expected, 0, None) == Ok(Some(server))
  {
    var pre, post :| WellFormed(post) && CookieBehind(packet, pre, expected + server, Encode(post));
    var data, after := expected + server, Encode(post);
    var at := CookieIsReached(packet, expected, pre, data, after);
    assert after == after + [];
    var stop := EchoAt(packet, expected, at, data, server, post, [], after);
    assert stop == |packet|;
  }

  lemma RefusalIsReported(packet: seq<Byte>, expected: seq<Byte>, e: Error)
    requires |expected| == 8 && RefusesCookie(packet, expected, e)
    ensures Scan(packet, expected, 0, None) == Err(e)
  {
    var data :| FirstCookieIs(packet, data) && Rejects(data, expected, e);
    var pre, after :| CookieBehind(packet, pre, data, after);
    CheckedMeans(data, expected, Err(e));
    var at := CookieIsReached(packet, expected, pre, data, after);
    CookieAt(packet, expected, at, data, after);
  }

  lemma {:induction false} EncodeJoins(a: seq<Opt>, b: seq<Opt>)
    requires WellFormed(a) && WellFormed(b)
    ensures WellFormed(a + b) && Encode(a + b) == Encode(a) + Encode(b)
    decreases |a|
  {
    if a == [] {
      assert a + b == b;
    } else {
      assert (a + b)[0] == a[0] && (a + b)[1..] == a[1..] + b;
      EncodeJoins(a[1..], b);
    }
  }

  lemma CutIsReported(packet: seq<Byte>, expected: seq<Byte>, stop: nat, found: Option<seq<Byte>>, tail: seq<Byte>, e: Error)
    requires |expected| == 8 && stop <= |packet| && packet[stop..] == tail && CutShort(tail, |packet| - |tail|, e)
    ensures Scan(packet, expected, stop, found) == Err(e)
  {
    TakeOptFails(packet, stop, e);
  }

  lemma Reassociate(a: seq<Byte>, b: seq<Byte>, c: seq<Byte>, d: seq<Byte>)
    ensures a + (b + c) + d == a + (b + (c + d))
  {
  }

  lemma EchoThenCut(packet: seq<Byte>, expected: seq<Byte>, server: seq<Byte>, whole: seq<Byte>, tail: seq<Byte>, e: Error)
    requires |expected| == 8 && EchoesCookie(whole, expected, server) && packet == whole + tail
    requires CutShort(tail, |packet| - |tail|, e)
    ensures Scan(packet, expected, 0, None) == Err(e)
  {
    var pre, post :| WellFormed(post) && CookieBehind(whole, pre, expected + server, Encode(post));
    var data, after := expected + server, Encode(post) + tail;
    Reassociate(Encode(pre), EncodeOne(Opt(10, data)), Encode(post), tail);
    var at := CookieIsReached(packet, expected, pre, data, after);
    var stop := EchoAt(packet, expected, at, data, server, post, tail, after);
    CutIsReported(packet, expected, stop, Some(server), tail, e);
  }

  lemma TooSoonIsReported(packet: seq<Byte>, expected: seq<Byte>, e: Error)
    requires |expected| == 8 && EndsTooSoon(packet, expected, e)
    ensures Scan(packet, expected, 0, None) == Err(e)
  {
    var pre, tail :|
      WellFormed(pre) && packet == Encode(pre) + tail && CutShort(tail, |packet| - |tail|, e) && Tolerable(pre, expected);
    if Plain(pre) {
      StartsAtZero(packet);
      var stop := ScanPasses(packet, expected, 0, None, pre, tail);
      CutIsReported(packet, expected, stop, None, tail, e);
    } else {
      var server :| EchoesCookie(Encode(pre), expected, server);
      EchoThenCut(packet, expected, server, Encode(pre), tail, e);
    }
  }

  /** What an answer says of the bytes it was read from. */
  ghost predicate Explains(r: Result<Option<seq<Byte>>, Error>, packet: seq<Byte>, expected: seq<Byte>) {
    match r
    case Ok(None) => LacksCookie(packet)
    case Ok(Some(server)) => EchoesCookie(packet, expected, server)
    case Err(e) => RefusesCookie(packet, expected, e) || EndsTooSoon(packet, expected, e)
  }

  lemma CutEndsTooSoon(packet: seq<Byte>, expected: seq<Byte>, pre: seq<Opt>, tail: seq<Byte>, e: Error)
    requires Tolerable(pre, expected) && WellFormed(pre) && packet == Encode(pre) + tail && CutShort(tail, |packet| - |tail|, e)
    ensures EndsTooSoon(packet, expected, e)
  {
  }

  lemma CutIsExplained(packet: seq<Byte>, expected: seq<Byte>, pre: seq<Opt>, tail: seq<Byte>, at: nat)
    requires |expected| == 8 && Tolerable(pre, expected) && WellFormed(pre) && packet == Encode(pre) + tail
    requires at < |packet| && at == |packet| - |tail| && packet[at..] == tail && TakeOpt(packet, at).Err?
    ensures Explains(Scan(packet, expected, 0, None), packet, expected)
  {
    var e := TakeOpt(packet, at).error;
    TakeOptFails(packet, at, e);
    CutEndsTooSoon(packet, expected, pre, tail, e);
    TooSoonIsReported(packet, expected, e);
  }

  lemma EncodedAround(pre: seq<Opt>, opt: Opt, post: seq<Opt>)
    requires WellFormed(pre) && |opt.data| <= 65535 && WellFormed(post)
    ensures var all := pre + ([opt] + post); WellFormed(all) && Encode(all) == Encode(pre) + (EncodeOne(opt) + Encode(post))
  {
    EncodeJoins(pre, [opt] + post);
    assert ([opt] + post)[1..] == post;
  }

  lemma EchoThenCutIsExplained(packet: seq<Byte>, expected: seq<Byte>, pre: seq<Opt>, data: seq<Byte>, server: seq<Byte>,
                               post: seq<Opt>, tail: seq<Byte>)
    requires |expected| == 8 && Plain(pre) && |data| <= 65535 && Echoes(data, expected, server) && WellFormed(post)
    requires packet == Encode(pre) + (EncodeOne(Opt(10, data)) + (Encode(post) + tail))
    requires tail != [] && |tail| <= |packet| && packet[|packet| - |tail|..] == tail && TakeOpt(packet, |packet| - |tail|).Err?
    ensures Explains(Scan(packet, expected, 0, None), packet, expected)
  {
    var all := pre + ([Opt(10, data)] + post);
    EncodedAround(pre, Opt(10, data), post);
    assert CookieBehind(Encode(all), pre, expected + server, Encode(post));
    assert EchoesCookie(Encode(all), expected, server);
    Reassociate(Encode(pre), EncodeOne(Opt(10, data)), Encode(post), tail);
    CutIsExplained(packet, expected, all, tail, |packet| - |tail|);
  }

  /** Behind an accepted cookie the bytes are whole options, or cut short. */
  lemma AcceptedIsExplained(packet: seq<Byte>, expected: seq<Byte>, pre: seq<Opt>, data: seq<Byte>, server: seq<Byte>, next: nat)
    requires |expected| == 8 && next <= |packet| && CookieBehind(packet, pre, data, packet[next..]) && Echoes(data, expected, server)
    ensures Explains(Scan(packet, expected, 0, None), packet, expected)
  {
    var post, tail := Split(packet, next, false);
    if tail == [] {
      assert Encode(post) + [] == Encode(post);
      assert CookieBehind(packet, pre, expected + server, Encode(post));
      EchoIsFound(packet, expected, server);
    } else {
      EchoThenCutIsExplained(packet, expected, pre, data, server, post, tail);
    }
  }

  lemma CookieIsExplained(packet: seq<Byte>, expected: seq<Byte>, pre: seq<Opt>, data: seq<Byte>, next: nat)
    requires |expected| == 8 && next <= |packet| && CookieBehind(packet, pre, data, packet[next..])
    ensures Explains(Scan(packet, expected, 0, None), packet, expected)
  {
    CheckedMeans(data, expected, Checked(data, expected));
    match Checked(data, expected)
    case Ok(server) => AcceptedIsExplained(packet, expected, pre, data, server, next);
    case Err(e) =>
      assert FirstCookieIs(packet, data);
      assert RefusesCookie(packet, expected, e);
      RefusalIsReported(packet, expected, e);
  }

  lemma AnswerIsExplained(packet: seq<Byte>, expected: seq<Byte>)
    requires |expected| == 8
    ensures Explains(Scan(packet, expected, 0, None), packet, expected)
  {
    StartsAtZero(packet);
    var pre, tail := Split(packet, 0, true);
    var at := |packet| - |tail|;
    if tail == [] {
      assert Encode(pre) + [] == Encode(pre);
      LackingIsNone(packet, expected);
    } else if TakeOpt(packet, at).Err? {
      CutIsExplained(packet, expected, pre, tail, at);
    } else {
      TakenBytes(packet, at);
      var data := TakeOpt(packet, at).value.data;
      CookieIsExplained(packet, expected, pre, data, at + 4 + |data|);
    }
  }

  /**
    Which bytes lead to which answer: more than 65535 to a refusal, no cookie to whole options without
    one, a cookie to whole options the first cookie of which echoes the client, and any other error to a
    first cookie that does not, or to an end too soon with nothing refused before it.
  */
  lemma AnswersExactly(options: seq<Byte>, expected: seq<Byte>, r: Result<Option<seq<Byte>>, Error>)
    requires |expected| == 8
    ensures |options| > 65535 ==> Understood(options, expected) == Err(Length(|options|))
    ensures |options| <= 65535 ==> (Understood(options, expected) == r <==> Explains(r, options, expected))
  {
    AnswerIsExplained(options, expected);
    if Explains(r, options, expected) { ExplainedIsAnswer(options, expected, r); }
  }

  lemma ExplainedIsAnswer(packet: seq<Byte>, expected: seq<Byte>, r: Result<Option<seq<Byte>>, Error>)
    requires |expected| == 8 && Explains(r, packet, expected)
    ensures Scan(packet, expected, 0, None) == r
  {
    match r
    case Ok(None) => LackingIsNone(packet, expected);
    case Ok(Some(server)) => EchoIsFound(packet, expected, server);
    case Err(e) =>
      if RefusesCookie(packet, expected, e) {
        RefusalIsReported(packet, expected, e);
      } else {
        TooSoonIsReported(packet, expected, e);
      }
  }
}
