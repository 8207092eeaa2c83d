/**
  Query messages: the pass that turns a dotted name into length-prefixed labels in place, and
  the frames built around it for datagrams and for streams.
*/
module QueryFrame {
  import opened Outcomes
  import opened MachineWords
  import opened HostName
  import Cookies = CookieOptions

  const HEADER: nat := 12
  const QUESTION_TRAILER: nat := 4
  const OPT_RECORD: nat := 11
  const OPTION_HEADER: nat := 4
  const MAX_COOKIE_OPTION: nat := OPTION_HEADER + Cookies.CLIENT_BYTES + Cookies.MAX_SERVER
  const QUERY_OVERHEAD: nat := HEADER + QUESTION_TRAILER + OPT_RECORD + MAX_COOKIE_OPTION
  const MAX_QUERY: nat := QUERY_OVERHEAD + MAX_NAME + 2
  const STREAM_PREFIX: nat := 2
  const MAX_STREAM_FRAME: nat := STREAM_PREFIX + MAX_QUERY - MAX_COOKIE_OPTION

  const EDNS_PAYLOAD: U16 := 1232
  const CLASS_IN: U16 := 1
  const KIND_OPT: U16 := 41

  datatype Family = V4 | V6 {
    function Kind(): U16 { if V4? then 1 else 28 }
  }

  // ----- The message format of section 4.1 of RFC 1035 and section 6.1.2 of RFC 6891 -----

  predicate Short(labels: seq<Label>) {
    forall i | 0 <= i < |labels| :: |labels[i]| <= MAX_LABEL
  }

  predicate NonEmpty(labels: seq<Label>) {
    forall i | 0 <= i < |labels| :: labels[i] != []
  }

  /** Labels with their lengths in front, without the root label that ends a name. */
  function Prefixed(labels: seq<Label>): seq<Byte>
    requires Short(labels)
  {
    if labels == [] then [] else
      [|labels[0]|] + (labels[0] + Prefixed(labels[1..]))
  }

  /** A query asks one question, recursively, and carries one additional record. */
  datatype Query = Query(id: U16, labels: seq<Label>, kind: U16, payload: U16, options: seq<Byte>)

  function Head(id: U16): (s: seq<Byte>)
    ensures |s| == HEADER
  {
    Big16(id) + Big16(0x0100) + Big16(1) + Big16(0) + Big16(0) + Big16(1)
  }

  function Additional(payload: U16, options: seq<Byte>): (s: seq<Byte>)
    requires |options| < 0x1_0000
    ensures |s| == OPT_RECORD + |options|
  {
    [0] + Big16(KIND_OPT) + Big16(payload) + [0, 0, 0, 0] + Big16(|options|) + options
  }

  function Message(q: Query): seq<Byte>
    requires Short(q.labels) && |q.options| < 0x1_0000
  {
    Head(q.id) + (Prefixed(q.labels) + [0] + (Big16(q.kind) + Big16(CLASS_IN) + Additional(q.payload, q.options)))
  }

  /**
    The bytes in front of the name and behind it: one question and one additional record, recursion
    desired, the class of the Internet, and an option record that offers `payload` bytes.
  */
  lemma FixedBytes(id: U16, kind: U16, payload: U16, options: seq<Byte>)
    requires |options| < 0x1_0000
    ensures Head(id) == [id / 256, id % 256, 1, 0, 0, 1, 0, 0, 0, 0, 0, 1]
    ensures Big16(kind) + Big16(CLASS_IN) == [kind / 256, kind % 256, 0, 1]
    ensures Additional(payload, options)
         == [0, 0, 41, payload / 256, payload % 256, 0, 0, 0, 0, |options| / 256, |options| % 256] + options
  {
  }

  /** Reads labels up to the root label; the bytes after it are returned too. */
  function ReadLabels(s: seq<Byte>): Option<(seq<Label>, seq<Byte>)> {
    if s == [] || s[0] > MAX_LABEL || |s| < 1 + s[0] then None
    else if s[0] == 0 then Some(([], s[1..]))
    else
      match ReadLabels(s[1 + s[0]..])
      case None => None
      case Some((labels, rest)) => Some(([s[1..1 + s[0]]] + labels, rest))
  }

  /** A receiver's view: every count, type and length in the message is checked against the bytes. */
  function ReadMessage(s: seq<Byte>): Option<Query> {
    if |s| < HEADER || s[2..HEADER] != Big16(0x0100) + Big16(1) + Big16(0) + Big16(0) + Big16(1) then None else
    match ReadLabels(s[HEADER..])
    case None => None
    case Some((labels, rest)) =>
      if |rest| < QUESTION_TRAILER + OPT_RECORD || rest[2..4] != Big16(CLASS_IN) then None else
      var record := rest[QUESTION_TRAILER..];
      if record[0] != 0 || record[1..3] != Big16(KIND_OPT) || record[5..9] != [0, 0, 0, 0]
        || |record| != OPT_RECORD + Read16(record, 9)
      then None
      else Some(Query(Read16(s, 0), labels, Read16(rest, 0), Read16(record, 3), record[OPT_RECORD..]))
  }

  lemma ReadOneLabel(l: Label, tail: seq<Byte>)
    requires 1 <= |l| <= MAX_LABEL
    ensures ReadLabels([|l|] + (l + tail))
         == match ReadLabels(tail) case None => None case Some((labels, rest)) => Some(([l] + labels, rest))
  {
    var s := [|l|] + (l + tail);
    assert s[1..1 + s[0]] == l && s[1 + s[0]..] == tail;
  }

  lemma {:induction false} LabelsRoundTrip(labels: seq<Label>, rest: seq<Byte>)
    requires Short(labels) && NonEmpty(labels)
    ensures ReadLabels(Prefixed(labels) + [0] + rest) == Some((labels, rest))
  {
    if labels == [] {
      assert Prefixed(labels) + [0] + rest == [0] + rest && ([0] + rest)[1..] == rest;
    } else {
      var l, tail := labels[0], Prefixed(labels[1..]) + [0] + rest;
      assert Prefixed(labels) + [0] + rest == [|l|] + (l + tail);
      LabelsRoundTrip(labels[1..], rest);
      ReadOneLabel(l, tail);
      assert [l] + labels[1..] == labels;
    }
  }

  lemma BigRoundTrip(a: seq<Byte>, x: U16, b: seq<Byte>, s: seq<Byte>)
    requires s == a + Big16(x) + b
    ensures Read16(s, |a|) == x
  {
    ReadWritten(a, x, b);
  }

  lemma AdditionalFields(payload: U16, options: seq<Byte>)
    requires |options| < 0x1_0000
    ensures var r := Additional(payload, options);
            && r[0] == 0 && r[1..3] == Big16(KIND_OPT) && r[5..9] == [0, 0, 0, 0] && r[OPT_RECORD..] == options
            && Read16(r, 3) == payload && Read16(r, 9) == |options|
  {
    var r := Additional(payload, options);
    BigRoundTrip([0] + Big16(KIND_OPT), payload, [0, 0, 0, 0] + Big16(|options|) + options, r);
    BigRoundTrip([0] + Big16(KIND_OPT) + Big16(payload) + [0, 0, 0, 0], |options|, options, r);
  }

  /** Whatever is sent, a receiver reads back the same question and the same options. */
  lemma MessageRoundTrip(q: Query)
    requires Short(q.labels) && NonEmpty(q.labels) && |q.options| < 0x1_0000
    ensures ReadMessage(Message(q)) == Some(q)
  {
    var s, record := Message(q), Additional(q.payload, q.options);
    var rest := Big16(q.kind) + Big16(CLASS_IN) + record;
    assert s[HEADER..] == Prefixed(q.labels) + [0] + rest;
    LabelsRoundTrip(q.labels, rest);
    assert s[2..HEADER] == Head(q.id)[2..];
    assert rest[2..4] == Big16(CLASS_IN) && rest[QUESTION_TRAILER..] == record;
    AdditionalFields(q.payload, q.options);
    assert Head(q.id) == [] + Big16(q.id) + Head(q.id)[2..];
    assert s == [] + Big16(q.id) + s[2..];
    BigRoundTrip([], q.id, s[2..], s);
    BigRoundTrip([], q.kind, Big16(CLASS_IN) + record, rest);
  }

  // ----- The backwards pass -----

  /** One more byte on the left: a dot opens an empty label, any other byte lengthens the first one. */
  lemma SplitGrows(s: seq<Byte>, i: nat)
    requires i < |s|
    ensures Split(s[i..]) == if s[i] == DOT then [[]] + Split(s[i + 1..])
                             else [[s[i]] + Split(s[i + 1..])[0]] + Split(s[i + 1..])[1..]
  {
    assert s[i..][1..] == s[i + 1..];
  }

  lemma GrownWasShort(b: Byte, rest: seq<Label>, longer: seq<Label>)
    requires rest != [] && Short(longer)
    requires longer == if b == DOT then [[]] + rest else [[b] + rest[0]] + rest[1..]
    ensures Short(rest)
  {
    forall k | 0 <= k < |rest| ensures |rest[k]| <= MAX_LABEL {
      if b == DOT {
        assert longer[k + 1] == rest[k];
      } else {
        assert longer[k] == if k == 0 then [b] + rest[0] else rest[k];
      }
    }
  }

  lemma {:induction false} SuffixIsShort(s: seq<Byte>, i: nat)
    requires i <= |s| && Short(Split(s))
    ensures Short(Split(s[i..]))
  {
    if i == 0 {
      assert s[0..] == s;
    } else {
      SuffixIsShort(s, i - 1);
      SplitGrows(s, i - 1);
      GrownWasShort(s[i - 1], Split(s[i..]), Split(s[i - 1..]));
    }
  }

  lemma PrefixedFirst(labels: seq<Label>)
    requires Short(labels) && labels != []
    ensures Prefixed(labels) == [|labels[0]|] + (labels[0] + Prefixed(labels[1..]))
  {
  }

  lemma PrefixedDot(rest: seq<Label>)
    requires Short(rest)
    ensures Prefixed([[]] + rest) == [0] + Prefixed(rest)
  {
    assert ([[]] + rest)[1..] == rest && [] + Prefixed(rest) == Prefixed(rest);
  }

  lemma SameRest(a: Byte, x: seq<Byte>, y: seq<Byte>)
    requires [a] + x == [a] + y
    ensures x == y
  {
    assert ([a] + x)[1..] == x && ([a] + y)[1..] == y;
  }

  lemma PrefixedByte(b: Byte, l: Label, others: seq<Label>)
    requires Short(others) && |l| < MAX_LABEL
    ensures Short([l] + others) && Prefixed([l] + others) == [|l|] + (l + Prefixed(others))
    ensures Short([[b] + l] + others) && Prefixed([[b] + l] + others) == [|l| + 1] + ([b] + (l + Prefixed(others)))
  {
    assert ([l] + others)[1..] == others && ([[b] + l] + others)[1..] == others;
    assert ([b] + l) + Prefixed(others) == [b] + (l + Prefixed(others));
  }

  /** The one-byte counter of the pass when it has come down to `i`, and the bytes it leaves from there on. */
  function Counted(text: seq<Byte>, i: nat): (r: (Byte, seq<Byte>))
    requires i <= |text|
    ensures |r.1| == |text| - i
    decreases |text| - i
  {
    if i == |text| then (0, []) else
    var (count, done) := Counted(text, i + 1);
    if text[i] == DOT then (0, [count] + done) else ((count + 1) % 256, [text[i]] + done)
  }

  lemma LongerFirst(b: Byte, rest: seq<Label>, done: seq<Byte>)
    requires Short(rest) && rest != [] && |rest[0]| < MAX_LABEL && Prefixed(rest) == [|rest[0]|] + done
    ensures var longer := [[b] + rest[0]] + rest[1..];
            Short(longer) && Prefixed(longer) == [|rest[0]| + 1] + ([b] + done)
  {
    var l, others := rest[0], rest[1..];
    assert rest == [l] + others;
    PrefixedByte(b, l, others);
    SameRest(|l|, l + Prefixed(others), done);
  }

  /** One more byte passed: a dot takes the counter and clears it, any other byte counts. */
  lemma CountedOne(text: seq<Byte>, i: nat)
    requires i < |text| && Short(Split(text[i..])) && Short(Split(text[i + 1..]))
    requires var (count, done) := Counted(text, i + 1);
             count == |Split(text[i + 1..])[0]| && Prefixed(Split(text[i + 1..])) == [count] + done
    ensures var (count, done) := Counted(text, i);
            count == |Split(text[i..])[0]| && Prefixed(Split(text[i..])) == [count] + done
  {
    var rest := Split(text[i + 1..]);
    SplitGrows(text, i);
    if text[i] == DOT {
      PrefixedDot(rest);
    } else {
      assert |Split(text[i..])[0]| == |rest[0]| + 1 <= MAX_LABEL;
      LongerFirst(text[i], rest, Counted(text, i + 1).1);
    }
  }

  /** With the counter in front, the pass has written the labels of the text from `i` on. */
  lemma {:induction false} CountedIsPrefixed(text: seq<Byte>, i: nat)
    requires i <= |text| && Short(Split(text))
    ensures Short(Split(text[i..]))
    ensures var (count, done) := Counted(text, i);
            count == |Split(text[i..])[0]| <= MAX_LABEL && Prefixed(Split(text[i..])) == [count] + done
    decreases |text| - i
  {
    SuffixIsShort(text, i);
    if i == |text| {
      assert text[i..] == [];
    } else {
      CountedIsPrefixed(text, i + 1);
      CountedOne(text, i);
    }
  }

  /** A buffer while the pass over `n` bytes behind `first` has come down to its byte `i`. */
  function Laid(was: seq<Byte>, first: nat, n: nat, i: nat): (s: seq<Byte>)
    requires first + 1 + n <= |was| && i <= n
    ensures |s| == |was|
  {
    was[..first + 1 + i] + Counted(was[first + 1..first + 1 + n], i).1 + was[first + 1 + n..]
  }

  lemma LaidOneMore(was: seq<Byte>, first: nat, n: nat, i: nat)
    requires first + 1 + n <= |was| && i < n
    ensures var text, at := was[first + 1..first + 1 + n], first + 1 + i;
            && Laid(was, first, n, i + 1)[at] == text[i]
            && Laid(was, first, n, i)
            == if text[i] == DOT then Laid(was, first, n, i + 1)[at := Counted(text, i + 1).0] else Laid(was, first, n, i + 1)
  {
    var text, at := was[first + 1..first + 1 + n], first + 1 + i;
    var front, done, back := was[..at], Counted(text, i + 1).1, was[first + 1 + n..];
    assert was[..at + 1] == front + [was[at]] && was[at] == text[i];
    assert Laid(was, first, n, i + 1) == front + [text[i]] + (done + back);
    assert Laid(was, first, n, i) == front + [if text[i] == DOT then Counted(text, i + 1).0 else text[i]] + (done + back);
  }

  /**
    Replaces, from the end, every dot of the `n` bytes after `first` by the length of the label
    behind it, and puts the length of the first label at `first`.
  */
  method CountBack(out: array<Byte>, first: nat, n: nat)
    requires first + 1 + n <= out.Length
    modifies out
    ensures out[..] == Laid(old(out[..]), first, n, 0)[first := Counted(old(out[..])[first + 1..first + 1 + n], 0).0]
  {
    ghost var was := out[..];
    ghost var text := was[first + 1..first + 1 + n];
    var count: Byte := 0;
    var i := n;
    assert Laid(was, first, n, n) == was;
    while i > 0
      invariant 0 <= i <= n && count == Counted(text, i).0
      invariant out[..] == Laid(was, first, n, i)
    {
      i := i - 1;
      LaidOneMore(was, first, n, i);
      var at := first + 1 + i;
      assert out[at] == out[..][at];
      if out[at] == DOT {
        out[at] := count;
        count := 0;
      } else {
        count := (count + 1) % 256;
      }
    }
    out[first] := count;
  }

  lemma LaidIsPrefixed(was: seq<Byte>, first: nat, n: nat)
    requires first + 1 + n <= |was| && Short(Split(was[first + 1..first + 1 + n]))
    ensures var text := was[first + 1..first + 1 + n];
            Laid(was, first, n, 0)[first := Counted(text, 0).0]
            == was[..first] + Prefixed(Split(text)) + was[first + 1 + n..]
  {
    var text := was[first + 1..first + 1 + n];
    CountedIsPrefixed(text, 0);
    assert text[0..] == text;
    var (count, done) := Counted(text, 0);
    assert Laid(was, first, n, 0) == was[..first] + [was[first]] + (done + was[first + 1 + n..]);
  }

  // ----- The frames -----

  method Put(out: array<Byte>, at: nat, bytes: seq<Byte>)
    requires at + |bytes| <= out.Length
    modifies out
    ensures out[..at] == old(out[..at])
    ensures out[at..at + |bytes|] == bytes
    ensures out[at + |bytes|..] == old(out[at + |bytes|..])
  {
    for i := 0 to |bytes|
      invariant out[..at] == old(out[..at])
      invariant out[at..at + i] == bytes[..i]
      invariant out[at + |bytes|..] == old(out[at + |bytes|..])
    {
      out[at + i] := bytes[i];
    }
  }

  /** Everything after the name and its root label, up to the option data. */
  function Trailer(kind: U16, options: seq<Byte>): seq<Byte>
    requires |options| < 0x1_0000
  {
    [0] + Big16(kind) + Big16(CLASS_IN) + [0] + Big16(KIND_OPT) + Big16(EDNS_PAYLOAD) + [0, 0, 0, 0] + Big16(|options|)
  }

  lemma MessageParts(q: Query)
    requires Short(q.labels) && |q.options| < 0x1_0000 && q.payload == EDNS_PAYLOAD
    ensures Message(q) == Head(q.id) + Prefixed(q.labels) + Trailer(q.kind, q.options) + q.options
  {
    var rest := Big16(q.kind) + Big16(CLASS_IN) + Additional(q.payload, q.options);
    assert [0] + rest == Trailer(q.kind, q.options) + q.options;
    assert Message(q) == Head(q.id) + (Prefixed(q.labels) + ([0] + rest));
  }

  lemma {:induction false} PrefixedLength(s: seq<Byte>)
    requires Short(Split(s))
    ensures |Prefixed(Split(s))| == |s| + 1
  {
    if s != [] {
      assert s[0..] == s;
      SuffixIsShort(s, 1);
      SplitGrows(s, 0);
      PrefixedLength(s[1..]);
      var rest := Split(s[1..]);
      if s[0] == DOT {
        PrefixedDot(rest);
      } else {
        PrefixedFirst(rest);
        PrefixedFirst(Split(s));
        assert Split(s)[1..] == rest[1..];
      }
    }
  }

  lemma NameLabels(name: seq<Byte>)
    requires IsName(name)
    ensures Short(Split(name)) && NonEmpty(Split(name))
  {
    forall i | 0 <= i < |Split(name)| ensures 1 <= |Split(name)[i]| <= MAX_LABEL {
      assert IsLabel(Split(name)[i]);
    }
  }

  /** The identifier, one question, one additional record, recursion desired, room for the first length. */
  method HeaderBytes(id: U16) returns (header: array<Byte>)
    ensures fresh(header) && header[..] == Head(id) + [0]
  {
    header := new Byte[HEADER + 1](_ => 0);
    header[0], header[1] := Big16(id)[0], Big16(id)[1];
    header[2] := 1;
    header[5] := 1;
    header[11] := 1;
    ghost var want := Head(id) + [0];
    forall k | 0 <= k < header.Length ensures header[k] == want[k] {
      assert Head(id)[..2] == Big16(id);
    }
    assert header[..] == want;
  }

  /** The fixed bytes after the name; the option length is left zero. */
  method TailBytes(size: nat, kind: U16) returns (tail: array<Byte>)
    requires size >= 16
    ensures fresh(tail) && tail.Length == size && tail[..16] == Trailer(kind, [])
  {
    tail := new Byte[size](_ => 0);
    var fixed := [0] + Big16(kind) + Big16(CLASS_IN) + [0] + Big16(KIND_OPT) + Big16(EDNS_PAYLOAD);
    tail[1], tail[2] := Big16(kind)[0], Big16(kind)[1];
    tail[3], tail[4] := Big16(CLASS_IN)[0], Big16(CLASS_IN)[1];
    tail[6], tail[7] := Big16(KIND_OPT)[0], Big16(KIND_OPT)[1];
    tail[8], tail[9] := Big16(EDNS_PAYLOAD)[0], Big16(EDNS_PAYLOAD)[1];
    assert fixed == tail[..10];
    TrailerParts(kind, tail[..16]);
  }

  lemma TrailerParts(kind: U16, s: seq<Byte>)
    requires |s| == 16 && s[10..] == [0, 0, 0, 0, 0, 0]
    requires s[..10] == [0] + Big16(kind) + Big16(CLASS_IN) + [0] + Big16(KIND_OPT) + Big16(EDNS_PAYLOAD)
    ensures s == Trailer(kind, [])
  {
    assert Trailer(kind, []) == s[..10] + [0, 0, 0, 0] + [0, 0];
    assert s == s[..10] + s[10..];
  }

  /** A client's cookie, followed by the server's when it is known. */
  function Cookie(client: seq<Byte>, server: Option<seq<Byte>>): seq<Byte> {
    client + (if server.Some? then server.value else [])
  }

  predicate CookieParts(client: seq<Byte>, server: Option<seq<Byte>>) {
    && |client| == Cookies.CLIENT_BYTES
    && (server.Some? ==> Cookies.MIN_SERVER <= |server.value| <= Cookies.MAX_SERVER)
  }

  function UdpQuery(id: U16, name: seq<Byte>, family: Family, client: seq<Byte>, server: Option<seq<Byte>>): (q: Query)
    requires IsName(name) && CookieParts(client, server)
    ensures Short(q.labels) && NonEmpty(q.labels) && |q.options| <= MAX_COOKIE_OPTION
  {
    NameLabels(name);
    Query(id, Split(name), family.Kind(), EDNS_PAYLOAD,
          Cookies.EncodeOne(Cookies.Opt(Cookies.COOKIE, Cookie(client, server))))
  }

  function TcpQuery(id: U16, name: seq<Byte>, family: Family): (q: Query)
    requires IsName(name)
    ensures Short(q.labels) && NonEmpty(q.labels) && q.options == []
  {
    NameLabels(name);
    Query(id, Split(name), family.Kind(), EDNS_PAYLOAD, [])
  }

  lemma Cut(s: seq<Byte>, from: nat, to: nat)
    requires from <= to <= |s|
    ensures s[..to] == s[..from] + s[from..to]
  {
  }

  method Append(out: array<Byte>, at: nat, bytes: seq<Byte>) returns (end: nat)
    requires at + |bytes| <= out.Length
    modifies out
    ensures end == at + |bytes| && out[..end] == old(out[..at]) + bytes
  {
    Put(out, at, bytes);
    end := at + |bytes|;
    Cut(out[..], at, end);
    assert out[..][..end] == out[..end] && out[..][at..end] == out[at..end];
  }

  lemma HeaderThenName(was: seq<Byte>, header: seq<Byte>, name: seq<Byte>)
    requires header != [] && |header| + |name| <= |was| && was[..|header| + |name|] == header + name
    ensures was[..|header| - 1] == header[..|header| - 1] && was[|header|..|header| + |name|] == name
  {
    var both := was[..|header| + |name|];
    assert both[..|header| - 1] == was[..|header| - 1] && both[|header|..] == was[|header|..|header| + |name|];
  }

  /** Lays down the header and the name, then turns the name into labels where it lies. */
  method Lay(out: array<Byte>, header: seq<Byte>, name: seq<Byte>) returns (end: nat)
    requires header != [] && |header| + |name| <= out.Length && IsName(name)
    modifies out
    ensures end == |header| + |name| && Short(Split(name))
    ensures out[..end] == header[..|header| - 1] + Prefixed(Split(name))
  {
    end := Append(out, 0, header);
    end := Append(out, end, name);
    ghost var was := out[..];
    NameLabels(name);
    assert was[..end] == header + name;
    HeaderThenName(was, header, name);
    CountBack(out, |header| - 1, |name|);
    LaidIsPrefixed(was, |header| - 1, |name|);
    PrefixedLength(name);
    assert out[..][..end] == out[..end];
  }

  /** Writes the parts of a frame one behind the other. */
  method Fill(out: array<Byte>, header: seq<Byte>, name: seq<Byte>, tail: seq<Byte>, server: seq<Byte>) returns (end: nat)
    requires header != [] && |header| + |name| + |tail| + |server| <= out.Length && IsName(name)
    modifies out
    ensures Short(Split(name)) && end <= out.Length
    ensures out[..end] == header[..|header| - 1] + Prefixed(Split(name)) + tail + server
  {
    end := Lay(out, header, name);
    end := Append(out, end, tail);
    end := Append(out, end, server);
  }

  method UdpTail(kind: U16, client: seq<Byte>, len: nat) returns (tail: array<Byte>)
    requires |client| == Cookies.CLIENT_BYTES <= len <= Cookies.CLIENT_BYTES + Cookies.MAX_SERVER
    ensures fresh(tail)
    ensures tail[..] == Trailer(kind, [])[..14] + Big16(OPTION_HEADER + len) + Big16(Cookies.COOKIE) + Big16(len) + client
  {
    tail := TailBytes(28, kind);
    ghost var fixed := Trailer(kind, [])[..14];
    assert tail[..14] == tail[..16][..14] == fixed;
    tail[14], tail[15] := Big16(OPTION_HEADER + len)[0], Big16(OPTION_HEADER + len)[1];
    tail[16], tail[17] := Big16(Cookies.COOKIE)[0], Big16(Cookies.COOKIE)[1];
    tail[18], tail[19] := Big16(len)[0], Big16(len)[1];
    ghost var lengths := Big16(OPTION_HEADER + len) + Big16(Cookies.COOKIE) + Big16(len);
    assert tail[..20] == fixed + lengths;
    Put(tail, 20, client);
    assert tail[..] == tail[..20] + tail[20..28];
  }

  lemma UdpParts(q: Query, client: seq<Byte>, known: seq<Byte>)
    requires Short(q.labels) && q.payload == EDNS_PAYLOAD && |client| == Cookies.CLIENT_BYTES && |known| <= Cookies.MAX_SERVER
    requires q.options == Cookies.EncodeOne(Cookies.Opt(Cookies.COOKIE, client + known))
    ensures var len := |client| + |known|;
            var tail := Trailer(q.kind, [])[..14] + Big16(OPTION_HEADER + len) + Big16(Cookies.COOKIE) + Big16(len) + client;
            Message(q) == (Head(q.id) + Prefixed(q.labels)) + tail + known
  {
    var len := |client| + |known|;
    var fixed := Trailer(q.kind, [])[..14];
    MessageParts(q);
    assert Trailer(q.kind, q.options) == fixed + Big16(OPTION_HEADER + len);
    assert q.options == Big16(Cookies.COOKIE) + Big16(len) + client + known;
  }

  method Udp(out: array<Byte>, id: U16, name: seq<Byte>, family: Family, client: seq<Byte>, server: Option<seq<Byte>>)
    returns (end: nat)
    requires out.Length == MAX_QUERY && IsName(name) && CookieParts(client, server)
    modifies out
    ensures end <= out.Length && out[..end] == Message(UdpQuery(id, name, family, client, server))
  {
    var known := if server.Some? then server.value else [];
    var header := HeaderBytes(id);
    var tail := UdpTail(family.Kind(), client, Cookies.CLIENT_BYTES + |known|);
    end := Fill(out, header[..], name, tail[..], known);
    UdpIsMessage(id, name, family, client, server, header[..], tail[..]);
  }

  lemma UdpIsMessage(id: U16, name: seq<Byte>, family: Family, client: seq<Byte>, server: Option<seq<Byte>>,
                     header: seq<Byte>, tail: seq<Byte>)
    requires IsName(name) && CookieParts(client, server) && header == Head(id) + [0]
    requires var len := Cookies.CLIENT_BYTES + if server.Some? then |server.value| else 0;
             tail == Trailer(family.Kind(), [])[..14] + Big16(OPTION_HEADER + len) + Big16(Cookies.COOKIE) + Big16(len) + client
    ensures Short(Split(name))
    ensures header[..|header| - 1] + Prefixed(Split(name)) + tail + (if server.Some? then server.value else [])
         == Message(UdpQuery(id, name, family, client, server))
  {
    var known := if server.Some? then server.value else [];
    UdpFrame(UdpQuery(id, name, family, client, server), client, known, header, tail);
  }

  lemma UdpFrame(q: Query, client: seq<Byte>, known: seq<Byte>, header: seq<Byte>, tail: seq<Byte>)
    requires Short(q.labels) && q.payload == EDNS_PAYLOAD && |client| == Cookies.CLIENT_BYTES && |known| <= Cookies.MAX_SERVER
    requires q.options == Cookies.EncodeOne(Cookies.Opt(Cookies.COOKIE, client + known)) && header == Head(q.id) + [0]
    requires var len := |client| + |known|;
             tail == Trailer(q.kind, [])[..14] + Big16(OPTION_HEADER + len) + Big16(Cookies.COOKIE) + Big16(len) + client
    ensures header[..|header| - 1] + Prefixed(q.labels) + tail + known == Message(q)
  {
    UdpParts(q, client, known);
    WithoutLast(Head(q.id), header);
  }

  lemma WithoutLast(head: seq<Byte>, header: seq<Byte>)
    requires header == head + [0]
    ensures header[..|header| - 1] == head
  {
  }

  /** A stream frame: the length of the message, then the message. */
  method Tcp(id: U16, name: seq<Byte>, family: Family) returns (out: array<Byte>, end: nat)
    requires IsName(name)
    ensures fresh(out) && end <= out.Length == MAX_STREAM_FRAME
    ensures var message := Message(TcpQuery(id, name, family));
            |message| < 0x1_0000 && out[..end] == Big16(|message|) + message
  {
    out := new Byte[MAX_STREAM_FRAME](_ => 0);
    var len := QUERY_OVERHEAD - MAX_COOKIE_OPTION + (|name| + 2);
    var rest := HeaderBytes(id);
    var tail := TailBytes(16, family.Kind());
    var header := Big16(len) + rest[..];
    assert tail[..] == tail[..16];
    end := Fill(out, header, name, tail[..], []);
    TcpParts(id, name, family, header, tail[..]);
  }

  lemma TcpParts(id: U16, name: seq<Byte>, family: Family, header: seq<Byte>, tail: seq<Byte>)
    requires IsName(name)
    requires header == Big16(QUERY_OVERHEAD - MAX_COOKIE_OPTION + (|name| + 2)) + (Head(id) + [0])
    requires tail == Trailer(family.Kind(), [])
    ensures var message := Message(TcpQuery(id, name, family));
            && Short(Split(name)) && |message| == QUERY_OVERHEAD - MAX_COOKIE_OPTION + |name| + 2
            && header[..|header| - 1] + Prefixed(Split(name)) + tail + [] == Big16(|message|) + message
  {
    var q := TcpQuery(id, name, family);
    MessageParts(q);
    PrefixedLength(name);
    Regroup(Big16(|Message(q)|), Head(id), Prefixed(q.labels), tail);
  }

  lemma Regroup(length: seq<Byte>, head: seq<Byte>, name: seq<Byte>, tail: seq<Byte>)
    ensures var header := length + (head + [0]);
            header[..|header| - 1] + name + tail + [] == length + (head + name + tail + [])
  {
    var header := length + (head + [0]);
    assert header[..|header| - 1] == length + head;
  }

  // ----- What a receiver makes of them -----

  /** A server reads the question that was asked; one that echoes the option is understood again. */
  lemma UdpIsUnderstood(id: U16, name: seq<Byte>, family: Family, client: seq<Byte>, server: Option<seq<Byte>>)
    requires IsName(name) && CookieParts(client, server)
    ensures var q := UdpQuery(id, name, family, client, server);
            && ReadMessage(Message(q)) == Some(q)
            && q.id == id && Join(q.labels) == name
            && q.kind == (match family case V4 => 1 case V6 => 28) && q.payload == 1232
            && q.options == Cookies.EncodeOne(Cookies.Opt(10, client + if server.Some? then server.value else []))
            && |Message(q)| <= MAX_QUERY <= 512
            && (server.Some? ==> Cookies.Scan(q.options, client, 0, None) == Ok(server))
            && (server.None? ==> Cookies.Scan(q.options, client, 0, None) == Err(Cookies.ServerLength(0)))
  {
    var q := UdpQuery(id, name, family, client, server);
    MessageRoundTrip(q);
    JoinAfterSplit(name);
    MessageParts(q);
    PrefixedLength(name);
    var opt := Cookies.Opt(Cookies.COOKIE, Cookie(client, server));
    assert Cookies.Encode([opt]) == Cookies.EncodeOne(opt) + Cookies.Encode([opt][1..]) == q.options;
    Cookies.WellFormedOptions([opt], client);
    assert Cookie(client, server)[..Cookies.CLIENT_BYTES] == client;
    assert Cookie(client, server)[Cookies.CLIENT_BYTES..] == if server.Some? then server.value else [];
  }

  lemma TcpIsUnderstood(id: U16, name: seq<Byte>, family: Family)
    requires IsName(name)
    ensures var q := TcpQuery(id, name, family);
            && ReadMessage(Message(q)) == Some(q)
            && q.id == id && Join(q.labels) == name
            && q.kind == (match family case V4 => 1 case V6 => 28) && q.payload == 1232 && q.options == []
            && |Message(q)| == HEADER + QUESTION_TRAILER + OPT_RECORD + |name| + 2
  {
    var q := TcpQuery(id, name, family);
    MessageRoundTrip(q);
    JoinAfterSplit(name);
    MessageParts(q);
    PrefixedLength(name);
  }
}
