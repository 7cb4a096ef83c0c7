/** The encrypted node channel: chunked, length-framed, sequence-numbered records over a byte stream. */
module Channel {
  import opened Types

  newtype Byte = b: int | 0 <= b < 256

  const MAX_RECORD := 4 * 1024 * 1024
  const OVERHEAD := 16
  const HEADER := 4
  const CHUNK := MAX_RECORD - OVERHEAD
  const WORD := 0x1_0000_0000_0000_0000

  // ---- Byte strings ----

  lemma Associative<T>(a: seq<T>, b: seq<T>, c: seq<T>)
    ensures (a + b) + c == a + (b + c)
  {
  }

  lemma Regroup<T>(a: seq<T>, b: seq<T>, ab: seq<T>, c: seq<T>, bc: seq<T>)
    requires ab == a + b && bc == b + c
    ensures a + bc == ab + c
  {
  }

  // ---- Big-endian numbers ----

  function Power(k: nat): nat { if k == 0 then 1 else 256 * Power(k - 1) }

  function BigEndian(n: nat, width: nat): (r: seq<Byte>)
    ensures |r| == width
  {
    if width == 0 then [] else BigEndian(n / 256, width - 1) + [(n % 256) as Byte]
  }

  function Value(b: seq<Byte>): nat {
    if b == [] then 0 else 256 * Value(b[..|b| - 1]) + b[|b| - 1] as nat
  }

  lemma {:induction false} BigEndianRoundTrip(n: nat, width: nat)
    requires n < Power(width)
    ensures Value(BigEndian(n, width)) == n
  {
    if width > 0 {
      BigEndianRoundTrip(n / 256, width - 1);
      var b := BigEndian(n, width);
      assert b[..width - 1] == BigEndian(n / 256, width - 1);
    }
  }

  lemma WordPowers()
    ensures Power(4) == 0x1_0000_0000 && Power(8) == WORD
  {
    assert Power(2) == 65536;
    assert Power(4) == 256 * 256 * Power(2);
    assert Power(6) == 256 * 256 * Power(4);
    assert Power(8) == 256 * 256 * Power(6);
  }

  // ---- Nonces ----

  /** Four zero bytes, then the 64-bit sequence number. */
  function NonceFor(sequence: nat): seq<Byte> { [0, 0, 0, 0] + BigEndian(sequence, 8) }

  /** The nonce of a session's k-th record, the counter being 64 bits wide. */
  function Nonce(k: nat): seq<Byte> { NonceFor(k % WORD) }

  lemma SequenceAdvances(k: nat)
    ensures (k % WORD + 1) % WORD == (k + 1) % WORD
  {
    var q, r := k / WORD, k % WORD;
    assert k + 1 == q * WORD + (r + 1);
    if r + 1 == WORD { assert k + 1 == (q + 1) * WORD; }
  }

  lemma NonceRepeats(i: nat, j: nat)
    ensures Nonce(i) == Nonce(j) <==> i % WORD == j % WORD
  {
    WordPowers();
    BigEndianRoundTrip(i % WORD, 8);
    BigEndianRoundTrip(j % WORD, 8);
    if Nonce(i) == Nonce(j) { assert BigEndian(i % WORD, 8) == Nonce(i)[4..] == Nonce(j)[4..] == BigEndian(j % WORD, 8); }
  }

  ghost predicate FreshNonces(records: nat) { forall i, j :: 0 <= i < j < records ==> Nonce(i) != Nonce(j) }

  /** No nonce repeats under one key exactly as long as the session has at most 2^64 records. */
  lemma NoncesAreFresh(records: nat)
    ensures FreshNonces(records) <==> records <= WORD
  {
    forall i, j | 0 <= i < j < records && records <= WORD ensures Nonce(i) != Nonce(j) { NonceRepeats(i, j); }
    if records > WORD {
      NonceRepeats(0, WORD);
      assert Nonce(0) == Nonce(WORD);
    }
  }

  // ---- Records ----

  /** An authenticated cipher under one key; section 2.8 of RFC 8439 supplies the real one. */
  datatype Aead = Aead(seal: (seq<Byte>, seq<Byte>) -> seq<Byte>, open: (seq<Byte>, seq<Byte>) -> Option<seq<Byte>>)

  ghost predicate Authentic(a: Aead) {
    forall n, p :: |a.seal(n, p)| == |p| + OVERHEAD && a.open(n, a.seal(n, p)) == Some(p)
  }

  /** The same cipher, addressed by record number. */
  datatype Cipher = Cipher(seal: (nat, seq<Byte>) -> seq<Byte>, open: (nat, seq<Byte>) -> Option<seq<Byte>>)

  function Numbered(a: Aead): Cipher {
    Cipher((k: nat, p: seq<Byte>) => a.seal(Nonce(k), p), (k: nat, c: seq<Byte>) => a.open(Nonce(k), c))
  }

  lemma NumberedAt(a: Aead, k: nat, text: seq<Byte>)
    ensures Numbered(a).seal(k, text) == a.seal(Nonce(k), text) && Numbered(a).open(k, text) == a.open(Nonce(k), text)
  {
  }

  ghost predicate Correct(c: Cipher) {
    forall k, p :: |c.seal(k, p)| == |p| + OVERHEAD && c.open(k, c.seal(k, p)) == Some(p)
  }

  lemma NumberedIsCorrect(a: Aead)
    requires Authentic(a)
    ensures Correct(Numbered(a))
  {
    forall k: nat, p: seq<Byte>
      ensures |Numbered(a).seal(k, p)| == |p| + OVERHEAD && Numbered(a).open(k, Numbered(a).seal(k, p)) == Some(p)
    {
      assert Numbered(a).seal(k, p) == a.seal(Nonce(k), p);
    }
  }

  function Frame(c: Cipher, k: nat, p: seq<Byte>): seq<Byte> {
    var sealed := c.seal(k, p);
    BigEndian(|sealed|, HEADER) + sealed
  }

  function Frames(c: Cipher, k: nat, records: seq<seq<Byte>>): seq<Byte>
    decreases |records|
  {
    if records == [] then [] else Frame(c, k, records[0]) + Frames(c, k + 1, records[1..])
  }

  function Flat(records: seq<seq<Byte>>): seq<Byte> {
    if records == [] then [] else records[0] + Flat(records[1..])
  }

  ghost predicate Sized(records: seq<seq<Byte>>) { forall r :: r in records ==> 0 < |r| <= CHUNK }

  lemma {:induction false} FlatSnoc(records: seq<seq<Byte>>, p: seq<Byte>)
    ensures Flat(records + [p]) == Flat(records) + p
  {
    if records == [] {
      assert [p][1..] == [] && [] + [p] == [p];
    } else {
      FlatSnoc(records[1..], p);
      assert (records + [p])[1..] == records[1..] + [p];
      Associative(records[0], Flat(records[1..]), p);
    }
  }

  lemma {:induction false} FramesSnoc(c: Cipher, k: nat, records: seq<seq<Byte>>, p: seq<Byte>)
    ensures Frames(c, k, records + [p]) == Frames(c, k, records) + Frame(c, k + |records|, p)
    decreases |records|
  {
    if records == [] {
      assert [p][1..] == [] && [] + [p] == [p];
    } else {
      FramesSnoc(c, k + 1, records[1..], p);
      assert (records + [p])[1..] == records[1..] + [p];
      Associative(Frame(c, k, records[0]), Frames(c, k + 1, records[1..]), Frame(c, k + |records|, p));
    }
  }

  // ---- Parsing ----

  datatype Parsed = Blocked | Refused | Record(plain: seq<Byte>, rest: seq<Byte>)

  /** The next record of a byte stream, as far as the stream has arrived. */
  function Parse(c: Cipher, k: nat, bytes: seq<Byte>): Parsed {
    if |bytes| < HEADER then Blocked
    else
      var length := Value(bytes[..HEADER]);
      if length == 0 || length > MAX_RECORD then Refused
      else if |bytes| < HEADER + length then Blocked
      else
        match c.open(k, bytes[HEADER..HEADER + length])
        case None => Refused
        case Some(p) => Record(p, bytes[HEADER + length..])
  }

  lemma FrameLength(c: Cipher, k: nat, p: seq<Byte>)
    requires Correct(c) && |p| <= CHUNK
    ensures var f := Frame(c, k, p); |f| == HEADER + |p| + OVERHEAD && Value(f[..HEADER]) == |p| + OVERHEAD
  {
    WordPowers();
    BigEndianRoundTrip(|p| + OVERHEAD, HEADER);
    assert Frame(c, k, p)[..HEADER] == BigEndian(|p| + OVERHEAD, HEADER);
  }

  /** What a write frames, a read accepts: never over the limit, never unauthentic. */
  lemma FrameParses(c: Cipher, k: nat, p: seq<Byte>, rest: seq<Byte>)
    requires Correct(c) && 0 < |p| <= CHUNK
    ensures Parse(c, k, Frame(c, k, p) + rest) == Record(p, rest)
  {
    var f := Frame(c, k, p);
    FrameLength(c, k, p);
    assert (f + rest)[..HEADER] == f[..HEADER];
    assert (f + rest)[HEADER..|f|] == c.seal(k, p);
    assert (f + rest)[|f|..] == rest;
  }

  lemma PartialFrameBlocks(c: Cipher, k: nat, p: seq<Byte>, n: nat)
    requires Correct(c) && 0 < |p| <= CHUNK && n < |Frame(c, k, p)|
    ensures Parse(c, k, Frame(c, k, p)[..n]) == Blocked
  {
    var f := Frame(c, k, p);
    FrameLength(c, k, p);
    if n >= HEADER { assert f[..n][..HEADER] == f[..HEADER]; }
  }

  // ---- Writing ----

  /** The sending half: the wire, how many records were sealed, the plaintext of the whole frames sent. */
  datatype Outgoing = Outgoing(wire: seq<Byte>, sealed: nat, sent: seq<Byte>, broken: bool)

  function Sends(c: Cipher, o: Outgoing, chunk: seq<Byte>): Outgoing {
    o.(wire := o.wire + Frame(c, o.sealed, chunk), sealed := o.sealed + 1, sent := o.sent + chunk)
  }

  /** The transport takes only the first bytes of a frame and fails. */
  function Breaks(c: Cipher, o: Outgoing, chunk: seq<Byte>, room: nat): Outgoing
    requires room < |Frame(c, o.sealed, chunk)|
  {
    o.(wire := o.wire + Frame(c, o.sealed, chunk)[..room], sealed := o.sealed + 1, broken := true)
  }

  function FirstChunk(p: seq<Byte>): (r: seq<Byte>)
    requires p != []
    ensures 0 < |r| <= CHUNK && |r| <= |p| && p == r + p[|r|..]
  {
    if |p| > CHUNK then p[..CHUNK] else p
  }

  /** A write of the plaintext to a transport with room for so many more bytes. */
  function WriteAll(c: Cipher, o: Outgoing, p: seq<Byte>, room: nat): Outgoing
    decreases |p|
  {
    if p == [] then o
    else
      var chunk := FirstChunk(p);
      var size := |Frame(c, o.sealed, chunk)|;
      if room < size then Breaks(c, o, chunk, room) else WriteAll(c, Sends(c, o, chunk), p[|chunk|..], room - size)
  }

  /** The bytes a write of n bytes puts on the wire. */
  function WireSize(n: nat): nat {
    if n == 0 then 0 else var chunk := Min(n, CHUNK); HEADER + chunk + OVERHEAD + WireSize(n - chunk)
  }

  /** A write sends a prefix of its plaintext, and all of it exactly when the transport has the room. */
  lemma {:induction false} WriteSendsAll(c: Cipher, o: Outgoing, p: seq<Byte>, room: nat)
    requires Correct(c) && !o.broken
    ensures var after := WriteAll(c, o, p, room);
            && (after.broken <==> room < WireSize(|p|))
            && o.sent <= after.sent <= o.sent + p && (!after.broken ==> after.sent == o.sent + p)
    decreases |p|
  {
    if p != [] {
      var chunk := FirstChunk(p);
      FrameLength(c, o.sealed, chunk);
      var rest, size := p[|chunk|..], |Frame(c, o.sealed, chunk)|;
      if room >= size {
        WriteSendsAll(c, Sends(c, o, chunk), rest, room - size);
        assert |rest| == |p| - Min(|p|, CHUNK);
        Regroup(o.sent, chunk, o.sent + chunk, rest, p);
      }
    }
  }

  // ---- The connection ----

  class Transport {
    var bytes: seq<Byte>
    constructor ()
      ensures bytes == []
    { bytes := []; }
  }

  datatype Delivery = Waiting | Failed | Got(n: nat)

  class SecureConn {
    const out: Transport
    const source: Transport
    const send: Aead
    const recv: Aead
    var sendSeq: nat
    var recvSeq: nat
    var pending: seq<Byte>
    ghost var sealed: nat
    ghost var unsealed: nat
    ghost var sent: seq<Byte>
    ghost var broken: bool

    ghost predicate Valid()
      reads this
    {
      sendSeq == sealed % WORD && recvSeq == unsealed % WORD
    }

    constructor (out: Transport, source: Transport, send: Aead, recv: Aead)
      ensures Valid() && this.out == out && this.source == source && this.send == send && this.recv == recv
      ensures pending == [] && sealed == 0 && unsealed == 0 && sent == [] && !broken
    {
      this.out, this.source, this.send, this.recv := out, source, send, recv;
      sendSeq, recvSeq, pending, sealed, unsealed, sent, broken := 0, 0, [], 0, 0, [], false;
    }

    ghost function Sending(): Outgoing
      reads this, out
    {
      Outgoing(out.bytes, sealed, sent, broken)
    }

    /** Seals one chunk under the next nonce and puts on the wire as much of its frame as there is room for. */
    method WriteRecord(chunk: seq<Byte>, room: nat) returns (size: nat)
      requires Valid()
      modifies this`sendSeq, this`sealed, this`sent, this`broken, out
      ensures Valid() && size == |Frame(Numbered(send), old(sealed), chunk)|
      ensures Sending() == if room < size then Breaks(Numbered(send), old(Sending()), chunk, room)
                           else Sends(Numbered(send), old(Sending()), chunk)
    {
      var cipher := send.seal(NonceFor(sendSeq), chunk);
      NumberedAt(send, sealed, chunk);
      SequenceAdvances(sealed);
      sendSeq, sealed := (sendSeq + 1) % WORD, sealed + 1;
      var frame := BigEndian(|cipher|, HEADER) + cipher;
      size := |frame|;
      if room < size {
        out.bytes, broken := out.bytes + frame[..room], true;
      } else {
        out.bytes, sent := out.bytes + frame, sent + chunk;
      }
    }

    method Write(plaintext: seq<Byte>, room: nat) returns (written: nat, ok: bool)
      requires Valid() && !broken
      modifies this`sendSeq, this`sealed, this`sent, this`broken, out
      ensures Valid() && Sending() == WriteAll(Numbered(send), old(Sending()), plaintext, room)
      ensures ok == !broken && |sent| == |old(sent)| + written
    {
      written, ok := 0, true;
      var rest := plaintext;
      var left: nat := room;
      while rest != []
        invariant Valid() && !broken && |sent| == |old(sent)| + written
        invariant WriteAll(Numbered(send), Sending(), rest, left) ==
                    WriteAll(Numbered(send), old(Sending()), plaintext, room)
        decreases |rest|
      {
        var chunk := if |rest| > CHUNK then rest[..CHUNK] else rest;
        var size := WriteRecord(chunk, left);
        if left < size { return written, false; }
        left := left - size;
        written := written + |chunk|;
        rest := rest[|chunk|..];
      }
    }

    /** Takes the next record off the wire, or leaves the wire alone while it is incomplete. */
    method ReadRecord() returns (r: Parsed)
      requires Valid()
      modifies this`recvSeq, this`unsealed, source
      ensures Valid() && r == Parse(Numbered(recv), old(unsealed), old(source.bytes))
      ensures r.Blocked? ==> source.bytes == old(source.bytes)
      ensures r.Record? ==> source.bytes == r.rest
      ensures unsealed == old(unsealed) + if r.Record? then 1 else 0
    {
      var bytes := source.bytes;
      if |bytes| < HEADER { return Blocked; }
      var length := Value(bytes[..HEADER]);
      if length == 0 || length > MAX_RECORD {
        source.bytes := bytes[HEADER..];
        return Refused;
      }
      if |bytes| < HEADER + length { return Blocked; }
      var cipher := bytes[HEADER..HEADER + length];
      source.bytes := bytes[HEADER + length..];
      var plaintext := recv.open(NonceFor(recvSeq), cipher);
      NumberedAt(recv, unsealed, cipher);
      if plaintext.None? { return Refused; }
      SequenceAdvances(unsealed);
      recvSeq, unsealed := (recvSeq + 1) % WORD, unsealed + 1;
      return Record(plaintext.value, source.bytes);
    }

    /** Hands over buffered plaintext, taking the next record off the wire first when there is none. */
    method Read(buffer: array<Byte>) returns (r: Delivery)
      requires Valid()
      modifies this`recvSeq, this`pending, this`unsealed, source, buffer
      ensures Valid()
      ensures var next := Parse(Numbered(recv), old(unsealed), old(source.bytes));
              if old(pending) != [] then
                source.bytes == old(source.bytes) && unsealed == old(unsealed) && r.Got? && Hands(old(pending), buffer, r.n)
              else
                match next
                case Blocked => r.Waiting? && source.bytes == old(source.bytes) && unsealed == old(unsealed) && pending == []
                case Refused => r.Failed? && unsealed == old(unsealed) && pending == []
                case Record(p, rest) =>
                  source.bytes == rest && unsealed == old(unsealed) + 1 && r.Got? && Hands(p, buffer, r.n)
      ensures r.Got? ==> buffer[r.n..] == old(buffer[..])[r.n..]
    {
      if pending == [] {
        var next := ReadRecord();
        if next.Blocked? { return Waiting; }
        if next.Refused? { return Failed; }
        pending := next.plain;
      }
      var n := if buffer.Length < |pending| then buffer.Length else |pending|;
      ghost var was := buffer[..];
      forall i | 0 <= i < n { buffer[i] := pending[i]; }
      assert buffer[..n] == pending[..n] && buffer[n..] == was[n..];
      pending := pending[n..];
      return Got(n);
    }

    /** As much of the plaintext as the buffer holds was copied, the rest is kept. */
    ghost predicate Hands(plain: seq<Byte>, buffer: array<Byte>, n: nat)
      reads this, buffer
    {
      n == Min(buffer.Length, |plain|) && buffer[..n] == plain[..n] && pending == plain[n..]
    }
  }

  // ---- One direction of a session ----

  /** Everything written and read so far, and the wire between. */
  datatype Link = Link(out: Outgoing, unsealed: nat, pending: seq<Byte>, delivered: seq<Byte>, failed: bool)

  const IDLE := Link(Outgoing([], 0, [], false), 0, [], [], false)

  /** A write, with the room the transport has; a read, with the size of its buffer. */
  datatype Step = Writes(plaintext: seq<Byte>, room: nat) | Reads(size: nat)

  /** A write that failed is the session's last. */
  function Next(c: Cipher, l: Link, step: Step): Link {
    match step
    case Writes(plaintext, room) =>
      if l.out.broken then l else l.(out := WriteAll(c, l.out, plaintext, room))
    case Reads(size) =>
      if l.pending != [] then Hand(l, size)
      else
        match Parse(c, l.unsealed, l.out.wire)
        case Blocked => l
        case Refused => l.(failed := true)
        case Record(p, rest) => Hand(Taken(l, p, rest), size)
  }

  function Taken(l: Link, p: seq<Byte>, rest: seq<Byte>): Link {
    l.(out := l.out.(wire := rest), pending := p, unsealed := l.unsealed + 1)
  }

  function Hand(l: Link, size: nat): Link {
    var n := Min(size, |l.pending|);
    l.(delivered := l.delivered + l.pending[..n], pending := l.pending[n..])
  }

  function Session(c: Cipher, steps: seq<Step>): Link {
    if steps == [] then IDLE else Next(c, Session(c, steps[..|steps| - 1]), steps[|steps| - 1])
  }

  /** The wire carries whole frames of the records in flight and, after a failed write, part of one more;
      what was sent before them is the text given. */
  ghost predicate OnWire(c: Cipher, k: nat, o: Outgoing, text: seq<Byte>,
                         records: seq<seq<Byte>>, part: seq<Byte>, cut: seq<Byte>)
  {
    && Sized(records)
    && o.wire == Frames(c, k, records) + part
    && o.sealed == k + |records| + (if o.broken then 1 else 0)
    && (if o.broken then Parting(c, k + |records|, part, cut) else part == [])
    && o.sent == text + Flat(records)
  }

  ghost predicate Parting(c: Cipher, k: nat, part: seq<Byte>, cut: seq<Byte>) {
    0 < |cut| <= CHUNK && |part| < |Frame(c, k, cut)| && part == Frame(c, k, cut)[..|part|]
  }

  ghost predicate Carries(c: Cipher, l: Link, records: seq<seq<Byte>>, part: seq<Byte>, cut: seq<Byte>) {
    OnWire(c, l.unsealed, l.out, l.delivered + l.pending, records, part, cut) && !l.failed
  }

  ghost predicate InOrder(c: Cipher, l: Link) { exists records, part, cut :: Carries(c, l, records, part, cut) }

  lemma SendKeepsOrder(c: Cipher, k: nat, o: Outgoing, text: seq<Byte>, records: seq<seq<Byte>>, chunk: seq<Byte>)
    requires !o.broken && OnWire(c, k, o, text, records, [], []) && 0 < |chunk| <= CHUNK
    ensures OnWire(c, k, Sends(c, o, chunk), text, records + [chunk], [], [])
  {
    assert o.wire == Frames(c, k, records);
    FramesSnoc(c, k, records, chunk);
    FlatSnoc(records, chunk);
    Associative(text, Flat(records), chunk);
  }

  lemma BreakKeepsOrder(c: Cipher, k: nat, o: Outgoing, text: seq<Byte>, records: seq<seq<Byte>>, chunk: seq<Byte>, room: nat)
    requires !o.broken && OnWire(c, k, o, text, records, [], []) && 0 < |chunk| <= CHUNK
    requires room < |Frame(c, o.sealed, chunk)|
    ensures OnWire(c, k, Breaks(c, o, chunk, room), text, records, Frame(c, o.sealed, chunk)[..room], chunk)
  {
    assert o.wire == Frames(c, k, records);
  }

  lemma {:induction false} WriteKeepsOrder(c: Cipher, k: nat, o: Outgoing, text: seq<Byte>, records: seq<seq<Byte>>,
                                           p: seq<Byte>, room: nat)
      returns (after: seq<seq<Byte>>, part: seq<Byte>, cut: seq<Byte>)
    requires !o.broken && OnWire(c, k, o, text, records, [], [])
    ensures OnWire(c, k, WriteAll(c, o, p, room), text, after, part, cut)
    decreases |p|
  {
    if p == [] {
      after, part, cut := records, [], [];
    } else {
      var chunk := FirstChunk(p);
      var frame := Frame(c, o.sealed, chunk);
      if room < |frame| {
        BreakKeepsOrder(c, k, o, text, records, chunk, room);
        after, part, cut := records, frame[..room], chunk;
      } else {
        SendKeepsOrder(c, k, o, text, records, chunk);
        after, part, cut :=
          WriteKeepsOrder(c, k, Sends(c, o, chunk), text, records + [chunk], p[|chunk|..], room - |frame|);
      }
    }
  }

  /** With nothing whole on the wire a read waits; otherwise it finds the first record. */
  lemma WireParses(c: Cipher, k: nat, o: Outgoing, text: seq<Byte>, records: seq<seq<Byte>>, part: seq<Byte>, cut: seq<Byte>)
    requires Correct(c) && OnWire(c, k, o, text, records, part, cut)
    ensures records == [] ==> Parse(c, k, o.wire) == Blocked
    ensures records != [] ==> Parse(c, k, o.wire) == Record(records[0], Frames(c, k + 1, records[1..]) + part)
  {
    if records == [] {
      if o.broken { PartialFrameBlocks(c, k, cut, |part|); }
      assert o.wire == part;
    } else {
      var f, later := Frame(c, k, records[0]), Frames(c, k + 1, records[1..]);
      Associative(f, later, part);
      assert records[0] in records;
      FrameParses(c, k, records[0], later + part);
    }
  }

  lemma HandKeepsOrder(c: Cipher, l: Link, size: nat, records: seq<seq<Byte>>, part: seq<Byte>, cut: seq<Byte>)
    requires Carries(c, l, records, part, cut)
    ensures Carries(c, Hand(l, size), records, part, cut)
  {
    var n := Min(size, |l.pending|);
    assert (l.delivered + l.pending[..n]) + l.pending[n..] == l.delivered + l.pending;
  }

  lemma SizedTail(records: seq<seq<Byte>>)
    requires Sized(records) && records != []
    ensures Sized(records[1..]) && 0 < |records[0]| <= CHUNK
  {
    assert records[0] in records;
    forall r | r in records[1..] ensures 0 < |r| <= CHUNK { assert r in records; }
  }

  lemma TakingKeepsOrder(c: Cipher, k: nat, o: Outgoing, text: seq<Byte>, records: seq<seq<Byte>>,
                         part: seq<Byte>, cut: seq<Byte>, rest: seq<Byte>)
    requires OnWire(c, k, o, text, records, part, cut) && records != []
    requires rest == Frames(c, k + 1, records[1..]) + part
    ensures OnWire(c, k + 1, o.(wire := rest), text + records[0], records[1..], part, cut)
  {
    SizedTail(records);
    Associative(text, records[0], Flat(records[1..]));
  }

  lemma FirstRecordTaken(c: Cipher, l: Link, records: seq<seq<Byte>>, part: seq<Byte>, cut: seq<Byte>)
    requires Carries(c, l, records, part, cut) && l.pending == [] && records != []
    ensures Carries(c, Taken(l, records[0], Frames(c, l.unsealed + 1, records[1..]) + part), records[1..], part, cut)
  {
    assert l.delivered + l.pending == l.delivered;
    TakingKeepsOrder(c, l.unsealed, l.out, l.delivered, records, part, cut, Frames(c, l.unsealed + 1, records[1..]) + part);
  }

  lemma FreshRead(c: Cipher, l: Link, size: nat, records: seq<seq<Byte>>, part: seq<Byte>, cut: seq<Byte>)
    requires Correct(c) && Carries(c, l, records, part, cut) && l.pending == []
    ensures Next(c, l, Reads(size)) ==
              if records == [] then l
              else Hand(Taken(l, records[0], Frames(c, l.unsealed + 1, records[1..]) + part), size)
  {
    WireParses(c, l.unsealed, l.out, l.delivered + l.pending, records, part, cut);
  }

  lemma ReadKeepsOrder(c: Cipher, l: Link, size: nat, records: seq<seq<Byte>>, part: seq<Byte>, cut: seq<Byte>)
    requires Correct(c) && Carries(c, l, records, part, cut)
    ensures InOrder(c, Next(c, l, Reads(size)))
  {
    if l.pending != [] {
      HandKeepsOrder(c, l, size, records, part, cut);
    } else {
      FreshRead(c, l, size, records, part, cut);
      if records != [] {
        FirstRecordTaken(c, l, records, part, cut);
        var taken := Taken(l, records[0], Frames(c, l.unsealed + 1, records[1..]) + part);
        HandKeepsOrder(c, taken, size, records[1..], part, cut);
      }
    }
  }

  lemma ReadDelivers(c: Cipher, l: Link, size: nat, records: seq<seq<Byte>>, part: seq<Byte>, cut: seq<Byte>)
    requires Correct(c) && Carries(c, l, records, part, cut) && size > 0
    ensures |Next(c, l, Reads(size)).delivered| > |l.delivered| <==> l.pending != [] || records != []
  {
    if l.pending == [] {
      FreshRead(c, l, size, records, part, cut);
      if records != [] { SizedTail(records); }
    }
  }

  lemma {:induction false} SessionInOrder(c: Cipher, steps: seq<Step>)
    requires Correct(c)
    ensures InOrder(c, Session(c, steps))
  {
    if steps == [] {
      assert Carries(c, IDLE, [], [], []);
    } else {
      var l := Session(c, steps[..|steps| - 1]);
      SessionInOrder(c, steps[..|steps| - 1]);
      var records, part, cut :| Carries(c, l, records, part, cut);
      match steps[|steps| - 1]
      case Writes(plaintext, room) =>
        if !l.out.broken {
          var after, part', cut' :=
            WriteKeepsOrder(c, l.unsealed, l.out, l.delivered + l.pending, records, plaintext, room);
          assert Carries(c, Session(c, steps), after, part', cut');
        }
      case Reads(size) => ReadKeepsOrder(c, l, size, records, part, cut);
    }
  }

  /** Whatever is written and read, in whatever sizes: what was delivered is a prefix of what was sent,
      no record is ever refused, and once nothing is buffered and no whole frame is on the wire, all of
      it has arrived. */
  lemma StreamRoundTrip(a: Aead, steps: seq<Step>)
    requires Authentic(a)
    ensures var c, l := Numbered(a), Session(Numbered(a), steps);
            && !l.failed && l.delivered <= l.out.sent
            && (l.pending == [] && Parse(c, l.unsealed, l.out.wire) == Blocked <==> l.delivered == l.out.sent)
  {
    var c, l := Numbered(a), Session(Numbered(a), steps);
    NumberedIsCorrect(a);
    SessionInOrder(c, steps);
    var records, part, cut :| Carries(c, l, records, part, cut);
    WireParses(c, l.unsealed, l.out, l.delivered + l.pending, records, part, cut);
    if records != [] { SizedTail(records); }
  }

  /** A read with room in its buffer waits only when everything sent has been delivered. */
  lemma ReadsMakeProgress(a: Aead, steps: seq<Step>, size: nat)
    requires Authentic(a) && size > 0
    ensures var l := Session(Numbered(a), steps);
            |Next(Numbered(a), l, Reads(size)).delivered| > |l.delivered| <==> l.delivered != l.out.sent
  {
    var c, l := Numbered(a), Session(Numbered(a), steps);
    NumberedIsCorrect(a);
    SessionInOrder(c, steps);
    var records, part, cut :| Carries(c, l, records, part, cut);
    ReadDelivers(c, l, size, records, part, cut);
    if records != [] { SizedTail(records); }
  }
}
