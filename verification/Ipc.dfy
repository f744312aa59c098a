/** The receive side of the command socket: the four byte header that announces a payload,
    and the per-client state machine that reassembles header and payload from whatever
    pieces the socket delivers. */
module Ipc {

  const HEADER_SIZE := 4
  const WORD := 0x1_0000_0000
  const INT_MAX := 0x7fff_ffff

  type Byte = bv8
  type Word = bv32

  /** The byte order of the machine a header is written or read on. */
  datatype Endian = Little | Big

  // ---------------------------------------------------------------------------------------
  // Words and bytes
  // ---------------------------------------------------------------------------------------

  /** Byte k of a word, byte 0 being the least significant. */
  function Octet(w: Word, k: nat): Byte
    requires k < 4
  {
    if k == 0 then (w & 0xff) as bv8
    else if k == 1 then ((w >> 8) & 0xff) as bv8
    else if k == 2 then ((w >> 16) & 0xff) as bv8
    else ((w >> 24) & 0xff) as bv8
  }

  function FromOctets(b0: Byte, b1: Byte, b2: Byte, b3: Byte): Word
  {
    (b0 as bv32) | ((b1 as bv32) << 8) | ((b2 as bv32) << 16) | ((b3 as bv32) << 24)
  }

  lemma OctetsOfFromOctets(b0: Byte, b1: Byte, b2: Byte, b3: Byte)
    ensures var w := FromOctets(b0, b1, b2, b3);
            Octet(w, 0) == b0 && Octet(w, 1) == b1 && Octet(w, 2) == b2 && Octet(w, 3) == b3
  {
  }

  lemma FromOctetsOfOctets(w: Word)
    ensures FromOctets(Octet(w, 0), Octet(w, 1), Octet(w, 2), Octet(w, 3)) == w
  {
  }

  /** The word with its bytes in the opposite order. */
  function Reversed(w: Word): Word
  {
    FromOctets(Octet(w, 3), Octet(w, 2), Octet(w, 1), Octet(w, 0))
  }

  /** What a big endian machine makes of a word it has read: masks, then shifts. */
  function SwappedWhenRead(r: Word): Word
  {
    ((r & 0x000000ff) << 24) | ((r & 0x0000ff00) << 8) | ((r & 0x00ff0000) >> 8) | ((r & 0xff000000) >> 24)
  }

  /** What it makes of a word it is to write: shifts, then masks. */
  function SwappedWhenWritten(r: Word): Word
  {
    ((r >> 24) & 0x000000ff) | ((r << 8) & 0x00ff0000) | ((r >> 8) & 0x0000ff00) | ((r << 24) & 0xff000000)
  }

  /** Both are the same reversal of the bytes, which undoes itself. */
  lemma BothSwapsReverse(r: Word)
    ensures SwappedWhenRead(r) == Reversed(r) && SwappedWhenWritten(r) == Reversed(r)
    ensures SwappedWhenRead(SwappedWhenWritten(r)) == r
  {
  }

  lemma Doubled(w: Word)
    requires w < 0x8000_0000
    ensures (w << 1) as int == 2 * (w as int) && ((w << 1) | 1) as int == 2 * (w as int) + 1
  {
  }

  lemma TopBit(w: Word)
    requires w >= 0x8000_0000
    ensures w as int >= 0x8000_0000
  {
  }

  lemma WordOfValue(w: Word)
    ensures 0 <= w as int < WORD && (w as int) as bv32 == w
  {
  }

  /** Every number that fits is the value of some word, bit by bit. */
  lemma {:induction false} WordOf(n: int) returns (w: Word)
    requires 0 <= n < WORD
    ensures w as int == n
  {
    if n == 0 {
      w := 0;
    } else {
      var half := WordOf(n / 2);
      if half >= 0x8000_0000 {
        TopBit(half);
      }
      Doubled(half);
      w := if n % 2 == 0 then half << 1 else (half << 1) | 1;
    }
  }

  lemma WordValue(n: int)
    requires 0 <= n < WORD
    ensures (n as bv32) as int == n
  {
    var w := WordOf(n);
    WordOfValue(w);
  }

  // ---------------------------------------------------------------------------------------
  // Header encoding
  // ---------------------------------------------------------------------------------------

  /** How a word lies in memory when it is stored through an `int*`. */
  function Stored(w: Word, native: Endian): (b: seq<Byte>)
    ensures |b| == HEADER_SIZE
  {
    if native.Little? then [Octet(w, 0), Octet(w, 1), Octet(w, 2), Octet(w, 3)]
    else [Octet(w, 3), Octet(w, 2), Octet(w, 1), Octet(w, 0)]
  }

  function Loaded(b: seq<Byte>, native: Endian): Word
    requires |b| == HEADER_SIZE
  {
    if native.Little? then FromOctets(b[0], b[1], b[2], b[3]) else FromOctets(b[3], b[2], b[1], b[0])
  }

  lemma LoadedOfStored(w: Word, native: Endian)
    ensures Loaded(Stored(w, native), native) == w
  {
    FromOctetsOfOctets(w);
  }

  lemma ReversalTurnsBigIntoLittle(w: Word)
    ensures Stored(Reversed(w), Big) == Stored(w, Little)
  {
    hide Octet, FromOctets;
    OctetsOfFromOctets(Octet(w, 3), Octet(w, 2), Octet(w, 1), Octet(w, 0));
  }

  /** Two's complement. */
  function Signed(w: Word): int
  {
    if w as int <= INT_MAX then w as int else w as int - WORD
  }

  function Unsigned(n: int): Word
    requires -INT_MAX - 1 <= n <= INT_MAX
  {
    if n >= 0 then n as bv32 else (n + WORD) as bv32
  }

  lemma SignedOfUnsigned(n: int)
    requires -INT_MAX - 1 <= n <= INT_MAX
    ensures Signed(Unsigned(n)) == n
  {
    WordValue(if n >= 0 then n else n + WORD);
  }

  function InterpretHeader(buffer: seq<Byte>, native: Endian): int
    requires |buffer| == HEADER_SIZE
  {
    var r := Loaded(buffer, native);
    Signed(if native.Little? then r else SwappedWhenRead(r))
  }

  /** Fills the header buffer in place: a native store, then a byte swap on big endian machines.
      The bytes that result are little endian on every machine. */
  method CreateHeaderBuffer(incoming: int, native: Endian, buffer: array<Byte>)
    requires buffer.Length == HEADER_SIZE
    requires -INT_MAX - 1 <= incoming <= INT_MAX
    modifies buffer
    ensures buffer[..] == Header(incoming)
  {
    hide Octet, FromOctets, SwappedWhenWritten, Unsigned;
    Store(buffer, Unsigned(incoming), native);
    if native.Big? {
      LoadedOfStored(Unsigned(incoming), native);
      var r := Loaded(buffer[..], native);
      BothSwapsReverse(r);
      ReversalTurnsBigIntoLittle(r);
      Store(buffer, SwappedWhenWritten(r), native);
    }
  }

  method Store(buffer: array<Byte>, w: Word, native: Endian)
    requires buffer.Length == HEADER_SIZE
    modifies buffer
    ensures buffer[..] == Stored(w, native)
  {
    hide Octet;
    var b := Stored(w, native);
    buffer[0], buffer[1], buffer[2], buffer[3] := b[0], b[1], b[2], b[3];
  }

  /** The wire format: the length, least significant byte first. */
  function Header(n: int): (b: seq<Byte>)
    requires -INT_MAX - 1 <= n <= INT_MAX
    ensures |b| == HEADER_SIZE
  {
    Stored(Unsigned(n), Little)
  }

  /** Whatever machine wrote the header and whatever machine reads it, the length survives. */
  lemma HeaderRoundTrip(n: int, reader: Endian)
    requires -INT_MAX - 1 <= n <= INT_MAX
    ensures InterpretHeader(Header(n), reader) == n
  {
    hide Octet, FromOctets, SwappedWhenRead, SwappedWhenWritten, Unsigned, Signed;
    var w := Unsigned(n);
    SignedOfUnsigned(n);
    FromOctetsOfOctets(w);
    BothSwapsReverse(w);
    BothSwapsReverse(Reversed(w));
  }

  /** The first byte of a header is the least significant one, the last the most significant. */
  lemma HeaderIsLittleEndian(n: int)
    requires 0 <= n <= INT_MAX
    ensures var b := Header(n);
            FromOctets(b[0], b[1], b[2], b[3]) as int == n
  {
    hide Octet, FromOctets;
    WordValue(n);
    FromOctetsOfOctets(Unsigned(n));
  }

  // ---------------------------------------------------------------------------------------
  // Client state machine
  // ---------------------------------------------------------------------------------------

  /** `Thrown`: the payload buffer was requested with a negative size, which throws. */
  datatype Phase = ReadingHeader | ReadingPayload | Writing | Disconnected | Thrown

  /** socket: the bytes that arrived and were not received yet.
      decoded: the payloads handed to the command parser so far. */
  datatype ClientState = ClientState(phase: Phase, payloadSize: int, socket: seq<Byte>, decoded: seq<seq<Byte>>)

  /** What the event loop reports: an error or hang-up, or readability; the last three tell
      whether the system calls the handler makes succeed. */
  datatype Event = Event(error: bool, hangup: bool, ioctlOk: bool, headerRecvOk: bool, payloadRecvOk: bool)

  const READABLE := Event(false, false, true, true, true)

  class Client {
    const native: Endian
    var phase: Phase
    var payloadSize: int
    var socket: seq<Byte>
    var decoded: seq<seq<Byte>>

    function State(): ClientState
      reads this
    {
      ClientState(phase, payloadSize, socket, decoded)
    }

    constructor (native: Endian)
      ensures this.native == native && State() == INITIAL
    {
      this.native := native;
      phase, payloadSize, socket, decoded := ReadingHeader, 0, [], [];
    }

    method Receive(n: nat) returns (bytes: seq<Byte>)
      requires n <= |socket|
      modifies this`socket
      ensures bytes == old(socket)[..n] && socket == old(socket)[n..]
    {
      bytes := socket[..n];
      socket := socket[n..];
    }

    method HandleReadable(ev: Event)
      requires phase.ReadingHeader? || phase.ReadingPayload? || phase.Writing?
      modifies this
      ensures State() == Handle(old(State()), ev, native)
    {
      if ev.error || ev.hangup || !ev.ioctlOk {
        phase := Disconnected;
        return;
      }
      var available := |socket|;
      if phase == ReadingHeader {
        if available < HEADER_SIZE {
          return;
        }
        if !ev.headerRecvOk {
          phase := Disconnected;
          return;
        }
        var buffer := Receive(HEADER_SIZE);
        payloadSize := InterpretHeader(buffer, native);
        phase := ReadingPayload;
        available := available - HEADER_SIZE;
        if payloadSize > available {
          return;
        }
      }
      if phase == ReadingPayload {
        if payloadSize > available {
          return;
        }
        if payloadSize < 0 {
          phase := Thrown;
          return;
        }
        if !ev.payloadRecvOk {
          phase := Disconnected;
          return;
        }
        var buffer := Receive(payloadSize);
        decoded := decoded + [buffer];
        phase := Writing;
      }
    }
  }

  const INITIAL := ClientState(ReadingHeader, 0, [], [])

  function HandlePayload(c: ClientState, ev: Event): ClientState
  {
    if c.payloadSize > |c.socket| then c
    else if c.payloadSize < 0 then c.(phase := Thrown)
    else if !ev.payloadRecvOk then c.(phase := Disconnected)
    else c.(phase := Writing, socket := c.socket[c.payloadSize..], decoded := c.decoded + [c.socket[..c.payloadSize]])
  }

  function Handle(c: ClientState, ev: Event, native: Endian): ClientState
  {
    if ev.error || ev.hangup || !ev.ioctlOk then c.(phase := Disconnected)
    else match c.phase
      case ReadingHeader =>
        if |c.socket| < HEADER_SIZE then c
        else if !ev.headerRecvOk then c.(phase := Disconnected)
        else HandlePayload(c.(phase := ReadingPayload, payloadSize := InterpretHeader(c.socket[..HEADER_SIZE], native),
                              socket := c.socket[HEADER_SIZE..]), ev)
      case ReadingPayload => HandlePayload(c, ev)
      case _ => c
  }

  /** A readable event with nothing failing, after some bytes arrived. A client whose handler
      threw is gone and handles nothing more. */
  function Feed(c: ClientState, chunk: seq<Byte>, native: Endian): ClientState
  {
    Handle(c.(socket := c.socket + chunk), READABLE, native)
  }

  function FeedAll(c: ClientState, chunks: seq<seq<Byte>>, native: Endian): ClientState
    decreases |chunks|
  {
    if chunks == [] then c else FeedAll(Feed(c, chunks[0], native), chunks[1..], native)
  }

  function Concat(chunks: seq<seq<Byte>>): seq<Byte>
  {
    if chunks == [] then [] else chunks[0] + Concat(chunks[1..])
  }

  /** What a client must look like once the bytes s have arrived, however they were cut. */
  function Expected(s: seq<Byte>, native: Endian): ClientState
  {
    if |s| < HEADER_SIZE then ClientState(ReadingHeader, 0, s, [])
    else
      var n := InterpretHeader(s[..HEADER_SIZE], native);
      var rest := s[HEADER_SIZE..];
      if n < 0 then ClientState(Thrown, n, rest, [])
      else if n > |rest| then ClientState(ReadingPayload, n, rest, [])
      else ClientState(Writing, n, rest[n..], [rest[..n]])
  }

  lemma FeedExpected(s: seq<Byte>, chunk: seq<Byte>, native: Endian)
    ensures Feed(Expected(s, native), chunk, native) == Expected(s + chunk, native)
  {
    var t := s + chunk;
    if |s| >= HEADER_SIZE {
      assert t[..HEADER_SIZE] == s[..HEADER_SIZE];
      assert t[HEADER_SIZE..] == s[HEADER_SIZE..] + chunk;
      var n := InterpretHeader(s[..HEADER_SIZE], native);
      var rest := s[HEADER_SIZE..];
      if 0 <= n <= |rest| {
        assert (rest + chunk)[..n] == rest[..n];
        assert (rest + chunk)[n..] == rest[n..] + chunk;
      }
    }
  }

  /** The state after any sequence of readable events is a function of the bytes alone. */
  lemma {:induction false} ChunkIndependence(s: seq<Byte>, chunks: seq<seq<Byte>>, native: Endian)
    ensures FeedAll(Expected(s, native), chunks, native) == Expected(s + Concat(chunks), native)
    decreases |chunks|
  {
    hide Handle, Expected;
    if chunks == [] {
      assert s + Concat(chunks) == s;
    } else {
      FeedExpected(s, chunks[0], native);
      ChunkIndependence(s + chunks[0], chunks[1..], native);
      assert (s + chunks[0]) + Concat(chunks[1..]) == s + Concat(chunks);
    }
  }

  /** A frame cut in any way is decoded exactly once, on exactly the payload, and only when its
      last byte has arrived; bytes after the frame stay in the socket. */
  lemma FramingIsChunkIndependent(payload: seq<Byte>, chunks: seq<seq<Byte>>, native: Endian)
    requires |payload| <= INT_MAX
    ensures var frame := Header(|payload|) + payload;
            var sent := Concat(chunks);
            var c := FeedAll(INITIAL, chunks, native);
            && (frame <= sent ==> c == ClientState(Writing, |payload|, sent[|frame|..], [payload]))
            && (sent < frame ==> c.decoded == [] && (c.phase.ReadingHeader? || c.phase.ReadingPayload?))
  {
    hide InterpretHeader, Header, FeedAll, Concat;
    var header := Header(|payload|);
    var frame := header + payload;
    var sent := Concat(chunks);
    HeaderRoundTrip(|payload|, native);
    ChunkIndependence([], chunks, native);
    assert [] + sent == sent;
    if frame <= sent {
      assert sent[..HEADER_SIZE] == header;
      assert sent[HEADER_SIZE..][..|payload|] == payload;
      assert sent[HEADER_SIZE..][|payload|..] == sent[|frame|..];
    } else if sent < frame && |sent| >= HEADER_SIZE {
      assert sent[..HEADER_SIZE] == header;
    }
  }

  /** With failures, an event does what it would do without them up to the first system call that fails, and then
      disconnects the client: nothing is received or decoded any more. */
  lemma FailuresDisconnect(c: ClientState, ev: Event, native: Endian)
    ensures var good := Handle(c, READABLE, native);
            var r := Handle(c, ev, native);
            var receivesHeader := c.phase == ReadingHeader && good.phase != ReadingHeader;
            var decodes := |good.decoded| > |c.decoded|;
            if ev.error || ev.hangup || !ev.ioctlOk || (receivesHeader && !ev.headerRecvOk)
            then r == c.(phase := Disconnected)
            else if decodes && !ev.payloadRecvOk
            then && r.phase == Disconnected && r.decoded == c.decoded
                 && (if receivesHeader then r.socket == c.socket[HEADER_SIZE..] else r.socket == c.socket)
            else r == good
  {
    hide InterpretHeader;
  }
}
