/**
 * The serial port as the interfaces see it: a scripted source of replies
 * and a log of everything written. `readline()` and `read(n)` take their
 * outcome from the head of a queue; `None` in a queue stands for the
 * `SerialException` (or, for a line, the `UnicodeDecodeError`) that the
 * read raises. An exhausted queue behaves like a read timeout: `readline()`
 * gives an empty line and `read(n)` gives no bytes.
 */
module SerialLink {
  import opened Wrappers
  import opened PyText

  /** One write to the port: an encoded text line, or a binary packet. */
  datatype Frame = TextFrame(text: string) | BytesFrame(data: seq<Byte>)

  /** What an operation writes: nothing, one command line, or one packet. */
  datatype Request = NoRequest | TextRequest(command: string) | PacketRequest(packet: seq<Byte>)

  /** The whole observable state of a port. */
  datatype PortState = PortState(
    isOpen: bool,
    lines: seq<Option<string>>,
    chunks: seq<Option<seq<Byte>>>,
    sent: seq<Frame>)

  /** The outcome of the next `readline()`: a timeout gives the empty line. */
  function NextLine(lines: seq<Option<string>>): (r: Option<string>)
    ensures lines == [] ==> r == Some("")
    ensures lines != [] ==> r == lines[0]
  {
    if lines == [] then Some("") else lines[0]
  }

  /** The line queue after one `readline()`. */
  function AfterLine(lines: seq<Option<string>>): (r: seq<Option<string>>)
    ensures lines == [] ==> r == []
    ensures lines != [] ==> lines == [lines[0]] + r
  {
    if lines == [] then [] else lines[1..]
  }

  /** The bytes that have arrived when the next `read` runs; a timeout gives none. */
  function NextChunk(chunks: seq<Option<seq<Byte>>>): (r: Option<seq<Byte>>)
    ensures chunks == [] ==> r == Some([])
    ensures chunks != [] ==> r == chunks[0]
  {
    if chunks == [] then Some([]) else chunks[0]
  }

  /** `read(n)` on an arrival: at most `n` bytes, taken from the front. */
  function Take(arrival: Option<seq<Byte>>, n: nat): (r: Option<seq<Byte>>)
    ensures r.Some? <==> arrival.Some?
    ensures r.Some? ==> |r.value| <= n && r.value <= arrival.value
    ensures r.Some? && |arrival.value| >= n ==> |r.value| == n
  {
    match arrival
    case None => None
    case Some(b) => Some(if |b| <= n then b else b[..n])
  }

  /** The byte queue after `read(n)`: bytes beyond the first `n` stay for the next read. */
  function AfterRead(chunks: seq<Option<seq<Byte>>>, n: nat): (r: seq<Option<seq<Byte>>>)
    ensures chunks == [] ==> r == []
    ensures chunks != [] && chunks[0].Some? && |chunks[0].value| > n ==>
              r == [Some(chunks[0].value[n..])] + chunks[1..]
    ensures chunks != [] && (chunks[0].None? || |chunks[0].value| <= n) ==> r == chunks[1..]
  {
    if chunks == [] then []
    else match chunks[0]
      case Some(b) => if |b| > n then [Some(b[n..])] + chunks[1..] else chunks[1..]
      case None => chunks[1..]
  }

  /**
   * What the next exchange of an interface will see: whether the link is up
   * (`connected` and a port object exist), and the outcomes waiting for the
   * next `readline()` and the next `read`.
   */
  datatype Wire = Wire(up: bool, line: Option<string>, chunk: Option<seq<Byte>>)
  {
    /** The reply of `_send_human_command`: the decoded line, stripped. */
    function Human(): (r: Option<string>)
      ensures !up ==> r.None?
      ensures up ==> (r.Some? <==> line.Some?)
      ensures r.Some? ==> r.value == Strip(line.value)
    {
      if !up then None else MapOption(line, Strip)
    }

    /** The reply of `_send_binary_command`: `read(1)`, so never more than one byte. */
    function Binary(): (r: Option<seq<Byte>>)
      ensures !up ==> r.None?
      ensures up ==> (r.Some? <==> chunk.Some?)
      ensures r.Some? ==> |r.value| <= 1
      ensures r.Some? && chunk.value != [] ==> r.value == [chunk.value[0]]
    {
      if !up then None else Take(chunk, 1)
    }
  }

  /** The view of a port state for an interface whose link is `up`. */
  function WireOf(up: bool, s: PortState): (w: Wire)
    ensures w.up == up
  {
    Wire(up, NextLine(s.lines), NextChunk(s.chunks))
  }

  /**
   * The effect of one request on the port: a link that is down sees no
   * write and no read; otherwise the request is logged and the matching
   * queue advances by one `readline()` or one `read(1)`.
   */
  function Exchange(s: PortState, up: bool, req: Request): (t: PortState)
    ensures t.isOpen == s.isOpen
    ensures !up || req.NoRequest? ==> t == s
    ensures up && req.TextRequest? ==>
              t.sent == s.sent + [TextFrame(req.command + "\n")] &&
              t.lines == AfterLine(s.lines) && t.chunks == s.chunks
    ensures up && req.PacketRequest? ==>
              t.sent == s.sent + [BytesFrame(req.packet)] &&
              t.lines == s.lines && t.chunks == AfterRead(s.chunks, 1)
  {
    if !up then s
    else match req
      case NoRequest => s
      case TextRequest(c) => s.(sent := s.sent + [TextFrame(c + "\n")], lines := AfterLine(s.lines))
      case PacketRequest(p) => s.(sent := s.sent + [BytesFrame(p)], chunks := AfterRead(s.chunks, 1))
  }

  /**
   * A serial port opened by `serial.Serial(...)`. The replies it will give
   * are fixed in advance; `sent` records every write.
   */
  class Port {
    var isOpen: bool
    var lines: seq<Option<string>>
    var chunks: seq<Option<seq<Byte>>>
    ghost var sent: seq<Frame>

    ghost function State(): PortState
      reads this
    {
      PortState(isOpen, lines, chunks, sent)
    }

    /** A port that is not open yet and will answer with `lines` and `chunks`. */
    constructor (lines: seq<Option<string>>, chunks: seq<Option<seq<Byte>>>)
      ensures State() == PortState(false, lines, chunks, [])
    {
      isOpen := false;
      this.lines := lines;
      this.chunks := chunks;
      sent := [];
    }

    method Open()
      modifies this
      ensures State() == old(State()).(isOpen := true)
    {
      isOpen := true;
    }

    method Close()
      modifies this
      ensures State() == old(State()).(isOpen := false)
    {
      isOpen := false;
    }

    /** `write(...)` followed by `flush()`. */
    method Write(f: Frame)
      requires isOpen
      modifies this
      ensures State() == old(State()).(sent := old(sent) + [f])
    {
      sent := sent + [f];
    }

    /** `readline().decode()`: `None` for the errors the interfaces catch. */
    method ReadLine() returns (r: Option<string>)
      requires isOpen
      modifies this
      ensures r == NextLine(old(lines))
      ensures State() == old(State()).(lines := AfterLine(old(lines)))
    {
      r := NextLine(lines);
      lines := AfterLine(lines);
    }

    /** `read(n)`: at most `n` bytes; `None` for a `SerialException`. */
    method Read(n: nat) returns (r: Option<seq<Byte>>)
      requires isOpen
      modifies this
      ensures r == Take(NextChunk(old(chunks)), n)
      ensures State() == old(State()).(chunks := AfterRead(old(chunks), n))
    {
      r := Take(NextChunk(chunks), n);
      chunks := AfterRead(chunks, n);
    }
  }
}
