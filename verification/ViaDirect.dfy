/** The VIA driver without the coalescer: every call is a round trip, and only
    lighting waits for a commit. */
module ViaDirect {
  import opened Basics
  import opened ViaFrames
  import opened ViaBoard
  import opened ViaTransport
  import opened ViaCoalescer

  datatype Plain = Plain(board: Board, touched: set<u8>)

  /** One driver call; `Flush` stands for `commit_to_nvram`. */
  ghost predicate Called(p: Plain, request: Request, reply: Reply, p': Plain) {
    match request
    case GetProtocolVersion =>
      && p' == p.(board := p'.board)
      && exists r :: ReadFixed(p.board, AskVersion, p.board.version, p'.board, r) && reply == AckNumber(r)
    case GetLayerCount =>
      && p' == p.(board := p'.board)
      && exists r :: ReadFixed(p.board, AskLayers, p.board.layers as u16, p'.board, r) && reply == AckNumber(r)
    case GetKeycode(k) =>
      p' == p.(board := p'.board) && exists r :: KeyRead(p.board, k, p'.board, r) && reply == AckNumber(r)
    case SetKeycode(k, v) =>
      p' == p.(board := p'.board) && exists r :: KeyWrite(p.board, k, v, p'.board, r) && reply == Ack(r)
    case Flush =>
      && SavedChannels(p.board, p.touched, p'.board, p'.touched)
      && (reply == Done <==> p'.touched == {}) && (reply.Done? || reply.Failed?)
    case GetMacro(offset, length) =>
      p' == p.(board := p'.board) && exists r :: MacroRead(p.board, offset, length, p'.board, r) && reply == AckBytes(r)
    case SetMacro(offset, data) =>
      p' == p.(board := p'.board) && exists r :: MacroWrite(p.board, offset, data, p'.board, r) && reply == Ack(r)
    case GetLighting(c, v) =>
      p' == p.(board := p'.board) && exists r :: LightRead(p.board, c, v, p'.board, r) && reply == AckBytes(r)
    case SetLighting(c, v, data) =>
      && p'.touched == (if reply == Done then p.touched + {c} else p.touched)
      && exists r :: LightWrite(p.board, c, v, data, p'.board, r) && reply == Ack(r)
  }

  class Driver {
    const transport: Transport
    var touched: set<u8>

    ghost function State(): Plain
      reads this, transport
    {
      Plain(transport.board, touched)
    }

    constructor (t: Transport)
      ensures transport == t && State() == Plain(t.board, {})
    {
      transport := t;
      touched := {};
    }

    method Call(request: Request) returns (reply: Reply)
      modifies this, transport
      ensures Called(old(State()), request, reply, State())
    {
      hide KeyRead;
      hide KeyWrite;
      hide LightRead;
      hide LightWrite;
      hide MacroRead;
      hide MacroWrite;
      match request {
        case GetProtocolVersion =>
          var r := transport.GetProtocolVersion();
          reply := AckNumber(r);
        case GetLayerCount =>
          var r := transport.GetLayerCount();
          reply := AckNumber(r);
        case GetKeycode(k) =>
          var r := transport.GetKeycode(k);
          reply := AckNumber(r);
        case SetKeycode(k, v) =>
          var r := transport.SetKeycode(k, v);
          reply := Ack(r);
        case Flush =>
          var r;
          r, touched := SaveTouched(transport, touched);
          reply := Ack(r);
        case GetMacro(offset, length) =>
          var r := transport.GetMacroBuffer(offset, length);
          reply := AckBytes(r);
        case SetMacro(offset, data) =>
          var r := transport.SetMacroBuffer(offset, data);
          reply := Ack(r);
        case GetLighting(c, v) =>
          var r := transport.GetLighting(c, v);
          reply := AckBytes(r);
        case SetLighting(c, v, data) =>
          var r := transport.SetLighting(c, v, data);
          if r.Ok? {
            touched := touched + {c};
          }
          reply := Ack(r);
      }
    }
  }
}
