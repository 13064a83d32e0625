/**
  The FIX gateway without its sockets: bytes in, messages out, one shared engine. A session is its
  own state machine; `handled`, `sent` and `calls` record what it did.
 */
module Gateways {
  import opened Orders
  import opened PriorityBook
  import opened WrapArithmetic
  import opened FixText
  import opened FixFrames
  import opened FixFields
  import opened FixMessages
  import opened ExecReports

  const TAG_CL_ORD_ID: int := 11
  const TAG_ORDER_ID: int := 37
  const TAG_ORDER_QTY: int := 38
  const TAG_PRICE: int := 44
  const TAG_SIDE: int := 54
  const TAG_SYMBOL: int := 55
  const TAG_MD_REQ_ID: int := 262

  const LOGON: Byte := 65
  const LOGOUT: Byte := 53
  const HEARTBEAT: Byte := 48
  const NEW_ORDER: Byte := 68
  const CANCEL: Byte := 70
  const MD_REQUEST: Byte := 86

  const BUY: Byte := 49
  const SELL: Byte := 50

  /** "malformed FIX frame", "parse failed", "not logged on", "bye". */
  const MALFORMED_TEXT: Bytes :=
    [109, 97, 108, 102, 111, 114, 109, 101, 100, 32, 70, 73, 88, 32, 102, 114, 97, 109, 101]
  const PARSE_TEXT: Bytes := [112, 97, 114, 115, 101, 32, 102, 97, 105, 108, 101, 100]
  const NOT_LOGGED_ON_TEXT: Bytes := [110, 111, 116, 32, 108, 111, 103, 103, 101, 100, 32, 111, 110]
  const BYE_TEXT: Bytes := [98, 121, 101]

  /** What an execution report echoes from the request. */
  datatype Ticket = Ticket(clOrdId: Bytes, side: Byte, symbol: Bytes)

  datatype Outbound =
    | LogonAck
    | Logout(text: Bytes)
    | Exec(ticket: Ticket, execId: nat, report: Report)
    | Snapshot(reqId: Bytes, symbol: Bytes, bidPx: real, bidQty: int, askPx: real, askQty: int)

  datatype Sent = Sent(seqNum: nat, target: Bytes, msg: Outbound)

  datatype EngineCall = PlaceCall(side: Side, price: int, qty: int) | CancelCall(id: nat) | QueryCall

  /** A call into the engine made while handling message number `at`. */
  datatype Called = Called(at: nat, call: EngineCall)

  datatype Session = Session(
    buf: Bytes,
    running: bool,
    loggedOn: bool,
    outSeq: nat,
    inSeq: nat,
    sender: Bytes,
    handled: seq<seq<Field>>,
    sent: seq<Sent>,
    calls: seq<Called>)

  /** What all sessions share. */
  datatype Gate = Gate(book: Book, nextExec: nat)

  datatype Link = Link(gate: Gate, session: Session)

  /** How decimal text is read as a number. */
  type Reader = Bytes -> real

  function Opened(): Session {
    Session([], true, false, 1, 0, [], [], [], [])
  }

  // ----- reading fields -----

  function TypeOf(fs: seq<Field>): Byte {
    var v := Get(fs, TAG_MSG_TYPE);
    if v == [] then 0 else v[0]
  }

  function SideByte(fs: seq<Field>): Byte {
    var v := Get(fs, TAG_SIDE);
    if v == [] then BUY else v[0]
  }

  /** Missing or over-long text counts as zero. */
  function RealOf(read: Reader, fs: seq<Field>, tag: int): real {
    var v := Get(fs, tag);
    if v == [] || |v| >= 64 then 0.0 else read(v)
  }

  /** Leading signed digits that fit 64 bits; anything else counts as zero. */
  function IntOf(v: Bytes): int {
    var start := if v != [] && v[0] == MINUS then 1 else 0;
    var e := DigitsEnd(v, start);
    var n: int := Value(v[start..e]) * (if start == 1 then -1 else 1);
    if e == start || n < -0x8000_0000_0000_0000 || n > 0x7fff_ffff_ffff_ffff then 0 else n
  }

  function OrderIdOf(fs: seq<Field>): nat {
    IntOf(Get(fs, TAG_ORDER_ID)) % WORD
  }

  function TicketOf(fs: seq<Field>): Ticket {
    Ticket(Get(fs, TAG_CL_ORD_ID), SideByte(fs), Get(fs, TAG_SYMBOL))
  }

  // ----- acting -----

  function Emit(s: Session, msg: Outbound): Session {
    s.(outSeq := s.outSeq + 1, sent := s.sent + [Sent(s.outSeq, s.sender, msg)])
  }

  function Stop(s: Session, text: Bytes): Session {
    Emit(s, Logout(text)).(running := false)
  }

  /** Records an engine call made for the message being handled. */
  function Note(s: Session, call: EngineCall): Session
    requires s.handled != []
  {
    s.(calls := s.calls + [Called(|s.handled| - 1, call)])
  }

  /** Sends one execution report per element, numbering them from the shared counter. */
  function SendReports(l: Link, ticket: Ticket, rs: seq<Report>): Link {
    if rs == [] then l
    else
      var m := SendReports(l, ticket, rs[..|rs| - 1]);
      Link(m.gate.(nextExec := m.gate.nextExec + 1),
           Emit(m.session, Exec(ticket, m.gate.nextExec, rs[|rs| - 1])))
  }

  function Refusal(orderId: nat, status: Status, orderQty: real): Report {
    Report(orderId, status, status, orderQty, 0, 0, 0, 0.0, 0.0)
  }

  predicate Acceptable(qty: real, price: real, side: Byte) {
    qty > 0.0 && price > 0.0 && (side == BUY || side == SELL)
  }

  function Ticks(price: real): int {
    (price * 100.0 + 0.5).Floor
  }

  function OnNewOrder(read: Reader, l: Link, fs: seq<Field>): Link
    requires l.session.handled != []
  {
    var qty, price := RealOf(read, fs, TAG_ORDER_QTY), RealOf(read, fs, TAG_PRICE);
    var ticket := TicketOf(fs);
    if !Acceptable(qty, price, ticket.side) then SendReports(l, ticket, [Refusal(0, Status.Rejected, qty)])
    else
      var side := if ticket.side == BUY then Buy else Sell;
      var r := Place(l.gate.book, side, Ticks(price), qty.Floor);
      SendReports(Link(l.gate.(book := r.book), Note(l.session, PlaceCall(side, Ticks(price), qty.Floor))),
                  ticket, Reports(r.id, qty.Floor, r.trades))
  }

  function OnCancel(l: Link, fs: seq<Field>): Link
    requires l.session.handled != []
  {
    var id := OrderIdOf(fs);
    SendReports(Link(l.gate.(book := Cancel(l.gate.book, id)), Note(l.session, CancelCall(id))),
                TicketOf(fs), [Refusal(id, if Rests(l.gate.book, id) then Canceled else Status.Rejected, 0.0)])
  }

  function SnapshotOf(b: Book, reqId: Bytes, symbol: Bytes): Outbound {
    Snapshot(reqId, symbol,
             Px(BestBid(b)), if BestBid(b) > 0 then QtyAt(b.bids, BestBid(b)) else 0,
             if BestAsk(b) < INT64_MAX then Px(BestAsk(b)) else 0.0,
             if BestAsk(b) < INT64_MAX then QtyAt(b.asks, BestAsk(b)) else 0)
  }

  function OnMdRequest(l: Link, fs: seq<Field>): Link
    requires l.session.handled != []
  {
    l.(session := Emit(Note(l.session, QueryCall),
                       SnapshotOf(l.gate.book, Get(fs, TAG_MD_REQ_ID), Get(fs, TAG_SYMBOL))))
  }

  /** The message has been recorded; before a logon only a logon is accepted. */
  function Dispatch(read: Reader, l: Link, fs: seq<Field>): Link
    requires l.session.handled != []
  {
    var t := TypeOf(fs);
    if !l.session.loggedOn && t != LOGON then l.(session := Stop(l.session, NOT_LOGGED_ON_TEXT))
    else if t == LOGON then
      l.(session := Emit(l.session.(sender := Get(fs, TAG_SENDER), loggedOn := true), LogonAck))
    else if t == LOGOUT then l.(session := Stop(l.session, BYE_TEXT))
    else if t == NEW_ORDER then OnNewOrder(read, l, fs)
    else if t == CANCEL then OnCancel(l, fs)
    else if t == MD_REQUEST then OnMdRequest(l, fs)
    else l
  }

  function Handle(read: Reader, l: Link, fs: seq<Field>): Link {
    Dispatch(read, l.(session := l.session.(inSeq := l.session.inSeq + 1, handled := l.session.handled + [fs])), fs)
  }

  lemma {:induction false} SendReportsKeeps(l: Link, ticket: Ticket, rs: seq<Report>)
    ensures var r := SendReports(l, ticket, rs);
            && r.session.buf == l.session.buf && r.session.running == l.session.running
            && r.session.handled == l.session.handled && r.session.calls == l.session.calls
            && r.session.loggedOn == l.session.loggedOn && r.session.inSeq == l.session.inSeq
            && r.session.sender == l.session.sender && r.gate.book == l.gate.book
            && r.gate.nextExec == l.gate.nextExec + |rs|
            && |r.session.sent| == |l.session.sent| + |rs|
            && r.session.sent[..|l.session.sent|] == l.session.sent
            && r.session.outSeq == l.session.outSeq + |rs|
            && forall k :: 0 <= k < |rs| ==>
                 r.session.sent[|l.session.sent| + k]
                 == Sent(l.session.outSeq + k, l.session.sender, Exec(ticket, l.gate.nextExec + k, rs[k]))
  {
    if rs != [] {
      SendReportsKeeps(l, ticket, rs[..|rs| - 1]);
    }
  }

  /** Handling a message adds it to the record and never touches the buffer. */
  lemma HandleKeepsBuffer(read: Reader, l: Link, fs: seq<Field>)
    ensures var r := Handle(read, l, fs).session;
            r.buf == l.session.buf && r.handled == l.session.handled + [fs]
  {
    hide Reports, Place, Cancel, Rests, SendReports, RealOf, OrderIdOf;
    var m := l.(session := l.session.(inSeq := l.session.inSeq + 1, handled := l.session.handled + [fs]));
    DispatchKeepsBuffer(read, m, fs);
  }

  lemma DispatchKeepsBuffer(read: Reader, l: Link, fs: seq<Field>)
    requires l.session.handled != []
    ensures var r := Dispatch(read, l, fs).session;
            r.buf == l.session.buf && r.handled == l.session.handled
  {
    hide Reports, SendReports, Place, Cancel, Rests, RealOf, OrderIdOf, SnapshotOf, Ticks;
    var qty, price := RealOf(read, fs, TAG_ORDER_QTY), RealOf(read, fs, TAG_PRICE);
    var ticket := TicketOf(fs);
    var side := if ticket.side == BUY then Buy else Sell;
    var p := Place(l.gate.book, side, Ticks(price), qty.Floor);
    var id := OrderIdOf(fs);
    SendReportsKeeps(l, ticket, [Refusal(0, Status.Rejected, qty)]);
    SendReportsKeeps(Link(l.gate.(book := p.book), Note(l.session, PlaceCall(side, Ticks(price), qty.Floor))),
                     ticket, Reports(p.id, qty.Floor, p.trades));
    SendReportsKeeps(Link(l.gate.(book := Cancel(l.gate.book, id)), Note(l.session, CancelCall(id))), ticket,
                     [Refusal(id, if Rests(l.gate.book, id) then Canceled else Status.Rejected, 0.0)]);
  }

  // ----- the drain loop -----

  /** One turn of the loop; `more` says whether it goes round again. */
  datatype Turn = Turn(link: Link, more: bool)

  function DrainOnce(read: Reader, l: Link): Turn {
    match Split(l.session.buf)
    case Incomplete => Turn(l, false)
    case Malformed => Turn(l.(session := Stop(l.session, MALFORMED_TEXT)), false)
    case Framed(f) =>
      match Parse(f)
      case Rejected => Turn(l.(session := Stop(l.session, PARSE_TEXT)), false)
      case Fields(fs) =>
        var r := Handle(read, l, fs);
        Turn(r.(session := r.session.(buf := l.session.buf[|f|..])), true)
  }

  /** The loop does not look at `running`: it stops only when no whole frame is left. */
  function DrainAll(read: Reader, l: Link): Link
    decreases |l.session.buf|
  {
    var t := DrainOnce(read, l);
    if t.more then DrainAll(read, t.link) else t.link
  }

  /** The most one receive returns. */
  const CHUNK_SIZE: nat := 4096

  /** A chunk from the wire, ignored once the session has stopped. */
  function Receive(read: Reader, l: Link, chunk: Bytes): Link {
    if l.session.running then DrainAll(read, l.(session := l.session.(buf := l.session.buf + chunk))) else l
  }

  function ReceiveAll(read: Reader, l: Link, chunks: seq<Bytes>): Link {
    if chunks == [] then l
    else Receive(read, ReceiveAll(read, l, chunks[..|chunks| - 1]), chunks[|chunks| - 1])
  }
}
