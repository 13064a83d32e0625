/** What the gateway puts on the wire, and that its own parser reads it back. */
module GatewayWire {
  import opened Orders
  import opened PriorityBook
  import opened BookRuns
  import opened FixText
  import opened FixFrames
  import opened FixFields
  import opened FixMessages
  import opened ExecReports
  import opened Gateways
  import opened GatewayLaws

  /** How a number is printed with a given count of decimals. */
  type Writer = (real, nat) -> Bytes

  function TypeByte(msg: Outbound): Byte {
    match msg
    case LogonAck => 65
    case Logout(_) => 53
    case Exec(_, _, _) => 56
    case Snapshot(_, _, _, _, _, _) => 87
  }

  function StatusByte(status: Status): Byte {
    match status
    case New => 48
    case PartialFill => 49
    case FullFill => 50
    case Canceled => 52
    case Rejected => 56
  }

  function ExecNames(t: Ticket, execId: nat, r: Report): seq<Field> {
    [Field(37, Decimal(r.orderId)), Field(11, t.clOrdId), Field(17, [69] + Decimal(execId)),
     Field(150, [StatusByte(r.execType)]), Field(39, [StatusByte(r.ordStatus)]),
     Field(55, t.symbol), Field(54, [t.side])]
  }

  function ExecNumbers(write: Writer, r: Report): seq<Field> {
    [Field(38, write(r.orderQty, 0)), Field(14, write(r.cumQty as real, 0)),
     Field(151, write(r.leavesQty as real, 0)), Field(32, write(r.lastQty as real, 0)),
     Field(31, write(r.lastPx, 2)), Field(6, write(r.avgPx, 4))]
  }

  /** One side of a book snapshot. */
  function Entry(write: Writer, kind: Byte, px: real, qty: int): seq<Field> {
    [Field(269, [kind]), Field(270, write(px, 2)), Field(271, write(qty as real, 0))]
  }

  function BodyOf(write: Writer, msg: Outbound): seq<Field> {
    match msg
    case LogonAck => [Field(98, IntText(0)), Field(108, IntText(30))]
    case Logout(text) => if text == [] then [] else [Field(58, text)]
    case Exec(t, execId, r) => ExecNames(t, execId, r) + ExecNumbers(write, r)
    case Snapshot(reqId, symbol, bidPx, bidQty, askPx, askQty) =>
      (if reqId == [] then [] else [Field(262, reqId)]) + [Field(55, symbol), Field(268, IntText(2))]
      + Entry(write, 48, bidPx, bidQty) + Entry(write, 49, askPx, askQty)
  }

  function WireFields(compId: Bytes, write: Writer, m: Sent): seq<Field> {
    HeaderFields(TypeByte(m.msg), compId, m.target, m.seqNum) + BodyOf(write, m.msg)
  }

  function Wire(compId: Bytes, write: Writer, m: Sent): Bytes {
    Message(WireFields(compId, write, m))
  }

  // ----- echoed text is free of separators -----

  predicate Clean(msg: Outbound) {
    match msg
    case LogonAck => true
    case Logout(text) => SOH !in text
    case Exec(t, _, _) => SOH !in t.clOrdId && SOH !in t.symbol && t.side != SOH
    case Snapshot(reqId, symbol, _, _, _, _) => SOH !in reqId && SOH !in symbol
  }

  predicate CleanSession(s: Session) {
    && SOH !in s.sender
    && forall k :: 0 <= k < |s.sent| ==> SOH !in s.sent[k].target && Clean(s.sent[k].msg)
  }

  lemma {:induction false} GetIsClean(fs: seq<Field>, tag: int)
    requires WellFormed(fs)
    ensures SOH !in Get(fs, tag)
  {
    if fs != [] && fs[0].tag != tag {
      GetIsClean(fs[1..], tag);
    } else if fs != [] {
      assert WellFormedField(fs[0]);
    }
  }

  lemma TicketIsClean(fs: seq<Field>)
    requires WellFormed(fs)
    ensures var t := TicketOf(fs);
            SOH !in t.clOrdId && SOH !in t.symbol && t.side != SOH
  {
    GetIsClean(fs, TAG_CL_ORD_ID);
    GetIsClean(fs, TAG_SYMBOL);
    GetIsClean(fs, TAG_SIDE);
    var v := Get(fs, TAG_SIDE);
    assert v != [] ==> v[0] in v;
  }

  lemma SendReportsClean(l: Link, ticket: Ticket, rs: seq<Report>)
    requires CleanSession(l.session) && SOH !in ticket.clOrdId && SOH !in ticket.symbol && ticket.side != SOH
    ensures CleanSession(SendReports(l, ticket, rs).session)
  {
    hide SendReports;
    SendReportsKeeps(l, ticket, rs);
    var a, b := l.session.sent, SendReports(l, ticket, rs).session.sent;
    forall k | 0 <= k < |b|
      ensures SOH !in b[k].target && Clean(b[k].msg)
    {
      if k < |a| {
        assert b[..|a|][k] == b[k];
      } else {
        var j := k - |a|;
        assert rs[j] == rs[j] && b[|a| + j] == b[k];
      }
    }
  }

  lemma TextsAreClean()
    ensures SOH !in MALFORMED_TEXT && SOH !in PARSE_TEXT && SOH !in NOT_LOGGED_ON_TEXT && SOH !in BYE_TEXT
  {
  }

  lemma NewOrderClean(read: Reader, l: Link, fs: seq<Field>)
    requires CleanSession(l.session) && WellFormed(fs) && l.session.handled != []
    ensures CleanSession(OnNewOrder(read, l, fs).session)
  {
    hide SendReports, Reports, Place;
    TicketIsClean(fs);
    var qty, price := RealOf(read, fs, TAG_ORDER_QTY), RealOf(read, fs, TAG_PRICE);
    var ticket := TicketOf(fs);
    if !Acceptable(qty, price, ticket.side) {
      SendReportsClean(l, ticket, [Refusal(0, Status.Rejected, qty)]);
    } else {
      var side := if ticket.side == BUY then Buy else Sell;
      var p := Place(l.gate.book, side, Ticks(price), qty.Floor);
      SendReportsClean(Link(l.gate.(book := p.book), Note(l.session, PlaceCall(side, Ticks(price), qty.Floor))),
                       ticket, Reports(p.id, qty.Floor, p.trades));
    }
  }

  lemma CancelClean(l: Link, fs: seq<Field>)
    requires CleanSession(l.session) && WellFormed(fs) && l.session.handled != []
    ensures CleanSession(OnCancel(l, fs).session)
  {
    hide SendReports, Cancel, Rests, OrderIdOf;
    TicketIsClean(fs);
    var id := OrderIdOf(fs);
    SendReportsClean(Link(l.gate.(book := Cancel(l.gate.book, id)), Note(l.session, CancelCall(id))), TicketOf(fs),
                     [Refusal(id, if Rests(l.gate.book, id) then Canceled else Status.Rejected, 0.0)]);
  }

  lemma HandleClean(read: Reader, l: Link, fs: seq<Field>)
    requires CleanSession(l.session) && WellFormed(fs)
    ensures CleanSession(Handle(read, l, fs).session)
  {
    hide OnNewOrder, OnCancel;
    var m := l.(session := l.session.(inSeq := l.session.inSeq + 1, handled := l.session.handled + [fs]));
    NewOrderClean(read, m, fs);
    CancelClean(m, fs);
    TextsAreClean();
    GetIsClean(fs, TAG_SENDER);
    GetIsClean(fs, TAG_MD_REQ_ID);
    GetIsClean(fs, TAG_SYMBOL);
  }

  lemma DrainOnceClean(read: Reader, l: Link)
    requires CleanSession(l.session)
    ensures CleanSession(DrainOnce(read, l).link.session)
  {
    hide Handle, Split, ParseFrom;
    TextsAreClean();
    if Split(l.session.buf).Framed? {
      var f := Split(l.session.buf).frame;
      if Parse(f).Fields? {
        ParsedIsWellFormed(f, 0);
        HandleClean(read, l, Parse(f).fields);
      }
    }
  }

  ghost predicate AllSessionsClean(x: Exchange) {
    forall i :: 0 <= i < |x.sessions| ==> CleanSession(x.sessions[i])
  }

  lemma DidClean(read: Reader, x: Exchange, act: Act)
    requires AllSessionsClean(x)
    ensures AllSessionsClean(Did(read, x, act))
  {
    hide DrainOnce, After;
    match act
    case Connect => OpenedIsClean();
    case Arrive(i, chunk) =>
      if i < |x.sessions| {
        BufferIsNoMatter(x.sessions[i], x.sessions[i].buf + chunk);
      }
    case TakeTurn(i) =>
      if i < |x.sessions| {
        DrainOnceClean(read, Link(x.gate, x.sessions[i]));
      }
    case Direct(op) =>
  }

  lemma {:induction false} AllClean(read: Reader, capacity: nat, acts: seq<Act>)
    ensures AllSessionsClean(DidAll(read, Exchange(Gate(Empty(capacity), 1), []), acts))
  {
    if acts != [] {
      hide Did, AllSessionsClean;
      AllClean(read, capacity, acts[..|acts| - 1]);
      DidClean(read, DidAll(read, Exchange(Gate(Empty(capacity), 1), []), acts[..|acts| - 1]), acts[|acts| - 1]);
    }
  }

  lemma OpenedIsClean()
    ensures CleanSession(Opened())
  {
  }

  lemma BufferIsNoMatter(s: Session, buf: Bytes)
    ensures CleanSession(s.(buf := buf)) <==> CleanSession(s)
  {
  }

  // ----- the wire format -----

  lemma BodyIsWellFormed(write: Writer, msg: Outbound)
    requires Clean(msg) && forall x: real, d: nat :: SOH !in write(x, d)
    ensures WellFormed(BodyOf(write, msg))
  {
    match msg
    case LogonAck =>
      IntTextIsClean(0);
      IntTextIsClean(30);
    case Logout(text) =>
    case Exec(t, execId, r) =>
      DigitsHaveNoSoh(Decimal(r.orderId));
      DigitsHaveNoSoh(Decimal(execId));
      assert WellFormed(ExecNames(t, execId, r)) && WellFormed(ExecNumbers(write, r));
    case Snapshot(reqId, symbol, bidPx, bidQty, askPx, askQty) =>
      IntTextIsClean(2);
      assert WellFormed(Entry(write, 48, bidPx, bidQty)) && WellFormed(Entry(write, 49, askPx, askQty));
  }

  lemma IntTextIsClean(n: nat)
    ensures SOH !in IntText(n)
  {
    DigitsHaveNoSoh(Decimal(n));
  }

  lemma WireIsWellFormed(compId: Bytes, write: Writer, m: Sent)
    requires SOH !in compId && SOH !in m.target && Clean(m.msg) && forall x: real, d: nat :: SOH !in write(x, d)
    ensures WellFormed(WireFields(compId, write, m))
  {
    hide BodyOf, IntText;
    BodyIsWellFormed(write, m.msg);
    IntTextIsClean(m.seqNum);
    var h := HeaderFields(TypeByte(m.msg), compId, m.target, m.seqNum);
    assert WellFormed(h);
  }

  // ----- what the fields of a message say, by number -----

  /** The codes of FIX 4.4 for what happened to an order. */
  predicate Codes(status: Status, b: Byte) {
    && (b == 48 <==> status == New) && (b == 49 <==> status == PartialFill) && (b == 50 <==> status == FullFill)
    && (b == 52 <==> status == Canceled) && (b == 56 <==> status == Status.Rejected)
  }

  /** Field `n` of the message is `v`. */
  predicate Says(fs: seq<Field>, n: int, v: Bytes) {
    Get(fs, n) == v
  }

  /** The body stands behind the two framing fields and the four of the header. */
  lemma BodyStands(compId: Bytes, write: Writer, m: Sent)
    ensures var g := Framing(WireFields(compId, write, m));
            && |g| == |BodyOf(write, m.msg)| + 7 && g[6..|g| - 1] == BodyOf(write, m.msg)
            && g[0].tag == 8 && g[1].tag == 9 && g[2].tag == 35 && g[3].tag == 49 && g[4].tag == 56 && g[5].tag == 34
  {
    hide BodyOf, IntText, LengthText, Encode, Checksum, Padded;
  }

  lemma HeaderSays(compId: Bytes, write: Writer, m: Sent)
    ensures var g := Framing(WireFields(compId, write, m));
            && Says(g, 49, compId) && Says(g, 56, m.target) && Says(g, 34, Decimal(m.seqNum))
            && Says(g, 35, [if m.msg.LogonAck? then 65 else if m.msg.Logout? then 53
                            else if m.msg.Exec? then 56 else 87])
  {
    hide BodyOf, Decimal, LengthText, Encode, Checksum, Padded;
    var g := Framing(WireFields(compId, write, m));
    GetIsFirst(g, 35, 2);
    GetIsFirst(g, 49, 3);
    GetIsFirst(g, 56, 4);
    GetIsFirst(g, 34, 5);
  }

  /** The tags of an execution report's body, in order. */
  const EXEC_TAGS: seq<int> := [37, 11, 17, 150, 39, 55, 54, 38, 14, 151, 32, 31, 6]

  lemma ExecBody(write: Writer, msg: Outbound, i: nat)
    requires msg.Exec? && i < 13
    ensures |BodyOf(write, msg)| == 13 && BodyOf(write, msg)[i].tag == EXEC_TAGS[i]
  {
    hide Decimal, StatusByte;
  }

  lemma ExecFieldFound(compId: Bytes, write: Writer, m: Sent, i: nat)
    requires m.msg.Exec? && i < 13
    ensures |BodyOf(write, m.msg)| == 13
    ensures Says(Framing(WireFields(compId, write, m)), EXEC_TAGS[i], BodyOf(write, m.msg)[i].value)
  {
    hide WireFields, Framing, BodyOf;
    var g, body := Framing(WireFields(compId, write, m)), BodyOf(write, m.msg);
    BodyStands(compId, write, m);
    ExecBody(write, m.msg, i);
    assert |g| == 20;
    forall j | 0 <= j <= i
      ensures |body| == 13 && g[j + 6].tag == EXEC_TAGS[j] && g[j + 6] == body[j]
    {
      ExecBody(write, m.msg, j);
      assert g[6..|g| - 1][j] == g[j + 6];
    }
    forall j | 0 <= j < i + 6
      ensures g[j].tag != EXEC_TAGS[i]
    {
      if j >= 6 {
        assert g[(j - 6) + 6].tag == EXEC_TAGS[j - 6];
      }
    }
    GetIsFirst(g, EXEC_TAGS[i], i + 6);
  }

  lemma StatusIsCoded(status: Status)
    ensures Codes(status, StatusByte(status))
  {
  }

  /** The fields say what the report says, under the tags of FIX 4.4. */
  predicate TellsReport(g: seq<Field>, write: Writer, msg: Outbound)
    requires msg.Exec?
  {
    var t, r := msg.ticket, msg.report;
    && Says(g, 37, Decimal(r.orderId)) && Says(g, 11, t.clOrdId) && Says(g, 17, [69] + Decimal(msg.execId))
    && |Get(g, 150)| == 1 && Codes(r.execType, Get(g, 150)[0])
    && |Get(g, 39)| == 1 && Codes(r.ordStatus, Get(g, 39)[0])
    && Says(g, 55, t.symbol) && Says(g, 54, [t.side]) && Says(g, 38, write(r.orderQty, 0))
    && Says(g, 14, write(r.cumQty as real, 0)) && Says(g, 151, write(r.leavesQty as real, 0))
    && Says(g, 32, write(r.lastQty as real, 0)) && Says(g, 31, write(r.lastPx, 2)) && Says(g, 6, write(r.avgPx, 4))
  }

  /** The body of a snapshot: the request's id if it had one, the symbol, and two entries, bid and then offer. */
  predicate TellsSnapshot(body: seq<Field>, write: Writer, msg: Outbound)
    requires msg.Snapshot?
  {
    body == (if msg.reqId == [] then [] else [Field(262, msg.reqId)])
            + [Field(55, msg.symbol), Field(268, [50]),
               Field(269, [48]), Field(270, write(msg.bidPx, 2)), Field(271, write(msg.bidQty as real, 0)),
               Field(269, [49]), Field(270, write(msg.askPx, 2)), Field(271, write(msg.askQty as real, 0))]
  }

  lemma ExecSays(compId: Bytes, write: Writer, m: Sent)
    requires m.msg.Exec?
    ensures TellsReport(Framing(WireFields(compId, write, m)), write, m.msg)
  {
    hide WireFields, Framing, Decimal, StatusByte, Get, Codes;
    StatusIsCoded(m.msg.report.execType);
    StatusIsCoded(m.msg.report.ordStatus);
    ExecFieldFound(compId, write, m, 0);
    ExecFieldFound(compId, write, m, 1);
    ExecFieldFound(compId, write, m, 2);
    ExecFieldFound(compId, write, m, 3);
    ExecFieldFound(compId, write, m, 4);
    ExecFieldFound(compId, write, m, 5);
    ExecFieldFound(compId, write, m, 6);
    ExecFieldFound(compId, write, m, 7);
    ExecFieldFound(compId, write, m, 8);
    ExecFieldFound(compId, write, m, 9);
    ExecFieldFound(compId, write, m, 10);
    ExecFieldFound(compId, write, m, 11);
    ExecFieldFound(compId, write, m, 12);
  }

  lemma SnapshotSays(compId: Bytes, write: Writer, m: Sent)
    requires m.msg.Snapshot?
    ensures var g := Framing(WireFields(compId, write, m));
            |g| >= 7 && TellsSnapshot(g[6..|g| - 1], write, m.msg)
  {
    hide WireFields, Framing;
    BodyStands(compId, write, m);
    assert IntText(2) == [50];
  }

  /** The fields of a sent message say what the message says. */
  predicate Tells(g: seq<Field>, compId: Bytes, write: Writer, m: Sent) {
    && Says(g, 49, compId) && Says(g, 56, m.target) && Says(g, 34, Decimal(m.seqNum))
    && Says(g, 35, [if m.msg.LogonAck? then 65 else if m.msg.Logout? then 53 else if m.msg.Exec? then 56 else 87])
    && (m.msg.Exec? ==> TellsReport(g, write, m.msg))
    && (m.msg.Snapshot? ==> |g| >= 7 && TellsSnapshot(g[6..|g| - 1], write, m.msg))
  }

  lemma WireTells(compId: Bytes, write: Writer, m: Sent)
    ensures Tells(Framing(WireFields(compId, write, m)), compId, write, m)
  {
    hide WireFields, Framing, Says, TellsReport, TellsSnapshot;
    HeaderSays(compId, write, m);
    if m.msg.Exec? {
      ExecSays(compId, write, m);
    } else if m.msg.Snapshot? {
      SnapshotSays(compId, write, m);
    }
  }

  /**
    In every run, the k-th message a session puts on the wire is read back by the gateway's own
    parser, and its fields, by their numbers, say what the message says, under MsgSeqNum k; and it is
    one whole frame exactly when its body has at most 999999 bytes.
   */
  lemma OutboundIsReadable(read: Reader, capacity: nat, acts: seq<Act>, i: nat, k: nat, compId: Bytes, write: Writer)
    requires SOH !in compId && forall x: real, d: nat :: SOH !in write(x, d)
    requires var x := DidAll(read, Exchange(Gate(Empty(capacity), 1), []), acts);
             i < |x.sessions| && k < |x.sessions[i].sent|
    ensures var m := DidAll(read, Exchange(Gate(Empty(capacity), 1), []), acts).sessions[i].sent[k];
            var fs := WireFields(compId, write, m);
            && m.seqNum == k + 1
            && Parse(Wire(compId, write, m)) == Fields(Framing(fs)) && Tells(Framing(fs), compId, write, m)
            && (Split(Wire(compId, write, m)) == Framed(Wire(compId, write, m)) <==> |Encode(fs)| <= 999_999)
  {
    hide Did, Parse, Split, Message, Encode, Framing, WireFields, Tells;
    var x := DidAll(read, Exchange(Gate(Empty(capacity), 1), []), acts);
    var m := x.sessions[i].sent[k];
    SessionSafety(read, capacity, acts);
    AllClean(read, capacity, acts);
    assert SessionOk(x.sessions[i]) && CleanSession(x.sessions[i]);
    WireIsWellFormed(compId, write, m);
    MessageParses(WireFields(compId, write, m));
    MessageIsOneFrame(WireFields(compId, write, m));
    WireTells(compId, write, m);
  }
}
