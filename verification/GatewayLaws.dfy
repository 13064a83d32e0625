/** What holds of every session in every interleaving, and of the book the sessions share. */
module GatewayLaws {
  import opened Orders
  import opened PriorityBook
  import opened BookInvariant
  import opened BookRuns
  import opened FixText
  import opened FixFrames
  import opened FixFields
  import opened FixMessages
  import opened ExecReports
  import opened Gateways

  // ----- what one message does to a session -----

  /** The message type, field 35, starts with this byte. */
  predicate Typed(fs: seq<Field>, b: Byte) {
    Get(fs, 35) != [] && Get(fs, 35)[0] == b
  }

  predicate IsLogon(fs: seq<Field>) {
    Typed(fs, 65)
  }

  /** Outbound sequence numbers are 1, 2, 3, ...; inbound messages are counted. */
  predicate Numbered(s: Session) {
    && s.outSeq == |s.sent| + 1 && s.inSeq == |s.handled|
    && forall k :: 0 <= k < |s.sent| ==> s.sent[k].seqNum == k + 1
  }

  /** One of the first `n` messages is a logon. */
  predicate LogonBefore(hs: seq<seq<Field>>, n: int) {
    exists j :: 0 <= j < n && j < |hs| && IsLogon(hs[j])
  }

  /** The engine is reached only for a message that comes after a logon. */
  predicate CallsAfterLogon(s: Session) {
    && (s.loggedOn ==> LogonBefore(s.handled, |s.handled|))
    && forall c :: 0 <= c < |s.calls| ==>
         s.calls[c].at < |s.handled| && LogonBefore(s.handled, s.calls[c].at)
  }

  predicate SessionOk(s: Session) {
    Numbered(s) && CallsAfterLogon(s)
  }

  lemma EmitKeeps(s: Session, msg: Outbound)
    requires SessionOk(s)
    ensures SessionOk(Emit(s, msg))
  {
  }

  lemma {:induction false} SendReportsOk(l: Link, ticket: Ticket, rs: seq<Report>)
    requires SessionOk(l.session)
    ensures SessionOk(SendReports(l, ticket, rs).session)
  {
    if rs != [] {
      hide SessionOk, Emit;
      SendReportsOk(l, ticket, rs[..|rs| - 1]);
      var m := SendReports(l, ticket, rs[..|rs| - 1]);
      EmitKeeps(m.session, Exec(ticket, m.gate.nextExec, rs[|rs| - 1]));
    }
  }

  lemma NoteKeeps(s: Session, call: EngineCall)
    requires SessionOk(s) && s.handled != []
    requires LogonBefore(s.handled, |s.handled| - 1)
    ensures SessionOk(Note(s, call))
  {
  }

  lemma DispatchKeepsOk(read: Reader, l: Link, fs: seq<Field>)
    requires SessionOk(l.session) && l.session.handled != []
    requires l.session.handled[|l.session.handled| - 1] == fs
    requires l.session.loggedOn ==>
               LogonBefore(l.session.handled, |l.session.handled| - 1)
    ensures SessionOk(Dispatch(read, l, fs).session)
  {
    var s, t := l.session, TypeOf(fs);
    if t == LOGON {
      var on := s.(sender := Get(fs, TAG_SENDER), loggedOn := true);
      assert IsLogon(on.handled[|on.handled| - 1]);
      assert LogonBefore(on.handled, |on.handled|);
      assert SessionOk(on);
      EmitKeeps(on, LogonAck);
    } else if !s.loggedOn {
      EmitKeeps(s, Logout(NOT_LOGGED_ON_TEXT));
    } else {
      DispatchLoggedOn(read, l, fs);
    }
  }

  lemma DispatchLoggedOn(read: Reader, l: Link, fs: seq<Field>)
    requires SessionOk(l.session) && l.session.handled != [] && l.session.loggedOn && TypeOf(fs) != LOGON
    requires LogonBefore(l.session.handled, |l.session.handled| - 1)
    ensures SessionOk(Dispatch(read, l, fs).session)
  {
    hide CallsAfterLogon, SendReports, Place, Cancel, Rests, Reports, SnapshotOf, LogonBefore;
    var s, t := l.session, TypeOf(fs);
    if t == LOGOUT {
      EmitKeeps(s, Logout(BYE_TEXT));
      StoppedIsOk(Emit(s, Logout(BYE_TEXT)));
    } else if t == NEW_ORDER {
      NewOrderOk(read, l, fs);
    } else if t == CANCEL {
      var id := OrderIdOf(fs);
      NoteKeeps(s, CancelCall(id));
      SendReportsOk(Link(l.gate.(book := Cancel(l.gate.book, id)), Note(s, CancelCall(id))), TicketOf(fs),
                    [Refusal(id, if Rests(l.gate.book, id) then Canceled else Status.Rejected, 0.0)]);
    } else if t == MD_REQUEST {
      NoteKeeps(s, QueryCall);
      EmitKeeps(Note(s, QueryCall), SnapshotOf(l.gate.book, Get(fs, TAG_MD_REQ_ID), Get(fs, TAG_SYMBOL)));
    }
  }

  lemma StoppedIsOk(s: Session)
    ensures SessionOk(s.(running := false)) <==> SessionOk(s)
  {
  }

  lemma NewOrderOk(read: Reader, l: Link, fs: seq<Field>)
    requires SessionOk(l.session) && l.session.handled != []
    requires LogonBefore(l.session.handled, |l.session.handled| - 1)
    ensures SessionOk(OnNewOrder(read, l, fs).session)
  {
    hide SessionOk, SendReports, Place, Reports, LogonBefore;
    var qty, price := RealOf(read, fs, TAG_ORDER_QTY), RealOf(read, fs, TAG_PRICE);
    var ticket := TicketOf(fs);
    if !Acceptable(qty, price, ticket.side) {
      SendReportsOk(l, ticket, [Refusal(0, Status.Rejected, qty)]);
    } else {
      var side := if ticket.side == BUY then Buy else Sell;
      var r := Place(l.gate.book, side, Ticks(price), qty.Floor);
      NoteKeeps(l.session, PlaceCall(side, Ticks(price), qty.Floor));
      SendReportsOk(Link(l.gate.(book := r.book), Note(l.session, PlaceCall(side, Ticks(price), qty.Floor))),
                    ticket, Reports(r.id, qty.Floor, r.trades));
    }
  }

  lemma LogonStays(hs: seq<seq<Field>>, fs: seq<Field>, n: int)
    requires LogonBefore(hs, n)
    ensures LogonBefore(hs + [fs], n)
  {
    hide IsLogon;
    var j :| 0 <= j < n && j < |hs| && IsLogon(hs[j]);
    assert (hs + [fs])[j] == hs[j];
  }

  /** Recording a message as handled keeps the numbering and the logon discipline. */
  lemma RecordKeepsOk(s: Session, fs: seq<Field>)
    requires SessionOk(s)
    ensures SessionOk(s.(inSeq := s.inSeq + 1, handled := s.handled + [fs]))
    ensures s.loggedOn ==> LogonBefore(s.handled + [fs], |s.handled|)
  {
    hide LogonBefore;
    var hs := s.handled + [fs];
    if s.loggedOn {
      LogonStays(s.handled, fs, |s.handled|);
      LogonLater(hs, |s.handled|, |hs|);
    }
    forall c | 0 <= c < |s.calls|
      ensures s.calls[c].at < |hs| && LogonBefore(hs, s.calls[c].at)
    {
      LogonStays(s.handled, fs, s.calls[c].at);
    }
  }

  lemma LogonLater(hs: seq<seq<Field>>, n: int, m: int)
    requires LogonBefore(hs, n) && n <= m
    ensures LogonBefore(hs, m)
  {
  }

  lemma HandleKeepsOk(read: Reader, l: Link, fs: seq<Field>)
    requires SessionOk(l.session)
    ensures SessionOk(Handle(read, l, fs).session)
  {
    hide Dispatch, SessionOk, LogonBefore;
    RecordKeepsOk(l.session, fs);
    var s := l.session.(inSeq := l.session.inSeq + 1, handled := l.session.handled + [fs]);
    DispatchKeepsOk(read, l.(session := s), fs);
  }

  lemma DrainOnceKeepsOk(read: Reader, l: Link)
    requires SessionOk(l.session)
    ensures SessionOk(DrainOnce(read, l).link.session)
  {
    hide Handle, Split, Parse;
    EmitKeeps(l.session, Logout(MALFORMED_TEXT));
    EmitKeeps(l.session, Logout(PARSE_TEXT));
    if Split(l.session.buf).Framed? && Parse(Split(l.session.buf).frame).Fields? {
      HandleKeepsOk(read, l, Parse(Split(l.session.buf).frame).fields);
    }
  }

  // ----- execution ids -----

  /** What a step adds to the outbound log carries execution ids from the shared counter, in order. */
  predicate Fresh(l: Link, r: Link) {
    var a, b := l.session.sent, r.session.sent;
    && l.gate.nextExec <= r.gate.nextExec && |a| <= |b| && b[..|a|] == a
    && (forall k :: |a| <= k < |b| && b[k].msg.Exec? ==> l.gate.nextExec <= b[k].msg.execId < r.gate.nextExec)
    && (forall k, m :: |a| <= k < m < |b| && b[k].msg.Exec? && b[m].msg.Exec? ==> b[k].msg.execId < b[m].msg.execId)
  }

  lemma SendReportsFresh(l: Link, ticket: Ticket, rs: seq<Report>)
    ensures Fresh(l, SendReports(l, ticket, rs))
  {
    hide SendReports;
    SendReportsKeeps(l, ticket, rs);
    var a, b := l.session.sent, SendReports(l, ticket, rs).session.sent;
    forall k | |a| <= k < |b|
      ensures b[k].msg == Exec(ticket, l.gate.nextExec + (k - |a|), rs[k - |a|])
    {
      var j := k - |a|;
      assert rs[j] == rs[j] && b[|a| + j] == b[k];
    }
  }

  /** Only the log and the counter matter. */
  lemma FreshFrom(l: Link, m: Link, r: Link)
    requires Fresh(m, r) && m.session.sent == l.session.sent && m.gate.nextExec == l.gate.nextExec
    ensures Fresh(l, r)
  {
  }

  lemma NewOrderFresh(read: Reader, l: Link, fs: seq<Field>)
    requires l.session.handled != []
    ensures Fresh(l, OnNewOrder(read, l, fs))
  {
    hide SendReports, Place, Reports, Fresh;
    var qty, price := RealOf(read, fs, TAG_ORDER_QTY), RealOf(read, fs, TAG_PRICE);
    var ticket := TicketOf(fs);
    if !Acceptable(qty, price, ticket.side) {
      SendReportsFresh(l, ticket, [Refusal(0, Status.Rejected, qty)]);
    } else {
      var side := if ticket.side == BUY then Buy else Sell;
      var r := Place(l.gate.book, side, Ticks(price), qty.Floor);
      var m := Link(l.gate.(book := r.book), Note(l.session, PlaceCall(side, Ticks(price), qty.Floor)));
      SendReportsFresh(m, ticket, Reports(r.id, qty.Floor, r.trades));
      FreshFrom(l, m, OnNewOrder(read, l, fs));
    }
  }

  lemma CancelFresh(l: Link, fs: seq<Field>)
    requires l.session.handled != []
    ensures Fresh(l, OnCancel(l, fs))
  {
    hide SendReports, Cancel, Rests, Fresh, OrderIdOf;
    var id := OrderIdOf(fs);
    var m := Link(l.gate.(book := Cancel(l.gate.book, id)), Note(l.session, CancelCall(id)));
    SendReportsFresh(m, TicketOf(fs), [Refusal(id, if Rests(l.gate.book, id) then Canceled else Status.Rejected, 0.0)]);
    FreshFrom(l, m, OnCancel(l, fs));
  }

  lemma HandleFresh(read: Reader, l: Link, fs: seq<Field>)
    ensures Fresh(l, Handle(read, l, fs))
  {
    hide Fresh, Dispatch;
    var m := l.(session := l.session.(inSeq := l.session.inSeq + 1, handled := l.session.handled + [fs]));
    DispatchFresh(read, m, fs);
    FreshFrom(l, m, Handle(read, l, fs));
  }

  lemma EmitFresh(l: Link, m: Link, msg: Outbound)
    requires m.session.sent == l.session.sent && m.gate == l.gate && !msg.Exec?
    ensures Fresh(l, m.(session := Emit(m.session, msg)))
    ensures Fresh(l, m.(session := Emit(m.session, msg).(running := false)))
    ensures Fresh(l, l)
  {
  }

  lemma DispatchFresh(read: Reader, l: Link, fs: seq<Field>)
    requires l.session.handled != []
    ensures Fresh(l, Dispatch(read, l, fs))
  {
    hide Fresh, OnNewOrder, OnCancel, Emit;
    NewOrderFresh(read, l, fs);
    CancelFresh(l, fs);
    EmitFresh(l, l, Logout(NOT_LOGGED_ON_TEXT));
    EmitFresh(l, l, Logout(BYE_TEXT));
    EmitFresh(l, l.(session := l.session.(sender := Get(fs, TAG_SENDER), loggedOn := true)), LogonAck);
    EmitFresh(l, l.(session := Note(l.session, QueryCall)),
              SnapshotOf(l.gate.book, Get(fs, TAG_MD_REQ_ID), Get(fs, TAG_SYMBOL)));
  }

  lemma DrainOnceFresh(read: Reader, l: Link)
    ensures Fresh(l, DrainOnce(read, l).link)
  {
    hide Handle, Split, Parse;
    if Split(l.session.buf).Framed? && Parse(Split(l.session.buf).frame).Fields? {
      HandleFresh(read, l, Parse(Split(l.session.buf).frame).fields);
    }
  }

  // ----- the shared book -----

  lemma HandleKeepsBook(read: Reader, l: Link, fs: seq<Field>)
    requires Inv(l.gate.book)
    ensures Inv(Handle(read, l, fs).gate.book)
  {
    hide Inv, SendReports, Reports, Place, Cancel, Rests, SnapshotOf, RealOf, OrderIdOf, Ticks;
    var s := l.session.(inSeq := l.session.inSeq + 1, handled := l.session.handled + [fs]);
    var qty, price := RealOf(read, fs, TAG_ORDER_QTY), RealOf(read, fs, TAG_PRICE);
    var ticket, id := TicketOf(fs), OrderIdOf(fs);
    var side := if ticket.side == BUY then Buy else Sell;
    var p := Place(l.gate.book, side, Ticks(price), qty.Floor);
    PlaceKeepsInv(l.gate.book, side, Ticks(price), qty.Floor);
    CancelKeepsInv(l.gate.book, id);
    SendReportsKeeps(l.(session := s), ticket, [Refusal(0, Status.Rejected, qty)]);
    SendReportsKeeps(Link(l.gate.(book := p.book), Note(s, PlaceCall(side, Ticks(price), qty.Floor))),
                     ticket, Reports(p.id, qty.Floor, p.trades));
    SendReportsKeeps(Link(l.gate.(book := Cancel(l.gate.book, id)), Note(s, CancelCall(id))), ticket,
                     [Refusal(id, if Rests(l.gate.book, id) then Canceled else Status.Rejected, 0.0)]);
  }

  lemma DrainOnceKeepsBook(read: Reader, l: Link)
    requires Inv(l.gate.book)
    ensures Inv(DrainOnce(read, l).link.gate.book)
  {
    hide Handle, Split, Parse, Inv;
    if Split(l.session.buf).Framed? && Parse(Split(l.session.buf).frame).Fields? {
      HandleKeepsBook(read, l, Parse(Split(l.session.buf).frame).fields);
    }
  }

  // ----- many sessions, any interleaving -----

  datatype Exchange = Exchange(gate: Gate, sessions: seq<Session>)

  /** A session connects, receives bytes or takes one turn of its loop, or something else uses the engine. */
  datatype Act = Connect | Arrive(i: nat, chunk: Bytes) | TakeTurn(i: nat) | Direct(op: Op)

  function Did(read: Reader, x: Exchange, act: Act): Exchange {
    match act
    case Connect => x.(sessions := x.sessions + [Opened()])
    case Arrive(i, chunk) =>
      if i < |x.sessions| then
        x.(sessions := x.sessions[i := x.sessions[i].(buf := x.sessions[i].buf + chunk)])
      else x
    case TakeTurn(i) =>
      if i < |x.sessions| then
        var r := DrainOnce(read, Link(x.gate, x.sessions[i])).link;
        Exchange(r.gate, x.sessions[i := r.session])
      else x
    case Direct(op) => x.(gate := x.gate.(book := After(x.gate.book, op)))
  }

  function DidAll(read: Reader, x: Exchange, acts: seq<Act>): Exchange {
    if acts == [] then x else Did(read, DidAll(read, x, acts[..|acts| - 1]), acts[|acts| - 1])
  }

  function ExecIdAt(x: Exchange, i: nat, k: nat): int
    requires i < |x.sessions| && k < |x.sessions[i].sent|
  {
    if x.sessions[i].sent[k].msg.Exec? then x.sessions[i].sent[k].msg.execId else -1
  }

  /** Every execution report has its own id, gateway-wide, drawn from the shared counter. */
  ghost predicate ExecIdsUnique(x: Exchange) {
    && (forall i, k :: 0 <= i < |x.sessions| && 0 <= k < |x.sessions[i].sent| ==> ExecIdAt(x, i, k) < x.gate.nextExec)
    && (forall i, k, j, m | 0 <= i < |x.sessions| && 0 <= k < |x.sessions[i].sent|
                            && 0 <= j < |x.sessions| && 0 <= m < |x.sessions[j].sent|
                            && (i != j || k != m) && ExecIdAt(x, i, k) >= 0 ::
          ExecIdAt(x, i, k) != ExecIdAt(x, j, m))
  }

  ghost predicate ExchangeOk(x: Exchange) {
    && Inv(x.gate.book) && ExecIdsUnique(x)
    && forall i :: 0 <= i < |x.sessions| ==> SessionOk(x.sessions[i])
  }

  lemma TurnKeepsIds(read: Reader, x: Exchange, i: nat)
    requires ExecIdsUnique(x) && i < |x.sessions|
    ensures ExecIdsUnique(Did(read, x, TakeTurn(i)))
  {
    hide DrainOnce;
    DrainOnceFresh(read, Link(x.gate, x.sessions[i]));
    var y := Did(read, x, TakeTurn(i));
    var n := |x.sessions[i].sent|;
    forall j, m | 0 <= j < |y.sessions| && 0 <= m < |y.sessions[j].sent|
      ensures ExecIdAt(y, j, m) < y.gate.nextExec
      ensures j != i || m < n ==> m < |x.sessions[j].sent| && ExecIdAt(y, j, m) == ExecIdAt(x, j, m)
      ensures j == i && m >= n ==> ExecIdAt(y, j, m) == -1 || ExecIdAt(y, j, m) >= x.gate.nextExec
    {
      if j == i && m < n {
        assert y.sessions[i].sent[..n][m] == y.sessions[i].sent[m];
      }
      if j != i || m < n {
        assert ExecIdAt(x, j, m) < x.gate.nextExec;
      }
    }
  }

  lemma DidKeeps(read: Reader, x: Exchange, act: Act)
    requires ExchangeOk(x)
    ensures ExchangeOk(Did(read, x, act))
  {
    match act
    case Connect => ConnectKeeps(read, x);
    case Arrive(i, chunk) => ArriveKeeps(read, x, i, chunk);
    case TakeTurn(i) =>
      if i < |x.sessions| {
        TurnKeeps(read, x, i);
      }
    case Direct(op) =>
      DirectKeeps(read, x, op);
  }

  lemma ConnectKeeps(read: Reader, x: Exchange)
    requires ExchangeOk(x)
    ensures ExchangeOk(Did(read, x, Connect))
  {
    hide Inv;
    var y := Did(read, x, Connect);
    var n := |x.sessions|;
    assert SessionOk(Opened()) && y.sessions[n].sent == [];
    assert forall i :: 0 <= i < n ==> y.sessions[i] == x.sessions[i];
    assert forall i, k :: 0 <= i < n && 0 <= k < |x.sessions[i].sent| ==> ExecIdAt(y, i, k) == ExecIdAt(x, i, k);
  }

  lemma SameLogsSameIds(x: Exchange, y: Exchange)
    requires ExecIdsUnique(x) && y.gate.nextExec == x.gate.nextExec && |y.sessions| == |x.sessions|
    requires forall j :: 0 <= j < |x.sessions| ==> y.sessions[j].sent == x.sessions[j].sent
    ensures ExecIdsUnique(y)
  {
    assert forall j, k :: 0 <= j < |x.sessions| && 0 <= k < |x.sessions[j].sent| ==>
        ExecIdAt(y, j, k) == ExecIdAt(x, j, k);
  }

  lemma ArriveKeeps(read: Reader, x: Exchange, i: nat, chunk: Bytes)
    requires ExchangeOk(x)
    ensures ExchangeOk(Did(read, x, Arrive(i, chunk)))
  {
    hide Inv, ExecIdsUnique;
    SameLogsSameIds(x, Did(read, x, Arrive(i, chunk)));
    if i < |x.sessions| {
      assert SessionOk(x.sessions[i]);
      assert SessionOk(x.sessions[i].(buf := x.sessions[i].buf + chunk));
    }
  }

  lemma TurnKeeps(read: Reader, x: Exchange, i: nat)
    requires ExchangeOk(x) && i < |x.sessions|
    ensures ExchangeOk(Did(read, x, TakeTurn(i)))
  {
    hide Inv, DrainOnce, SessionOk, ExecIdsUnique;
    TurnKeepsIds(read, x, i);
    DrainOnceKeepsOk(read, Link(x.gate, x.sessions[i]));
    DrainOnceKeepsBook(read, Link(x.gate, x.sessions[i]));
  }

  lemma DirectKeeps(read: Reader, x: Exchange, op: Op)
    requires ExchangeOk(x)
    ensures ExchangeOk(Did(read, x, Direct(op)))
  {
    hide Inv, Place, Cancel, ExecIdsUnique;
    SameLogsSameIds(x, Did(read, x, Direct(op)));
    match op {
      case PlaceOp(side, price, qty) => PlaceKeepsInv(x.gate.book, side, price, qty);
      case CancelOp(id) => CancelKeepsInv(x.gate.book, id);
    }
  }

  /**
    Session safety, for any number of sessions in any interleaving: no order, cancel or book query
    reaches the engine before a Logon of that session was handled; outbound MsgSeqNum values are
    1, 2, 3, ... without gap or repeat; execution ids are unique across sessions; the book stays valid.
   */
  lemma {:induction false} SessionSafety(read: Reader, capacity: nat, acts: seq<Act>)
    ensures ExchangeOk(DidAll(read, Exchange(Gate(Empty(capacity), 1), []), acts))
  {
    if acts != [] {
      hide Did, ExchangeOk;
      SessionSafety(read, capacity, acts[..|acts| - 1]);
      DidKeeps(read, DidAll(read, Exchange(Gate(Empty(capacity), 1), []), acts[..|acts| - 1]), acts[|acts| - 1]);
    }
  }

  /**
    An accepted order of positive quantity: the messages sent are its reports, in order, under the
    session's next sequence numbers, and the last open quantity reported is what rests in the shared
    book under the order's id unless nothing crossed and the pool was exhausted.
   */
  lemma AcceptedOrder(read: Reader, l: Link, fs: seq<Field>)
    requires Inv(l.gate.book) && l.session.handled != []
    requires Acceptable(RealOf(read, fs, TAG_ORDER_QTY), RealOf(read, fs, TAG_PRICE), SideByte(fs))
    ensures var qty, price := RealOf(read, fs, TAG_ORDER_QTY).Floor, Ticks(RealOf(read, fs, TAG_PRICE));
            var side := if SideByte(fs) == BUY then Buy else Sell;
            var p := Place(l.gate.book, side, price, qty);
            var rs := Reports(p.id, qty, p.trades);
            var r := OnNewOrder(read, l, fs);
            && r.gate.book == p.book && |rs| >= 1
            && |r.session.sent| == |l.session.sent| + |rs|
            && (forall k :: 0 <= k < |rs| ==>
                  r.session.sent[|l.session.sent| + k]
                  == Sent(l.session.outSeq + k, l.session.sender, Exec(TicketOf(fs), l.gate.nextExec + k, rs[k])))
            && (rs[|rs| - 1].leavesQty == Resting(r.gate.book, p.id) <==>
                  !(qty > 0 && l.gate.book.free == 0
                    && CrossingQty(SideOf(l.gate.book, side.Opposite()), side, price) == 0))
  {
    hide Inv, Place, SendReports, Reports, Resting, CrossingQty;
    var qty, price := RealOf(read, fs, TAG_ORDER_QTY).Floor, Ticks(RealOf(read, fs, TAG_PRICE));
    var side := if SideByte(fs) == BUY then Buy else Sell;
    var p := Place(l.gate.book, side, price, qty);
    ReportsAgreeWithBook(l.gate.book, side, price, qty);
    SendReportsKeeps(Link(l.gate.(book := p.book), Note(l.session, PlaceCall(side, price, qty))), TicketOf(fs),
                     Reports(p.id, qty, p.trades));
  }

  // ----- the recorded calls are the uses of the engine -----

  /** What a call does to the book. */
  function Applied(b: Book, call: EngineCall): Book {
    match call
    case PlaceCall(side, price, qty) => Place(b, side, price, qty).book
    case CancelCall(id) => Cancel(b, id)
    case QueryCall => b
  }

  /** The best bid, in hundredths, and all that is bid there; no quantity for a price that is not positive. */
  ghost predicate TellsBid(b: Book, px: real, qty: int) {
    if b.bids == [] then px == 0.0 && qty == 0
    else
      exists i :: 0 <= i < |b.bids| && px * 100.0 == b.bids[i].price as real
                  && (forall j :: 0 <= j < |b.bids| ==> b.bids[j].price <= b.bids[i].price)
                  && (if b.bids[i].price > 0 then qty == QtyAt(b.bids, b.bids[i].price) > 0 else qty == 0)
  }

  /** The best ask; prices from the largest 64-bit integer on count as no ask. */
  ghost predicate TellsAsk(b: Book, px: real, qty: int) {
    if forall j :: 0 <= j < |b.asks| ==> b.asks[j].price >= 0x7fff_ffff_ffff_ffff then px == 0.0 && qty == 0
    else
      exists i :: 0 <= i < |b.asks| && px * 100.0 == b.asks[i].price as real
                  && (forall j :: 0 <= j < |b.asks| ==> b.asks[j].price >= b.asks[i].price)
                  && qty == QtyAt(b.asks, b.asks[i].price) > 0
  }

  ghost predicate TellsTop(b: Book, bidPx: real, bidQty: int, askPx: real, askQty: int) {
    && TellsBid(b, bidPx, bidQty) && TellsAsk(b, askPx, askQty)
    && (bidQty > 0 && askQty > 0 ==> bidPx < askPx)
  }

  lemma BidIsTold(b: Book)
    requires Inv(b)
    ensures TellsBid(b, Px(BestBid(b)), if BestBid(b) > 0 then QtyAt(b.bids, BestBid(b)) else 0)
  {
    hide QtyAt, Px;
    PxTimes(BestBid(b));
    if b.bids == [] {
      assert Px(0) * 100.0 == 0.0;
    } else {
      QtyAtFront(b.bids);
      assert forall j :: 0 < j < |b.bids| ==> Ahead(Buy, b.bids[0], b.bids[j]);
    }
  }

  lemma AskIsTold(b: Book)
    requires Inv(b)
    ensures var ask := BestAsk(b);
            TellsAsk(b, if ask < INT64_MAX then Px(ask) else 0.0, if ask < INT64_MAX then QtyAt(b.asks, ask) else 0)
  {
    hide QtyAt, Px;
    PxTimes(BestAsk(b));
    if b.asks != [] {
      QtyAtFront(b.asks);
      assert forall j :: 0 < j < |b.asks| ==> Ahead(Sell, b.asks[0], b.asks[j]);
    }
  }

  /** A snapshot shows the best bid and the best ask of the book, each with all its quantity. */
  lemma SnapshotTellsTop(b: Book, reqId: Bytes, symbol: Bytes)
    requires Inv(b)
    ensures var m := SnapshotOf(b, reqId, symbol);
            && m.Snapshot? && m.reqId == reqId && m.symbol == symbol
            && TellsTop(b, m.bidPx, m.bidQty, m.askPx, m.askQty)
  {
    BidIsTold(b);
    AskIsTold(b);
    hide TellsBid, TellsAsk, QtyAt;
    if b.bids != [] && b.asks != [] {
      assert b.bids[0].price < b.asks[0].price;
    }
  }

  /**
    From `l` to `r` the book changed by exactly the one call recorded, or not at all if none was; and a
    snapshot was sent only with a recorded query, and shows the top of that very book.
   */
  ghost predicate Accounted(l: Link, r: Link) {
    var a, b := l.session.calls, r.session.calls;
    && |l.session.sent| <= |r.session.sent|
    && (if b == a then r.gate.book == l.gate.book
        else |b| == |a| + 1 && b[..|a|] == a && r.gate.book == Applied(l.gate.book, b[|a|].call))
    && (forall k :: |l.session.sent| <= k < |r.session.sent| && r.session.sent[k].msg.Snapshot? ==>
          && |b| == |a| + 1 && b[|a|].call.QueryCall?
          && var m := r.session.sent[k].msg;
             Inv(l.gate.book) ==> TellsTop(l.gate.book, m.bidPx, m.bidQty, m.askPx, m.askQty))
  }

  /** A session that is not logged on: the gate is untouched, nothing is called, only session messages are sent. */
  predicate Untouched(l: Link, r: Link) {
    && r.gate == l.gate && r.session.calls == l.session.calls
    && |l.session.sent| <= |r.session.sent|
    && forall k :: |l.session.sent| <= k < |r.session.sent| ==>
         r.session.sent[k].msg.LogonAck? || r.session.sent[k].msg.Logout?
  }

  lemma ReportsAccounted(l: Link, book: Book, call: EngineCall, ticket: Ticket, rs: seq<Report>)
    requires l.session.handled != [] && book == Applied(l.gate.book, call) && !call.QueryCall?
    ensures Accounted(l, SendReports(Link(l.gate.(book := book), Note(l.session, call)), ticket, rs))
  {
    hide SendReports, Applied;
    var m := Link(l.gate.(book := book), Note(l.session, call));
    SendReportsKeeps(m, ticket, rs);
    OnlyReports(m, ticket, rs);
  }

  lemma OnlyReports(l: Link, ticket: Ticket, rs: seq<Report>)
    ensures var a, b := l.session.sent, SendReports(l, ticket, rs).session.sent;
            |a| <= |b| && forall k :: |a| <= k < |b| ==> b[k].msg.Exec?
  {
    hide SendReports;
    SendReportsKeeps(l, ticket, rs);
    var a, b := l.session.sent, SendReports(l, ticket, rs).session.sent;
    forall k | |a| <= k < |b|
      ensures b[k].msg.Exec?
    {
      var j := k - |a|;
      assert rs[j] == rs[j] && b[|a| + j] == b[k];
    }
  }

  lemma NewOrderAccounted(read: Reader, l: Link, fs: seq<Field>)
    requires l.session.handled != []
    ensures Accounted(l, OnNewOrder(read, l, fs))
  {
    hide SendReports, Place, Reports;
    var qty, price := RealOf(read, fs, TAG_ORDER_QTY), RealOf(read, fs, TAG_PRICE);
    var ticket := TicketOf(fs);
    if !Acceptable(qty, price, ticket.side) {
      SendReportsKeeps(l, ticket, [Refusal(0, Status.Rejected, qty)]);
      OnlyReports(l, ticket, [Refusal(0, Status.Rejected, qty)]);
    } else {
      var side := if ticket.side == BUY then Buy else Sell;
      var r := Place(l.gate.book, side, Ticks(price), qty.Floor);
      ReportsAccounted(l, r.book, PlaceCall(side, Ticks(price), qty.Floor), ticket, Reports(r.id, qty.Floor, r.trades));
    }
  }

  lemma CancelAccounted(l: Link, fs: seq<Field>)
    requires l.session.handled != []
    ensures Accounted(l, OnCancel(l, fs))
  {
    hide SendReports, Cancel, Rests, OrderIdOf, Accounted;
    var id := OrderIdOf(fs);
    ReportsAccounted(l, Cancel(l.gate.book, id), CancelCall(id), TicketOf(fs),
                     [Refusal(id, if Rests(l.gate.book, id) then Canceled else Status.Rejected, 0.0)]);
  }

  lemma DispatchAccounted(read: Reader, l: Link, fs: seq<Field>)
    requires l.session.handled != []
    ensures Accounted(l, Dispatch(read, l, fs))
    ensures !l.session.loggedOn ==> Untouched(l, Dispatch(read, l, fs))
  {
    hide OnNewOrder, OnCancel, SnapshotOf, TellsTop, Inv;
    NewOrderAccounted(read, l, fs);
    CancelAccounted(l, fs);
    if Inv(l.gate.book) {
      SnapshotTellsTop(l.gate.book, Get(fs, TAG_MD_REQ_ID), Get(fs, TAG_SYMBOL));
    }
    SnapshotIsSnapshot(l.gate.book, Get(fs, TAG_MD_REQ_ID), Get(fs, TAG_SYMBOL));
  }

  lemma SnapshotIsSnapshot(b: Book, reqId: Bytes, symbol: Bytes)
    ensures SnapshotOf(b, reqId, symbol).Snapshot?
  {
  }

  /** One turn of a session's loop uses the engine exactly as recorded, and not at all before a logon. */
  lemma TurnIsAccounted(read: Reader, l: Link)
    ensures Accounted(l, DrainOnce(read, l).link)
    ensures !l.session.loggedOn ==> Untouched(l, DrainOnce(read, l).link)
  {
    hide Dispatch, Split, Parse, Applied, TellsTop, Inv;
    if Split(l.session.buf).Framed? && Parse(Split(l.session.buf).frame).Fields? {
      var fs := Parse(Split(l.session.buf).frame).fields;
      var m := l.(session := l.session.(inSeq := l.session.inSeq + 1, handled := l.session.handled + [fs]));
      DispatchAccounted(read, m, fs);
    }
  }

  /** The book operations among some calls. */
  function OpsOf(calls: seq<Called>): seq<Op> {
    if calls == [] then []
    else
      var c := calls[|calls| - 1].call;
      OpsOf(calls[..|calls| - 1])
      + match c
        case PlaceCall(side, price, qty) => [PlaceOp(side, price, qty)]
        case CancelCall(id) => [CancelOp(id)]
        case QueryCall => []
  }

  /** The operations an action adds to the record: the calls its session recorded, or its own. */
  function NewOps(read: Reader, x: Exchange, act: Act): seq<Op> {
    match act
    case Connect => []
    case Arrive(_, _) => []
    case TakeTurn(i) =>
      if i < |x.sessions| then
        var a, b := x.sessions[i].calls, DrainOnce(read, Link(x.gate, x.sessions[i])).link.session.calls;
        OpsOf(if |a| <= |b| then b[|a|..] else [])
      else []
    case Direct(op) => [op]
  }

  function AllOps(read: Reader, x: Exchange, acts: seq<Act>): seq<Op> {
    if acts == [] then []
    else
      var n := |acts| - 1;
      AllOps(read, x, acts[..n]) + NewOps(read, DidAll(read, x, acts[..n]), acts[n])
  }

  lemma RunOne(b: Book, ops: seq<Op>, op: Op)
    ensures Run(b, ops + [op]).book == After(Run(b, ops).book, op)
  {
    assert (ops + [op])[..|ops|] == ops;
  }

  /** An action changes the shared book by the operations it adds to the record. */
  lemma BookFollows(read: Reader, x: Exchange, act: Act, b: Book, ops: seq<Op>)
    requires x.gate.book == Run(b, ops).book
    ensures Did(read, x, act).gate.book == Run(b, ops + NewOps(read, x, act)).book
  {
    hide Run, DrainOnce, Place, Cancel;
    match act
    case Connect => assert ops + [] == ops;
    case Arrive(_, _) => assert ops + [] == ops;
    case TakeTurn(i) =>
      if i < |x.sessions| {
        var l := Link(x.gate, x.sessions[i]);
        var r := DrainOnce(read, l).link;
        TurnIsAccounted(read, l);
        var a, c := l.session.calls, r.session.calls;
        if c == a {
          assert c[|a|..] == [];
          assert ops + [] == ops;
        } else {
          assert c[|a|..] == [c[|a|]] && [c[|a|]][..0] == [];
          OneCall(b, ops, c[|a|]);
        }
      } else {
        assert ops + [] == ops;
      }
    case Direct(op) => RunOne(b, ops, op);
  }

  lemma OneCall(b: Book, ops: seq<Op>, c: Called)
    ensures Run(b, ops + OpsOf([c])).book == Applied(Run(b, ops).book, c.call)
  {
    hide Run, Place, Cancel;
    assert [c][..0] == [] && OpsOf([]) == [];
    match c.call
    case PlaceCall(side, price, qty) =>
      assert OpsOf([c]) == [PlaceOp(side, price, qty)];
      RunOne(b, ops, PlaceOp(side, price, qty));
    case CancelCall(id) =>
      assert OpsOf([c]) == [CancelOp(id)];
      RunOne(b, ops, CancelOp(id));
    case QueryCall =>
      assert ops + OpsOf([c]) == ops;
  }

  /**
    In any interleaving of any sessions, the shared book is the run of all recorded calls and direct
    operations, in order: nothing else ever touches it.
   */
  lemma {:induction false} BookIsTheRecordedRun(read: Reader, capacity: nat, acts: seq<Act>)
    ensures var x := Exchange(Gate(Empty(capacity), 1), []);
            DidAll(read, x, acts).gate.book == Run(Empty(capacity), AllOps(read, x, acts)).book
  {
    if acts != [] {
      hide Did, NewOps, Run;
      var x := Exchange(Gate(Empty(capacity), 1), []);
      var n := |acts| - 1;
      BookIsTheRecordedRun(read, capacity, acts[..n]);
      BookFollows(read, DidAll(read, x, acts[..n]), acts[n], Empty(capacity), AllOps(read, x, acts[..n]));
    }
  }
}
