/**
  What requests ask for, told from their fields by number, and that the gateway does exactly that: over
  every run the engine calls of a session are the ones its messages asked for, in order.
 */
module GatewayRequests {
  import opened Orders
  import opened PriorityBook
  import opened BookInvariant
  import opened BookRuns
  import opened FixText
  import opened FixFrames
  import opened FixFields
  import opened FixMessages
  import opened ExecReports
  import opened Gateways
  import opened GatewayLaws
  import W = WrapArithmetic

  // ----- numbers in requests -----

  /** Ticks are hundredths, to the nearest. */
  lemma TicksAreNearest(p: real, n: int)
    ensures Ticks(p) as real - 0.5 <= p * 100.0 < Ticks(p) as real + 0.5
    ensures Ticks(Px(n)) == n
    ensures -0.005 <= Px(Ticks(p)) - p <= 0.005
  {
  }

  /** How many bytes of sign a numeral has. */
  function SignLength(v: Bytes): nat {
    if v != [] && v[0] == 45 then 1 else 0
  }

  /** The digits of `v` behind its sign end at `e`. */
  predicate DigitsUpTo(v: Bytes, e: nat) {
    SignLength(v) <= e <= |v| && AllDigits(v[SignLength(v)..e]) && (e < |v| ==> !IsDigit(v[e]))
  }

  /** With its digits up to `e`, `v` stands for `n`: 0 if there are none or the number is not a signed 64-bit one. */
  predicate StandsFor(v: Bytes, e: nat, n: int)
    requires DigitsUpTo(v, e)
  {
    var k := SignLength(v);
    var m: int := if k == 1 then 0 - Value(v[k..e]) else Value(v[k..e]);
    n == if k < e && -0x8000_0000_0000_0000 <= m <= 0x7fff_ffff_ffff_ffff then m else 0
  }

  ghost predicate ReadsAs(v: Bytes, n: int) {
    exists e: nat :: DigitsUpTo(v, e) && StandsFor(v, e, n)
  }

  /** The unsigned 64-bit order id a text stands for. */
  ghost predicate NamesId(v: Bytes, id: nat) {
    && id < 0x1_0000_0000_0000_0000
    && if id <= 0x7fff_ffff_ffff_ffff then ReadsAs(v, id) else ReadsAs(v, id - 0x1_0000_0000_0000_0000)
  }

  lemma IntIsRead(v: Bytes)
    ensures ReadsAs(v, IntOf(v)) && -0x8000_0000_0000_0000 <= IntOf(v) <= 0x7fff_ffff_ffff_ffff
  {
    hide Value, DigitsEnd;
    var e := DigitsEnd(v, SignLength(v));
    assert DigitsUpTo(v, e) && StandsFor(v, e, IntOf(v));
  }

  lemma IdIsNamed(fs: seq<Field>)
    ensures NamesId(Get(fs, 37), OrderIdOf(fs))
  {
    hide IntOf, ReadsAs;
    IntIsRead(Get(fs, 37));
    Wraps(IntOf(Get(fs, 37)));
  }

  lemma Wraps(n: int)
    requires -0x8000_0000_0000_0000 <= n <= 0x7fff_ffff_ffff_ffff
    ensures n % W.WORD == if n < 0 then n + 0x1_0000_0000_0000_0000 else n
  {
    var m := 0x1_0000_0000_0000_0000;
    W.WordIs();
    W.ModUnique(n, m, if n < 0 then -1 else 0, if n < 0 then n + m else n);
  }

  lemma WholeNumeral(v: Bytes, e: nat)
    requires v != [] && AllDigits(v) && DigitsUpTo(v, e)
    ensures SignLength(v) == 0 && e == |v| && v[0..e] == v
  {
    assert IsDigit(v[0]);
  }

  /** A plain decimal numeral names its number. */
  lemma DecimalNamesItself(n: nat, id: nat)
    requires n <= 0x7fff_ffff_ffff_ffff && NamesId(Decimal(n), id)
    ensures id == n
  {
    hide Value, Decimal, DigitsUpTo;
    var v := Decimal(n);
    DecimalValue(n);
    var i: int := if id <= 0x7fff_ffff_ffff_ffff then id else id - 0x1_0000_0000_0000_0000;
    var e: nat :| DigitsUpTo(v, e) && StandsFor(v, e, i);
    WholeNumeral(v, e);
  }

  // ----- what a message asks for -----

  /** An order message that is acceptable: quantity in 38, price in 44, and in 54 nothing, a 1 or a 2. */
  predicate AsksToPlace(read: Reader, fs: seq<Field>) {
    && Typed(fs, 68)
    && 0 < |Get(fs, 38)| < 64 && read(Get(fs, 38)) > 0.0
    && 0 < |Get(fs, 44)| < 64 && read(Get(fs, 44)) > 0.0
    && (Get(fs, 54) == [] || Get(fs, 54)[0] == 49 || Get(fs, 54)[0] == 50)
  }

  /** A 2 in field 54 sells; a 1 buys, and so does leaving it out. */
  function AskedSide(fs: seq<Field>): Side {
    if Get(fs, 54) != [] && Get(fs, 54)[0] == 50 then Sell else Buy
  }

  /** The call is the one the message asks for. */
  ghost predicate Asks(read: Reader, fs: seq<Field>, call: EngineCall) {
    match call
    case PlaceCall(side, price, qty) =>
      && AsksToPlace(read, fs) && side == AskedSide(fs)
      && price as real - 0.5 <= read(Get(fs, 44)) * 100.0 < price as real + 0.5
      && qty as real <= read(Get(fs, 38)) < qty as real + 1.0
    case CancelCall(id) => Typed(fs, 70) && NamesId(Get(fs, 37), id)
    case QueryCall => Typed(fs, 86)
  }

  /** The message asks for some call. */
  predicate Requests(read: Reader, fs: seq<Field>) {
    AsksToPlace(read, fs) || Typed(fs, 70) || Typed(fs, 86)
  }

  lemma OrderIsAsked(read: Reader, l: Link, fs: seq<Field>)
    requires l.session.handled != [] && Typed(fs, 68)
    ensures var r, a := OnNewOrder(read, l, fs).session, l.session.calls;
            && r.handled == l.session.handled && r.loggedOn == l.session.loggedOn
            && (if AsksToPlace(read, fs) then
                  && |r.calls| == |a| + 1 && r.calls[..|a|] == a && r.calls[|a|].at == |l.session.handled| - 1
                  && Asks(read, fs, r.calls[|a|].call)
                else r.calls == a)
  {
    hide SendReports, Reports, Place;
    var qty, price := RealOf(read, fs, TAG_ORDER_QTY), RealOf(read, fs, TAG_PRICE);
    var ticket := TicketOf(fs);
    TicksAreNearest(price, 0);
    if !AsksToPlace(read, fs) {
      SendReportsKeeps(l, ticket, [Refusal(0, Status.Rejected, qty)]);
    } else {
      var side := AskedSide(fs);
      var p := Place(l.gate.book, side, Ticks(price), qty.Floor);
      SendReportsKeeps(Link(l.gate.(book := p.book), Note(l.session, PlaceCall(side, Ticks(price), qty.Floor))),
                       ticket, Reports(p.id, qty.Floor, p.trades));
    }
  }

  lemma CancelIsAsked(l: Link, read: Reader, fs: seq<Field>)
    requires l.session.handled != [] && Typed(fs, 70)
    ensures var r, a := OnCancel(l, fs).session, l.session.calls;
            && r.handled == l.session.handled && r.loggedOn == l.session.loggedOn
            && |r.calls| == |a| + 1 && r.calls[..|a|] == a && r.calls[|a|].at == |l.session.handled| - 1
            && Asks(read, fs, r.calls[|a|].call)
  {
    hide SendReports, Cancel, Rests, OrderIdOf, NamesId;
    var id := OrderIdOf(fs);
    IdIsNamed(fs);
    SendReportsKeeps(Link(l.gate.(book := Cancel(l.gate.book, id)), Note(l.session, CancelCall(id))), TicketOf(fs),
                     [Refusal(id, if Rests(l.gate.book, id) then Canceled else Status.Rejected, 0.0)]);
  }

  /** From `s` to `r` one message was handled: it was called for if it asks and a logon came before. */
  ghost predicate Answers(read: Reader, s: Session, r: Session, fs: seq<Field>) {
    && r.handled == s.handled + [fs]
    && (r.loggedOn <==> s.loggedOn || IsLogon(fs))
    && (if s.loggedOn && Requests(read, fs) then
          && |r.calls| == |s.calls| + 1 && r.calls[..|s.calls|] == s.calls
          && r.calls[|s.calls|].at == |s.handled| && Asks(read, fs, r.calls[|s.calls|].call)
        else r.calls == s.calls)
  }

  /** Handling a message makes exactly the call it asks for, and none before a logon. */
  lemma HandleAnswers(read: Reader, l: Link, fs: seq<Field>)
    ensures Answers(read, l.session, Handle(read, l, fs).session, fs)
  {
    hide OnNewOrder, OnCancel, SnapshotOf, RealOf, NamesId, AsksToPlace;
    var m := l.(session := l.session.(inSeq := l.session.inSeq + 1, handled := l.session.handled + [fs]));
    PlaceIsTyped(read, fs);
    if Typed(fs, 68) {
      OrderIsAsked(read, m, fs);
    } else if Typed(fs, 70) {
      CancelIsAsked(m, read, fs);
    }
  }

  lemma PlaceIsTyped(read: Reader, fs: seq<Field>)
    ensures AsksToPlace(read, fs) ==> Typed(fs, 68)
  {
  }

  // ----- every run -----

  /**
    The engine calls of a session are exactly what its messages asked for after a logon: each call is
    the one its message asks for, in the order of the messages, and no request is left out.
   */
  ghost predicate Served(read: Reader, s: Session) {
    && (s.loggedOn <==> LogonBefore(s.handled, |s.handled|))
    && (forall c :: 0 <= c < |s.calls| ==> ServedCall(read, s, c))
    && (forall c, e :: 0 <= c < e < |s.calls| ==> s.calls[c].at < s.calls[e].at)
    && (forall j :: 0 <= j < |s.handled| && LogonBefore(s.handled, j) && Requests(read, s.handled[j]) ==>
          CalledFor(s, j))
  }

  ghost predicate ServedCall(read: Reader, s: Session, c: nat)
    requires c < |s.calls|
  {
    var at := s.calls[c].at;
    at < |s.handled| && LogonBefore(s.handled, at) && Asks(read, s.handled[at], s.calls[c].call)
  }

  predicate CalledFor(s: Session, j: nat) {
    exists c :: 0 <= c < |s.calls| && s.calls[c].at == j
  }

  lemma LogonOneMore(hs: seq<seq<Field>>, fs: seq<Field>, n: nat)
    ensures n <= |hs| ==> (LogonBefore(hs + [fs], n) <==> LogonBefore(hs, n))
    ensures LogonBefore(hs + [fs], |hs| + 1) <==> LogonBefore(hs, |hs|) || IsLogon(fs)
  {
    hide IsLogon;
    var g := hs + [fs];
    if j :| 0 <= j < n && j < |hs| && IsLogon(hs[j]) {
      assert IsLogon(g[j]);
    }
    if j :| 0 <= j < |hs| && IsLogon(hs[j]) {
      assert IsLogon(g[j]);
    }
    if IsLogon(fs) {
      assert IsLogon(g[|hs|]);
    }
  }

  lemma CallStaysServed(read: Reader, s: Session, r: Session, fs: seq<Field>, c: nat)
    requires Answers(read, s, r, fs) && c < |s.calls| && ServedCall(read, s, c)
    ensures ServedCall(read, r, c) && r.calls[c] == s.calls[c]
  {
    hide Asks, LogonBefore, Requests, IsLogon;
    assert r.calls[..|s.calls|][c] == r.calls[c];
    LogonOneMore(s.handled, fs, s.calls[c].at);
  }

  lemma AnswerKeepsCalls(read: Reader, s: Session, r: Session, fs: seq<Field>)
    requires Served(read, s) && Answers(read, s, r, fs)
    ensures forall c :: 0 <= c < |r.calls| ==> ServedCall(read, r, c)
    ensures forall c, e :: 0 <= c < e < |r.calls| ==> r.calls[c].at < r.calls[e].at
  {
    hide Asks, LogonBefore, Requests, IsLogon, ServedCall;
    var n := |s.calls|;
    forall c | 0 <= c < |r.calls|
      ensures ServedCall(read, r, c)
      ensures c < n ==> r.calls[c] == s.calls[c] && s.calls[c].at < |s.handled|
    {
      if c < n {
        CallStaysServed(read, s, r, fs, c);
        ServedIsHandled(read, s, c);
      } else {
        LogonOneMore(s.handled, fs, |s.handled|);
        NewCallServed(read, r, c);
      }
    }
  }

  lemma ServedIsHandled(read: Reader, s: Session, c: nat)
    requires c < |s.calls| && ServedCall(read, s, c)
    ensures s.calls[c].at < |s.handled|
  {
  }

  lemma NewCallServed(read: Reader, s: Session, c: nat)
    requires c < |s.calls| && s.handled != [] && s.calls[c].at == |s.handled| - 1
    requires LogonBefore(s.handled, |s.handled| - 1) && Asks(read, s.handled[|s.handled| - 1], s.calls[c].call)
    ensures ServedCall(read, s, c)
  {
  }

  lemma AnswerKeepsServed(read: Reader, s: Session, r: Session, fs: seq<Field>)
    requires Served(read, s) && Answers(read, s, r, fs)
    ensures Served(read, r)
  {
    hide Asks, LogonBefore, Requests, IsLogon, ServedCall, CalledFor;
    AnswerKeepsCalls(read, s, r, fs);
    LogonOneMore(s.handled, fs, |s.handled|);
    forall j | 0 <= j < |r.handled| && LogonBefore(r.handled, j) && Requests(read, r.handled[j])
      ensures CalledFor(r, j)
    {
      LogonOneMore(s.handled, fs, j);
      if j < |s.handled| {
        assert r.handled[j] == s.handled[j] && CalledFor(s, j);
        CalledForStays(s, r, j);
      } else {
        LastCalledFor(r, j);
      }
    }
  }

  lemma CalledForStays(s: Session, r: Session, j: nat)
    requires CalledFor(s, j) && |s.calls| <= |r.calls| && r.calls[..|s.calls|] == s.calls
    ensures CalledFor(r, j)
  {
    var c :| 0 <= c < |s.calls| && s.calls[c].at == j;
    assert r.calls[..|s.calls|][c] == r.calls[c];
  }

  lemma LastCalledFor(r: Session, j: nat)
    requires r.calls != [] && r.calls[|r.calls| - 1].at == j
    ensures CalledFor(r, j)
  {
  }

  ghost predicate AllServed(read: Reader, x: Exchange) {
    forall i :: 0 <= i < |x.sessions| ==> Served(read, x.sessions[i])
  }

  /** What is served depends only on the messages, the calls and the logon. */
  lemma SameServed(read: Reader, s: Session, r: Session)
    requires r.handled == s.handled && r.calls == s.calls && r.loggedOn == s.loggedOn && Served(read, s)
    ensures Served(read, r)
  {
    hide LogonBefore, Asks, Requests;
    forall c | 0 <= c < |r.calls|
      ensures ServedCall(read, r, c)
    {
      assert ServedCall(read, s, c);
    }
    forall j | 0 <= j < |r.handled| && LogonBefore(r.handled, j) && Requests(read, r.handled[j])
      ensures CalledFor(r, j)
    {
      assert CalledFor(s, j);
    }
  }

  lemma TurnKeepsServed(read: Reader, l: Link)
    requires Served(read, l.session)
    ensures Served(read, DrainOnce(read, l).link.session)
  {
    hide Served, Handle, Split, Parse, Answers;
    var r := DrainOnce(read, l).link;
    if Split(l.session.buf).Framed? && Parse(Split(l.session.buf).frame).Fields? {
      var fs := Parse(Split(l.session.buf).frame).fields;
      HandleAnswers(read, l, fs);
      AnswerKeepsServed(read, l.session, Handle(read, l, fs).session, fs);
      SameServed(read, Handle(read, l, fs).session, r.session);
    } else {
      SameServed(read, l.session, r.session);
    }
  }

  lemma DidKeepsServed(read: Reader, x: Exchange, act: Act)
    requires AllServed(read, x)
    ensures AllServed(read, Did(read, x, act))
  {
    hide Served, DrainOnce, After;
    match act
    case Connect => OpenedIsServed(read);
    case Arrive(i, chunk) =>
      if i < |x.sessions| {
        SameServed(read, x.sessions[i], x.sessions[i].(buf := x.sessions[i].buf + chunk));
      }
    case TakeTurn(i) =>
      if i < |x.sessions| {
        TurnKeepsServed(read, Link(x.gate, x.sessions[i]));
      }
    case Direct(op) =>
  }

  lemma OpenedIsServed(read: Reader)
    ensures Served(read, Opened())
  {
  }

  /** In every run of any sessions, each session's engine calls are exactly what its messages asked for. */
  lemma {:induction false} RequestsAreServed(read: Reader, capacity: nat, acts: seq<Act>)
    ensures AllServed(read, DidAll(read, Exchange(Gate(Empty(capacity), 1), []), acts))
  {
    if acts != [] {
      hide Did, AllServed;
      RequestsAreServed(read, capacity, acts[..|acts| - 1]);
      DidKeepsServed(read, DidAll(read, Exchange(Gate(Empty(capacity), 1), []), acts[..|acts| - 1]), acts[|acts| - 1]);
    } else {
      assert AllServed(read, Exchange(Gate(Empty(capacity), 1), []));
    }
  }

  // ----- what is answered -----

  /** A reply names the client's order id, the symbol and the side as the request gave them. */
  predicate Echoes(t: Ticket, fs: seq<Field>) {
    && t.clOrdId == Get(fs, 11) && t.symbol == Get(fs, 55)
    && t.side == if Get(fs, 54) == [] then 49 else Get(fs, 54)[0]
  }

  /** From `l` to `r` the messages `rs` went out, each under the next sequence number and execution id. */
  predicate Reported(l: Link, r: Link, fs: seq<Field>, rs: seq<Report>) {
    var a, b := l.session.sent, r.session.sent;
    && |b| == |a| + |rs| && b[..|a|] == a
    && forall k :: 0 <= k < |rs| ==> IsReport(l, fs, k, b[|a| + k], rs[k])
  }

  predicate IsReport(l: Link, fs: seq<Field>, k: nat, m: Sent, r: Report) {
    && m.seqNum == l.session.outSeq + k && m.target == l.session.sender
    && m.msg.Exec? && Echoes(m.msg.ticket, fs) && m.msg.execId == l.gate.nextExec + k && m.msg.report == r
  }

  /** A report without quantities: nothing traded, nothing open. */
  predicate TellsOutcome(r: Report, id: nat, status: Status, qty: real) {
    && r.orderId == id && r.execType == status && r.ordStatus == status && r.orderQty == qty
    && r.cumQty == 0 && r.leavesQty == 0 && r.lastQty == 0 && r.lastPx == 0.0 && r.avgPx == 0.0
  }

  lemma SendsReported(l: Link, m: Link, fs: seq<Field>, rs: seq<Report>)
    requires m.session.sent == l.session.sent && m.session.outSeq == l.session.outSeq
    requires m.session.sender == l.session.sender && m.gate.nextExec == l.gate.nextExec
    ensures Reported(l, SendReports(m, TicketOf(fs), rs), fs, rs)
    ensures SendReports(m, TicketOf(fs), rs).gate.book == m.gate.book
  {
    hide SendReports;
    var t, a, b := TicketOf(fs), l.session.sent, SendReports(m, TicketOf(fs), rs).session.sent;
    SendReportsKeeps(m, t, rs);
    assert Echoes(t, fs);
    hide Echoes, TicketOf;
    forall k | 0 <= k < |rs|
      ensures IsReport(l, fs, k, b[|a| + k], rs[k])
    {
      assert b[|a| + k] == Sent(l.session.outSeq + k, l.session.sender, Exec(t, l.gate.nextExec + k, rs[k]));
    }
  }

  /** An acceptable order is placed as asked, and its reports go out. */
  lemma OrderIsAnswered(read: Reader, l: Link, fs: seq<Field>)
    requires l.session.loggedOn && AsksToPlace(read, fs)
    ensures var r := Handle(read, l, fs);
            exists price, qty ::
              && Asks(read, fs, PlaceCall(AskedSide(fs), price, qty))
              && var p := Place(l.gate.book, AskedSide(fs), price, qty);
                 r.gate.book == p.book && Reported(l, r, fs, Reports(p.id, qty, p.trades))
  {
    hide SendReports, Reports, Place, Reported;
    var m := l.(session := l.session.(inSeq := l.session.inSeq + 1, handled := l.session.handled + [fs]));
    var price, qty := Ticks(read(Get(fs, 44))), read(Get(fs, 38)).Floor;
    TicksAreNearest(read(Get(fs, 44)), 0);
    var p := Place(l.gate.book, AskedSide(fs), price, qty);
    SendsReported(l, Link(m.gate.(book := p.book), Note(m.session, PlaceCall(AskedSide(fs), price, qty))), fs,
                  Reports(p.id, qty, p.trades));
    assert Asks(read, fs, PlaceCall(AskedSide(fs), price, qty));
  }

  /** Any other order message is refused with one report, and the book is left alone. */
  lemma OrderIsRefused(read: Reader, l: Link, fs: seq<Field>)
    returns (rep: Report)
    requires l.session.loggedOn && Typed(fs, 68) && !AsksToPlace(read, fs)
    ensures var r := Handle(read, l, fs);
            && r.gate.book == l.gate.book && Reported(l, r, fs, [rep])
            && TellsOutcome(rep, 0, Status.Rejected, if 0 < |Get(fs, 38)| < 64 then read(Get(fs, 38)) else 0.0)
  {
    hide SendReports, Reported;
    var m := l.(session := l.session.(inSeq := l.session.inSeq + 1, handled := l.session.handled + [fs]));
    rep := Refusal(0, Status.Rejected, RealOf(read, fs, TAG_ORDER_QTY));
    SendsReported(l, m, fs, [rep]);
  }

  /**
    A cancel request cancels the order named in field 37, if that rests, and reports that order
    canceled if it rested and rejected if not.
   */
  lemma CancelIsAnswered(read: Reader, l: Link, fs: seq<Field>)
    returns (id: nat, rep: Report)
    requires l.session.loggedOn && Typed(fs, 70)
    ensures NamesId(Get(fs, 37), id)
    ensures forall n :: 0 <= n <= 0x7fff_ffff_ffff_ffff && Get(fs, 37) == Decimal(n) ==> id == n
    ensures var r := Handle(read, l, fs);
            && r.gate.book == Cancel(l.gate.book, id) && Reported(l, r, fs, [rep])
            && TellsOutcome(rep, id, if Rests(l.gate.book, id) then Canceled else Status.Rejected, 0.0)
  {
    hide SendReports, Reported, Cancel, Rests, OrderIdOf, NamesId, Decimal;
    var m := l.(session := l.session.(inSeq := l.session.inSeq + 1, handled := l.session.handled + [fs]));
    id := OrderIdOf(fs);
    IdIsNamed(fs);
    forall n: nat | n <= 0x7fff_ffff_ffff_ffff && Get(fs, 37) == Decimal(n)
      ensures id == n
    {
      DecimalNamesItself(n, id);
    }
    rep := Refusal(id, if Rests(l.gate.book, id) then Canceled else Status.Rejected, 0.0);
    SendsReported(l, Link(m.gate.(book := Cancel(l.gate.book, id)), Note(m.session, CancelCall(id))), fs, [rep]);
  }

  /** A book query is answered with the top of the book, and changes nothing. */
  lemma QueryIsAnswered(read: Reader, l: Link, fs: seq<Field>)
    requires l.session.loggedOn && Typed(fs, 86) && Inv(l.gate.book)
    ensures var r := Handle(read, l, fs);
            var a, b := l.session.sent, r.session.sent;
            && r.gate == l.gate && |b| == |a| + 1 && b[..|a|] == a
            && b[|a|].seqNum == l.session.outSeq && b[|a|].target == l.session.sender
            && var m := b[|a|].msg;
               && m.Snapshot? && m.reqId == Get(fs, 262) && m.symbol == Get(fs, 55)
               && TellsTop(l.gate.book, m.bidPx, m.bidQty, m.askPx, m.askQty)
  {
    hide SnapshotOf, TellsTop, Inv;
    SnapshotTellsTop(l.gate.book, Get(fs, 262), Get(fs, 55));
  }

  /** From `l` to `r` only one session message went out. */
  predicate Said(l: Link, r: Link, target: Bytes, msg: Outbound) {
    && r.gate == l.gate && r.session.calls == l.session.calls
    && r.session.sent == l.session.sent + [Sent(l.session.outSeq, target, msg)]
  }

  /**
    The session messages: a logon (type A) is acknowledged to the party it names and opens the session, a
    logout (type 5) is answered in kind and stops it, any other type but the three requests is only
    counted; before a logon, anything else is answered with a logout and stops the session.
   */
  lemma SessionMessages(read: Reader, l: Link, fs: seq<Field>)
    ensures var r := Handle(read, l, fs);
            && (Typed(fs, 65) ==>
                  && Said(l, r, Get(fs, 49), LogonAck) && r.session.loggedOn && r.session.sender == Get(fs, 49)
                  && r.session.running == l.session.running)
            && (!Typed(fs, 65) && (Typed(fs, 53) || !l.session.loggedOn) ==>
                  && !r.session.running
                  && Said(l, r, l.session.sender, Logout(if l.session.loggedOn then BYE_TEXT else NOT_LOGGED_ON_TEXT)))
            && (l.session.loggedOn && !Typed(fs, 65) && !Typed(fs, 53)
                && !Typed(fs, 68) && !Typed(fs, 70) && !Typed(fs, 86) ==>
                  r == l.(session := l.session.(inSeq := l.session.inSeq + 1, handled := l.session.handled + [fs])))
  {
    hide OnNewOrder, OnCancel, OnMdRequest;
  }
}
