/** A session of the gateway as it runs: buffers, counters and a builder updated in place. */
module GatewaySessions {
  import opened Orders
  import opened PriorityBook
  import opened BookInvariant
  import opened Engines
  import opened WrapArithmetic
  import opened FixText
  import opened FixFrames
  import opened FixFields
  import opened FixMessages
  import opened ExecReports
  import opened Gateways
  import opened GatewayWire

  /** What the sessions share: the engine, the configuration and the execution id counter. */
  class Gateway {
    const engine: Engine
    const compId: Bytes
    const read: Reader
    const write: Writer
    var nextExec: nat

    constructor (engine: Engine, compId: Bytes, read: Reader, write: Writer)
      ensures this.engine == engine && this.compId == compId && this.read == read && this.write == write
      ensures nextExec == 1
    {
      this.engine, this.compId, this.read, this.write := engine, compId, read, write;
      nextExec := 1;
    }
  }

  class FixSession {
    const gateway: Gateway
    const builder: Builder
    var buf: Bytes
    var running: bool
    var loggedOn: bool
    var outSeq: nat
    var inSeq: nat
    var sender: Bytes
    /** The messages put on the wire. */
    var out: seq<Bytes>

    ghost var handled: seq<seq<Field>>
    ghost var sent: seq<Sent>
    ghost var calls: seq<Called>

    ghost predicate Apart() {
      this !in gateway.engine.Repr && gateway !in gateway.engine.Repr && builder !in gateway.engine.Repr
    }

    ghost predicate OnWire()
      reads `out, `sent
    {
      && |out| == |sent|
      && forall k :: 0 <= k < |sent| ==> out[k] == Wire(gateway.compId, gateway.write, sent[k])
    }

    ghost predicate Valid()
      reads this, gateway, gateway.engine.Repr
    {
      Apart() && gateway.engine.Valid() && OnWire() && Inv(gateway.engine.View())
    }

    ghost function State(): Session
      reads this
    {
      Session(buf, running, loggedOn, outSeq, inSeq, sender, handled, sent, calls)
    }

    ghost function View(): Link
      requires Valid()
      reads this, gateway, gateway.engine.Repr
    {
      Link(Gate(gateway.engine.View(), gateway.nextExec), State())
    }

    constructor (gateway: Gateway)
      requires gateway.engine.Valid() && Inv(gateway.engine.View()) && gateway !in gateway.engine.Repr
      ensures Valid() && this.gateway == gateway && State() == Opened()
    {
      hide Engine.Valid, Engine.View, Inv;
      this.gateway := gateway;
      builder := new Builder();
      buf, running, loggedOn, outSeq, inSeq, sender, out := [], true, false, 1, 0, [], [];
      handled, sent, calls := [], [], [];
    }

    // ----- sending -----

    method AddNames(t: Ticket, execId: nat, r: Report)
      requires builder.Valid()
      modifies builder
      ensures builder.Valid() && builder.fields == old(builder.fields) + ExecNames(t, execId, r)
    {
      hide Builder.Valid, Decimal, StatusByte, Encode;
      builder.AddStr(37, Decimal(r.orderId));
      builder.AddStr(11, t.clOrdId);
      builder.AddStr(17, [69] + Decimal(execId));
      builder.AddChar(150, StatusByte(r.execType));
      builder.AddChar(39, StatusByte(r.ordStatus));
      builder.AddStr(55, t.symbol);
      builder.AddChar(54, t.side);
    }

    method AddNumbers(r: Report)
      requires builder.Valid()
      modifies builder
      ensures builder.Valid() && builder.fields == old(builder.fields) + ExecNumbers(gateway.write, r)
    {
      hide Builder.Valid, Encode;
      var write := gateway.write;
      builder.AddStr(38, write(r.orderQty, 0));
      builder.AddStr(14, write(r.cumQty as real, 0));
      builder.AddStr(151, write(r.leavesQty as real, 0));
      builder.AddStr(32, write(r.lastQty as real, 0));
      builder.AddStr(31, write(r.lastPx, 2));
      builder.AddStr(6, write(r.avgPx, 4));
    }

    method AddEntry(kind: Byte, px: real, qty: int)
      requires builder.Valid()
      modifies builder
      ensures builder.Valid() && builder.fields == old(builder.fields) + Entry(gateway.write, kind, px, qty)
    {
      hide Builder.Valid, Encode;
      var write := gateway.write;
      builder.AddChar(269, kind);
      builder.AddStr(270, write(px, 2));
      builder.AddStr(271, write(qty as real, 0));
    }

    method AddSnapshot(reqId: Bytes, symbol: Bytes, bidPx: real, bidQty: int, askPx: real, askQty: int)
      requires builder.Valid()
      modifies builder
      ensures builder.Valid()
      ensures builder.fields
              == old(builder.fields) + BodyOf(gateway.write, Snapshot(reqId, symbol, bidPx, bidQty, askPx, askQty))
    {
      hide Builder.Valid, IntText, Encode, Entry;
      ghost var base := builder.fields;
      ghost var head := if reqId == [] then [] else [Field(262, reqId)];
      if reqId != [] {
        builder.AddStr(262, reqId);
      }
      assert builder.fields == base + head;
      builder.AddStr(55, symbol);
      builder.AddInt(268, 2);
      ghost var named := head + [Field(55, symbol), Field(268, IntText(2))];
      assert builder.fields == base + named;
      AddEntry(48, bidPx, bidQty);
      ghost var bid := Entry(gateway.write, 48, bidPx, bidQty);
      assert builder.fields == base + (named + bid);
      AddEntry(49, askPx, askQty);
      ghost var ask := Entry(gateway.write, 49, askPx, askQty);
      assert builder.fields == base + (named + bid + ask);
    }

    method AddBody(msg: Outbound)
      requires builder.Valid()
      modifies builder
      ensures builder.Valid() && builder.fields == old(builder.fields) + BodyOf(gateway.write, msg)
    {
      hide Builder.Valid, IntText, Encode, ExecNames, ExecNumbers, Entry;
      match msg {
        case LogonAck =>
          builder.AddInt(98, 0);
          builder.AddInt(108, 30);
        case Logout(text) =>
          if text != [] {
            builder.AddStr(58, text);
          }
        case Exec(t, execId, r) =>
          AddNames(t, execId, r);
          AddNumbers(r);
        case Snapshot(reqId, symbol, bidPx, bidQty, askPx, askQty) =>
          AddSnapshot(reqId, symbol, bidPx, bidQty, askPx, askQty);
      }
    }

    /** Builds a message under the next sequence number and puts it on the wire. */
    method Send(msg: Outbound)
      requires OnWire()
      modifies this, builder
      ensures OnWire() && State() == Emit(old(State()), msg)
    {
      hide Builder.Valid, HeaderFields, BodyOf, Message, TypeByte;
      builder.Begin(TypeByte(msg), gateway.compId, sender, outSeq);
      AddBody(msg);
      var bytes := builder.Finalize();
      out := out + [bytes];
      sent := sent + [Sent(outSeq, sender, msg)];
      outSeq := outSeq + 1;
    }

    method SendLogout(text: Bytes)
      requires Valid()
      modifies this, builder
      ensures Valid() && View() == old(View()).(session := Stop(old(View()).session, text))
    {
      hide OnWire, Inv, Engine.Valid, Engine.View, Emit;
      Send(Logout(text));
      running := false;
    }

    /** Sends reports one by one, each under the next execution id. */
    method SendAll(ticket: Ticket, rs: seq<Report>)
      requires Valid()
      modifies this, builder, gateway
      ensures Valid() && View() == SendReports(old(View()), ticket, rs)
    {
      hide OnWire, Inv, Engine.Valid, Engine.View, Emit;
      for k := 0 to |rs|
        invariant Valid() && View() == SendReports(old(View()), ticket, rs[..k])
      {
        assert rs[..k + 1][..k] == rs[..k];
        var execId := gateway.nextExec;
        gateway.nextExec := gateway.nextExec + 1;
        Send(Exec(ticket, execId, rs[k]));
      }
      assert rs[..|rs|] == rs;
    }

    // ----- handlers -----

    method OnLogon(fs: seq<Field>)
      requires Valid()
      modifies this, builder
      ensures Valid()
      ensures var s := old(View()).session.(sender := Get(fs, TAG_SENDER), loggedOn := true);
              View() == old(View()).(session := Emit(s, LogonAck))
    {
      hide OnWire, Inv, Engine.Valid, Engine.View, Emit;
      sender := Lookup(fs, TAG_SENDER);
      loggedOn := true;
      Send(LogonAck);
    }

    method NewOrder(fs: seq<Field>)
      requires Valid() && handled != []
      modifies this, builder, gateway, gateway.engine.Repr
      ensures Valid() && View() == OnNewOrder(gateway.read, old(View()), fs)
    {
      hide OnWire, Inv, Engine.Valid, Engine.View, Place, Reports, SendReports;
      var ticket := ReadTicket(fs);
      var qty := ReadReal(fs, TAG_ORDER_QTY);
      var price := ReadReal(fs, TAG_PRICE);
      if qty <= 0.0 || price <= 0.0 || (ticket.side != BUY && ticket.side != SELL) {
        SendAll(ticket, [Refusal(0, Status.Rejected, qty)]);
        return;
      }
      var side := if ticket.side == BUY then Buy else Sell;
      var id, trades := PlaceInEngine(side, Ticks(price), qty.Floor);
      var rs := MakeReports(id, qty.Floor, trades);
      SendAll(ticket, rs);
    }

    method PlaceInEngine(side: Side, price: int, qty: int) returns (id: nat, trades: seq<Trade>)
      requires Valid() && handled != []
      modifies this, gateway.engine.Repr
      ensures Valid() && PositiveTrades(trades)
      ensures var l := old(View());
              var r := Place(l.gate.book, side, price, qty);
              && View() == Link(l.gate.(book := r.book), Note(l.session, PlaceCall(side, price, qty)))
              && id == r.id && trades == r.trades
    {
      hide OnWire, Inv, Engine.Valid, Engine.View, Place;
      ghost var b := gateway.engine.View();
      PlaceKeepsInv(b, side, price, qty);
      TradesCross(b, side, price, qty);
      id := gateway.engine.PlaceLimit(side, price, qty);
      trades := gateway.engine.lastTrades;
      calls := calls + [Called(|handled| - 1, PlaceCall(side, price, qty))];
    }

    method CancelInEngine(id: nat) returns (ok: bool)
      requires Valid() && handled != []
      modifies this, gateway.engine.Repr
      ensures Valid()
      ensures var l := old(View());
              && View() == Link(l.gate.(book := Cancel(l.gate.book, id)), Note(l.session, CancelCall(id)))
              && ok == Rests(l.gate.book, id)
    {
      hide OnWire, Inv, Engine.Valid, Engine.View, Cancel, Rests;
      CancelKeepsInv(gateway.engine.View(), id);
      ok := gateway.engine.CancelOrder(id);
      calls := calls + [Called(|handled| - 1, CancelCall(id))];
    }

    method CancelRequest(fs: seq<Field>)
      requires Valid() && handled != []
      modifies this, builder, gateway, gateway.engine.Repr
      ensures Valid() && View() == OnCancel(old(View()), fs)
    {
      hide OnWire, Inv, Engine.Valid, Engine.View, Cancel, Rests, SendReports;
      var ticket := ReadTicket(fs);
      var id := ReadOrderId(fs);
      var ok := CancelInEngine(id);
      SendAll(ticket, [Refusal(id, if ok then Canceled else Status.Rejected, 0.0)]);
    }

    method QueryBook(reqId: Bytes, symbol: Bytes) returns (msg: Outbound)
      requires gateway.engine.Valid()
      ensures msg == SnapshotOf(gateway.engine.View(), reqId, symbol)
    {
      hide Engine.Valid, Engine.View, Px;
      var bid := gateway.engine.BestBidPrice();
      var ask := gateway.engine.BestAskPrice();
      var bidQty, askQty := 0, 0;
      if bid > 0 {
        bidQty := gateway.engine.QtyAtPrice(Buy, bid);
      }
      if ask < INT64_MAX {
        askQty := gateway.engine.QtyAtPrice(Sell, ask);
      }
      msg := Snapshot(reqId, symbol, Px(bid), bidQty, if ask < INT64_MAX then Px(ask) else 0.0, askQty);
    }

    method MdRequest(fs: seq<Field>)
      requires Valid() && handled != []
      modifies this, builder
      ensures Valid() && View() == OnMdRequest(old(View()), fs)
    {
      hide OnWire, Inv, Engine.Valid, Engine.View, Emit, SnapshotOf;
      var reqId := Lookup(fs, TAG_MD_REQ_ID);
      var symbol := Lookup(fs, TAG_SYMBOL);
      var msg := QueryBook(reqId, symbol);
      calls := calls + [Called(|handled| - 1, QueryCall)];
      Send(msg);
    }

    /** Counts and records a message. */
    method Record(fs: seq<Field>)
      requires Valid()
      modifies this
      ensures Valid()
      ensures var l := old(View());
              View() == l.(session := l.session.(inSeq := l.session.inSeq + 1, handled := l.session.handled + [fs]))
    {
      hide OnWire, Inv, Engine.Valid, Engine.View;
      inSeq := inSeq + 1;
      handled := handled + [fs];
    }

    /** Before a logon only a logon is accepted; unknown messages are ignored. */
    method HandleMessage(fs: seq<Field>)
      requires Valid()
      modifies this, builder, gateway, gateway.engine.Repr
      ensures Valid() && View() == Handle(gateway.read, old(View()), fs)
    {
      hide Valid, Emit, OnNewOrder, OnCancel, OnMdRequest;
      Record(fs);
      var v := Lookup(fs, TAG_MSG_TYPE);
      var t: Byte := if v == [] then 0 else v[0];
      if !loggedOn && t != LOGON {
        SendLogout(NOT_LOGGED_ON_TEXT);
        return;
      }
      if t == LOGON {
        OnLogon(fs);
      } else if t == LOGOUT {
        SendLogout(BYE_TEXT);
      } else if t == HEARTBEAT {
      } else if t == NEW_ORDER {
        NewOrder(fs);
      } else if t == CANCEL {
        CancelRequest(fs);
      } else if t == MD_REQUEST {
        MdRequest(fs);
      }
    }

    method SetBuffer(bytes: Bytes)
      requires Valid()
      modifies this
      ensures Valid() && View() == old(View()).(session := old(View()).session.(buf := bytes))
    {
      hide OnWire, Inv, Engine.Valid, Engine.View;
      buf := bytes;
    }

    /** A chunk arrives: append it and handle every whole frame, without looking at `running` again. */
    method OnBytes(chunk: Bytes)
      requires Valid()
      modifies this, builder, gateway, gateway.engine.Repr
      ensures Valid() && View() == Receive(gateway.read, old(View()), chunk)
    {
      hide Valid, Emit, Handle, Split, Parse;
      if !running {
        return;
      }
      SetBuffer(buf + chunk);
      ghost var final := DrainAll(gateway.read, View());
      while true
        invariant Valid() && DrainAll(gateway.read, View()) == final
        decreases |buf|
      {
        ghost var l := View();
        var verdict := SplitFrame(buf);
        if verdict.Incomplete? {
          break;
        }
        if verdict.Malformed? {
          SendLogout(MALFORMED_TEXT);
          break;
        }
        var parsed := ParseFrame(verdict.frame);
        if parsed.Rejected? {
          SendLogout(PARSE_TEXT);
          break;
        }
        HandleKeepsBuffer(gateway.read, l, parsed.fields);
        HandleMessage(parsed.fields);
        SetBuffer(buf[|verdict.frame|..]);
      }
      assert View() == final;
    }

    // ----- reading fields -----

    /** The first value with this tag. */
    method Lookup(fs: seq<Field>, tag: int) returns (v: Bytes)
      ensures v == Get(fs, tag)
    {
      for i := 0 to |fs|
        invariant Get(fs, tag) == Get(fs[i..], tag)
      {
        if fs[i].tag == tag {
          return fs[i].value;
        }
        assert fs[i..][1..] == fs[i + 1..];
      }
      v := [];
    }

    method ReadTicket(fs: seq<Field>) returns (t: Ticket)
      ensures t == TicketOf(fs)
    {
      var clOrdId := Lookup(fs, TAG_CL_ORD_ID);
      var symbol := Lookup(fs, TAG_SYMBOL);
      var side := Lookup(fs, TAG_SIDE);
      t := Ticket(clOrdId, if side == [] then BUY else side[0], symbol);
    }

    method ReadReal(fs: seq<Field>, tag: int) returns (x: real)
      ensures x == RealOf(gateway.read, fs, tag)
    {
      var v := Lookup(fs, tag);
      x := if v == [] || |v| >= 64 then 0.0 else gateway.read(v);
    }

    method ReadOrderId(fs: seq<Field>) returns (id: nat)
      ensures id == OrderIdOf(fs)
    {
      var v := Lookup(fs, TAG_ORDER_ID);
      id := IntOf(v) % WORD;
    }
  }
}
