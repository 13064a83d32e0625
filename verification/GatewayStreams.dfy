/** The byte streams of a session: chunking in, framing out. */
module GatewayStreams {
  import opened Orders
  import opened PriorityBook
  import opened FixText
  import opened FixFrames
  import opened FixFields
  import opened FixMessages
  import opened ExecReports
  import opened Gateways
  import opened GatewayLaws

  // ----- chunking -----

  function More(l: Link, bytes: Bytes): Link {
    l.(session := l.session.(buf := l.session.buf + bytes))
  }

  /** What `l` has done is the beginning of what `r` has done; a stopped session stays stopped. */
  predicate Extends(l: Link, r: Link) {
    && l.session.handled <= r.session.handled && l.session.sent <= r.session.sent
    && l.session.calls <= r.session.calls && (!l.session.running ==> !r.session.running)
  }

  lemma ExtendsTwice(l: Link, m: Link, r: Link)
    requires Extends(l, m) && Extends(m, r)
    ensures Extends(l, r)
  {
  }

  lemma SendReportsExtends(l: Link, ticket: Ticket, rs: seq<Report>)
    ensures Extends(l, SendReports(l, ticket, rs))
  {
    hide SendReports;
    SendReportsKeeps(l, ticket, rs);
  }

  lemma NewOrderExtends(read: Reader, l: Link, fs: seq<Field>)
    requires l.session.handled != []
    ensures Extends(l, OnNewOrder(read, l, fs))
  {
    hide SendReports, Reports, Place, Extends;
    var qty, price := RealOf(read, fs, TAG_ORDER_QTY), RealOf(read, fs, TAG_PRICE);
    var ticket := TicketOf(fs);
    if !Acceptable(qty, price, ticket.side) {
      SendReportsExtends(l, ticket, [Refusal(0, Status.Rejected, qty)]);
    } else {
      var side := if ticket.side == BUY then Buy else Sell;
      var p := Place(l.gate.book, side, Ticks(price), qty.Floor);
      NotedExtends(l, p.book, PlaceCall(side, Ticks(price), qty.Floor), ticket, Reports(p.id, qty.Floor, p.trades));
    }
  }

  /** A handler that calls the engine and then reports. */
  lemma NotedExtends(l: Link, book: Book, call: EngineCall, ticket: Ticket, rs: seq<Report>)
    requires l.session.handled != []
    ensures Extends(l, SendReports(Link(l.gate.(book := book), Note(l.session, call)), ticket, rs))
  {
    hide SendReports;
    var m := Link(l.gate.(book := book), Note(l.session, call));
    SendReportsExtends(m, ticket, rs);
    ExtendsTwice(l, m, SendReports(m, ticket, rs));
  }

  lemma DispatchExtends(read: Reader, l: Link, fs: seq<Field>)
    requires l.session.handled != []
    ensures Extends(l, Dispatch(read, l, fs))
  {
    hide OnNewOrder, SendReports, Cancel, Rests, SnapshotOf, OrderIdOf;
    var id := OrderIdOf(fs);
    NewOrderExtends(read, l, fs);
    NotedExtends(l, Cancel(l.gate.book, id), CancelCall(id), TicketOf(fs),
                 [Refusal(id, if Rests(l.gate.book, id) then Canceled else Status.Rejected, 0.0)]);
  }

  lemma HandleExtends(read: Reader, l: Link, fs: seq<Field>)
    ensures Extends(l, Handle(read, l, fs))
  {
    hide Dispatch;
    var m := l.(session := l.session.(inSeq := l.session.inSeq + 1, handled := l.session.handled + [fs]));
    DispatchExtends(read, m, fs);
    ExtendsTwice(l, m, Dispatch(read, m, fs));
  }

  lemma DrainOnceExtends(read: Reader, l: Link)
    ensures Extends(l, DrainOnce(read, l).link)
  {
    hide Handle, Split, Parse;
    if Split(l.session.buf).Framed? && Parse(Split(l.session.buf).frame).Fields? {
      HandleExtends(read, l, Parse(Split(l.session.buf).frame).fields);
    }
  }

  lemma {:induction false} DrainAllExtends(read: Reader, l: Link)
    ensures Extends(l, DrainAll(read, l))
    decreases |l.session.buf|
  {
    hide Extends, DrainOnce;
    DrainOnceExtends(read, l);
    var t := DrainOnce(read, l);
    if t.more {
      TurnShrinks(read, l);
      DrainAllExtends(read, t.link);
      ExtendsTwice(l, t.link, DrainAll(read, l));
    }
  }

  lemma TurnShrinks(read: Reader, l: Link)
    requires DrainOnce(read, l).more
    ensures |DrainOnce(read, l).link.session.buf| < |l.session.buf|
  {
  }

  function Rebuffered(l: Link, buf: Bytes): Link {
    l.(session := l.session.(buf := buf))
  }

  lemma NewOrderIgnoresBuffer(read: Reader, l: Link, fs: seq<Field>, buf: Bytes)
    requires l.session.handled != []
    ensures OnNewOrder(read, Rebuffered(l, buf), fs) == Rebuffered(OnNewOrder(read, l, fs), buf)
  {
    hide SendReports, Reports, Place;
    var qty, price := RealOf(read, fs, TAG_ORDER_QTY), RealOf(read, fs, TAG_PRICE);
    var ticket := TicketOf(fs);
    if !Acceptable(qty, price, ticket.side) {
      SendIgnoresBuffer(l, ticket, [Refusal(0, Status.Rejected, qty)], buf);
    } else {
      var side := if ticket.side == BUY then Buy else Sell;
      var p := Place(l.gate.book, side, Ticks(price), qty.Floor);
      SendIgnoresBuffer(Link(l.gate.(book := p.book), Note(l.session, PlaceCall(side, Ticks(price), qty.Floor))),
                        ticket, Reports(p.id, qty.Floor, p.trades), buf);
    }
  }

  lemma CancelIgnoresBuffer(l: Link, fs: seq<Field>, buf: Bytes)
    requires l.session.handled != []
    ensures OnCancel(Rebuffered(l, buf), fs) == Rebuffered(OnCancel(l, fs), buf)
  {
    hide SendReports, Cancel, Rests, OrderIdOf;
    var id := OrderIdOf(fs);
    SendIgnoresBuffer(Link(l.gate.(book := Cancel(l.gate.book, id)), Note(l.session, CancelCall(id))), TicketOf(fs),
                      [Refusal(id, if Rests(l.gate.book, id) then Canceled else Status.Rejected, 0.0)], buf);
  }

  /** Handling a message does not look at the buffer. */
  lemma HandleIgnoresBuffer(read: Reader, l: Link, fs: seq<Field>, buf: Bytes)
    ensures Handle(read, Rebuffered(l, buf), fs) == Rebuffered(Handle(read, l, fs), buf)
  {
    hide OnNewOrder, OnCancel, SnapshotOf;
    var m := l.(session := l.session.(inSeq := l.session.inSeq + 1, handled := l.session.handled + [fs]));
    NewOrderIgnoresBuffer(read, m, fs, buf);
    CancelIgnoresBuffer(m, fs, buf);
  }

  lemma {:induction false} SendIgnoresBuffer(l: Link, ticket: Ticket, rs: seq<Report>, buf: Bytes)
    ensures SendReports(Rebuffered(l, buf), ticket, rs) == Rebuffered(SendReports(l, ticket, rs), buf)
  {
    if rs != [] {
      SendIgnoresBuffer(l, ticket, rs[..|rs| - 1], buf);
    }
  }

  /** A turn that does not wait for bytes is the same turn with more bytes behind it. */
  lemma TurnIsStable(read: Reader, l: Link, bytes: Bytes)
    requires !Split(l.session.buf).Incomplete?
    ensures var t := DrainOnce(read, l);
            DrainOnce(read, More(l, bytes)) == Turn(More(t.link, bytes), t.more)
  {
    hide Handle, Split, Parse;
    var buf := l.session.buf;
    SplitIsStable(buf, bytes);
    if Split(buf).Framed? {
      var f := Split(buf).frame;
      assert (buf + bytes)[|f|..] == buf[|f|..] + bytes;
      if Parse(f).Fields? {
        HandleIgnoresBuffer(read, l, Parse(f).fields, buf + bytes);
      }
    }
  }

  /** Draining and then draining what is left with more bytes is draining them together. */
  lemma {:induction false} DrainAllAppend(read: Reader, l: Link, bytes: Bytes)
    ensures var r := DrainAll(read, l);
            && DrainAll(read, More(l, bytes))
               == (if Split(r.session.buf).Incomplete? then DrainAll(read, More(r, bytes)) else More(r, bytes))
            && (!Split(r.session.buf).Incomplete? ==> !r.session.running)
    decreases |l.session.buf|
  {
    hide DrainOnce, Split;
    var t := DrainOnce(read, l);
    if Split(l.session.buf).Incomplete? {
      WaitsIfIncomplete(read, l);
    } else {
      TurnIsStable(read, l, bytes);
      if t.more {
        TurnShrinks(read, l);
        DrainAllAppend(read, t.link, bytes);
      } else {
        StopsOtherwise(read, l);
      }
    }
  }

  lemma WaitsIfIncomplete(read: Reader, l: Link)
    requires Split(l.session.buf).Incomplete?
    ensures DrainOnce(read, l) == Turn(l, false)
  {
  }

  lemma StopsOtherwise(read: Reader, l: Link)
    requires !Split(l.session.buf).Incomplete? && !DrainOnce(read, l).more
    ensures var r := DrainOnce(read, l).link.session;
            !r.running && r.buf == l.session.buf
  {
  }

  /** Two chunks against one. */
  lemma TwoChunks(read: Reader, l: Link, c: Bytes, d: Bytes)
    ensures var a := Receive(read, Receive(read, l, c), d);
            var b := Receive(read, l, c + d);
            && (a.session.running ==> a == b)
            && Extends(a, b)
            && (Receive(read, l, c).session.running ==> a == b)
  {
    hide DrainAll, Extends, Split;
    if l.session.running {
      var r := DrainAll(read, More(l, c));
      assert l.session.buf + (c + d) == l.session.buf + c + d;
      assert More(l, c + d) == More(More(l, c), d);
      DrainAllAppend(read, More(l, c), d);
      if !r.session.running {
        DrainAllExtends(read, More(r, d));
        MoreExtends(r, d);
        ExtendsItself(r);
        if Split(r.session.buf).Incomplete? {
          ExtendsTwice(r, More(r, d), DrainAll(read, More(r, d)));
        }
      } else {
        ExtendsItself(Receive(read, r, d));
      }
    } else {
      ExtendsItself(l);
    }
  }

  lemma MoreExtends(l: Link, bytes: Bytes)
    ensures Extends(l, More(l, bytes))
  {
  }

  lemma ExtendsItself(l: Link)
    ensures Extends(l, l)
  {
  }

  function Joined(chunks: seq<Bytes>): Bytes {
    if chunks == [] then [] else Joined(chunks[..|chunks| - 1]) + chunks[|chunks| - 1]
  }

  /**
    Chunking does not matter up to the message that stops the session: while the session runs, its
    state after any chunking is its state after receiving everything at once; once it has stopped,
    what it handled, sent and asked of the engine is a beginning of what it would have done.
   */
  lemma {:induction false} ChunkingDoesNotMatter(read: Reader, l: Link, chunks: seq<Bytes>)
    requires Split(l.session.buf).Incomplete?
    ensures var a := ReceiveAll(read, l, chunks);
            var b := Receive(read, l, Joined(chunks));
            (a.session.running ==> a == b) && Extends(a, b)
  {
    hide DrainAll, Extends, Split, Receive;
    if chunks == [] {
      ReceiveNothing(read, l);
      ExtendsItself(l);
    } else {
      var n := |chunks| - 1;
      ChunkingDoesNotMatter(read, l, chunks[..n]);
      var a, b := ReceiveAll(read, l, chunks[..n]), Receive(read, l, Joined(chunks[..n]));
      TwoChunks(read, l, Joined(chunks[..n]), chunks[n]);
      if !a.session.running {
        StoppedIgnores(read, a, chunks[n]);
        StoppedTogether(a, b);
        StoppedIgnores(read, b, chunks[n]);
        ExtendsTwice(a, b, Receive(read, l, Joined(chunks)));
      }
    }
  }

  lemma ReceiveNothing(read: Reader, l: Link)
    requires Split(l.session.buf).Incomplete?
    ensures Receive(read, l, []) == l
  {
    assert l.session.buf + [] == l.session.buf;
    assert l.(session := l.session.(buf := l.session.buf + [])) == l;
  }

  lemma StoppedIgnores(read: Reader, l: Link, chunk: Bytes)
    requires !l.session.running
    ensures Receive(read, l, chunk) == l
  {
  }

  lemma StoppedTogether(l: Link, r: Link)
    requires Extends(l, r) && !l.session.running
    ensures !r.session.running
  {
  }

  // ----- when chunking does matter -----

  /** The same messages handled, the same messages sent, the same calls made. */
  predicate SameRecord(l: Link, r: Link) {
    l.session.handled == r.session.handled && l.session.sent == r.session.sent && l.session.calls == r.session.calls
  }

  /** A turn that finds something to do leaves a longer record. */
  lemma TurnIsRecorded(read: Reader, l: Link)
    requires !Split(l.session.buf).Incomplete?
    ensures var r := DrainOnce(read, l).link;
            |r.session.handled| > |l.session.handled| || |r.session.sent| > |l.session.sent|
  {
    hide Handle, Split, Parse;
    if Split(l.session.buf).Framed? && Parse(Split(l.session.buf).frame).Fields? {
      HandleKeepsBuffer(read, l, Parse(Split(l.session.buf).frame).fields);
    }
  }

  /** Draining changes the record exactly if there is something to do. */
  lemma DrainRecords(read: Reader, l: Link)
    ensures SameRecord(l, DrainAll(read, l)) <==> Split(l.session.buf).Incomplete?
  {
    hide DrainOnce, Split;
    if Split(l.session.buf).Incomplete? {
      WaitsIfIncomplete(read, l);
    } else {
      TurnIsRecorded(read, l);
      var t := DrainOnce(read, l);
      if t.more {
        TurnShrinks(read, l);
        DrainAllExtends(read, t.link);
      }
    }
  }

  /**
    If chunk `c` stops the session, what follows it is ignored; had it come in the same chunk it would
    have been handled, unless the session is stuck at a bad frame or no whole frame follows.
   */
  lemma StopMattersIff(read: Reader, l: Link, c: Bytes, d: Bytes)
    requires l.session.running && !Receive(read, l, c).session.running
    ensures var r := Receive(read, l, c);
            && Receive(read, r, d) == r
            && (SameRecord(r, Receive(read, l, c + d)) <==>
                  !Split(r.session.buf).Incomplete? || Split(r.session.buf + d).Incomplete?)
  {
    hide DrainAll, Split;
    var r := Receive(read, l, c);
    assert l.session.buf + (c + d) == l.session.buf + c + d;
    assert More(l, c + d) == More(More(l, c), d) && r == DrainAll(read, More(l, c));
    DrainAllAppend(read, More(l, c), d);
    DrainRecords(read, More(r, d));
  }

  lemma {:induction false} JoinedAppend(a: seq<Bytes>, b: seq<Bytes>)
    ensures Joined(a + b) == Joined(a) + Joined(b)
  {
    if b == [] {
      assert a + b == a;
    } else {
      var n := |b| - 1;
      JoinedAppend(a, b[..n]);
      assert (a + b)[..|a| + n] == a + b[..n] && (a + b)[|a| + n] == b[n];
      assert Joined(a + b) == Joined(a + b[..n]) + b[n];
      assert Joined(b) == Joined(b[..n]) + b[n];
    }
  }

  lemma {:induction false} StoppedForGood(read: Reader, l: Link, a: seq<Bytes>, b: seq<Bytes>)
    requires !ReceiveAll(read, l, a).session.running
    ensures ReceiveAll(read, l, a + b) == ReceiveAll(read, l, a)
  {
    if b == [] {
      assert a + b == a;
    } else {
      hide Receive;
      var n := |b| - 1;
      StoppedForGood(read, l, a, b[..n]);
      assert (a + b)[..|a| + n] == a + b[..n];
      StoppedIgnores(read, ReceiveAll(read, l, a), b[n]);
    }
  }

  /**
    When chunking matters. Let chunk `k` be the one that stops the session, leaving it in state `r`.
    The chunks received one by one and all at once leave the same record exactly if `r` is stuck at a
    bad frame, or what it has buffered and the chunks after `k` together hold no whole frame.
   */
  lemma ChunkingMattersIff(read: Reader, l: Link, chunks: seq<Bytes>, k: nat)
    requires Split(l.session.buf).Incomplete? && k < |chunks|
    requires ReceiveAll(read, l, chunks[..k]).session.running
    requires !ReceiveAll(read, l, chunks[..k + 1]).session.running
    ensures var r := ReceiveAll(read, l, chunks[..k + 1]);
            && ReceiveAll(read, l, chunks) == r
            && (SameRecord(r, Receive(read, l, Joined(chunks))) <==>
                  !Split(r.session.buf).Incomplete? || Split(r.session.buf + Joined(chunks[k + 1..])).Incomplete?)
  {
    hide Receive, Split, SameRecord;
    var a, b := chunks[..k + 1], chunks[k + 1..];
    assert a[..k] == chunks[..k] && a + b == chunks;
    ChunkingDoesNotMatter(read, l, chunks[..k]);
    TwoChunks(read, l, Joined(chunks[..k]), chunks[k]);
    RunningFromStart(read, l, Joined(chunks[..k]));
    JoinedAppend(a, b);
    StoppedForGood(read, l, a, b);
    StopMattersIff(read, l, Joined(a), Joined(b));
  }

  lemma RunningFromStart(read: Reader, l: Link, chunk: Bytes)
    ensures Receive(read, l, chunk).session.running ==> l.session.running
  {
    hide DrainAll;
    if !l.session.running {
      StoppedIgnores(read, l, chunk);
    }
  }

  // ----- a stopped session that still trades -----

  /** A message of the given type, small enough to be one frame. */
  ghost predicate Sendable(fs: seq<Field>, t: Byte) {
    WellFormed(fs) && |Encode(fs)| <= 999_999 && TypeOf(Framing(fs)) == t
  }

  /** A whole message at the front of the buffer is handled and leaves the rest. */
  lemma MessageIsHandled(read: Reader, l: Link, fs: seq<Field>, rest: Bytes)
    requires WellFormed(fs) && |Encode(fs)| <= 999_999 && l.session.buf == Message(fs) + rest
    ensures DrainOnce(read, l)
            == Turn(Rebuffered(Handle(read, l, Framing(fs)), rest), true)
  {
    hide Handle, Split, Parse, Message, Encode, Framing;
    MessageIsOneFrame(fs);
    MessageParses(fs);
    SplitIsStable(Message(fs), rest);
    assert (Message(fs) + rest)[|Message(fs)|..] == rest;
  }

  /** A buffer that is one message is drained by handling it. */
  lemma OneMessageDrained(read: Reader, l: Link, fs: seq<Field>)
    requires WellFormed(fs) && |Encode(fs)| <= 999_999 && l.session.buf == Message(fs)
    ensures DrainAll(read, l) == Rebuffered(Handle(read, l, Framing(fs)), [])
  {
    hide Handle, Message, Encode, Framing, Split, DrainOnce;
    assert Message(fs) == Message(fs) + [];
    MessageIsHandled(read, l, fs, []);
    var r := Rebuffered(Handle(read, l, Framing(fs)), []);
    NothingIsIncomplete();
    WaitsIfIncomplete(read, r);
    TurnShrinks(read, l);
  }

  lemma LogonThenLogout(read: Reader, l: Link, logon: seq<Field>, logout: seq<Field>)
    requires l.session.running && l.session.buf == [] && Sendable(logon, LOGON) && Sendable(logout, LOGOUT)
    ensures var r := Receive(read, l, Message(logon) + Message(logout));
            && r.gate == l.gate && !r.session.running && r.session.loggedOn
            && r.session.buf == [] && r.session.calls == l.session.calls
  {
    hide Handle, Message, Encode, Framing, Split, DrainOnce, TypeOf;
    var c := Message(logon) + Message(logout);
    assert [] + c == c;
    var m := More(l, c);
    var on := Rebuffered(Handle(read, m, Framing(logon)), Message(logout));
    MessageIsHandled(read, m, logon, Message(logout));
    TurnShrinks(read, m);
    AfterLogon(read, m, Framing(logon));
    OneMessageDrained(read, on, logout);
    AfterLogout(read, on, Framing(logout));
  }

  /**
    Logon and Logout in one chunk stop the session. An acceptable order in the same chunk is still
    placed; in the next chunk it is not.
   */
  lemma OrderAfterLogout(read: Reader, l: Link, logon: seq<Field>, logout: seq<Field>, order: seq<Field>)
    requires l.session.running && l.session.buf == []
    requires Sendable(logon, LOGON) && Sendable(logout, LOGOUT) && Sendable(order, NEW_ORDER)
    requires var fs := Framing(order);
             Acceptable(RealOf(read, fs, TAG_ORDER_QTY), RealOf(read, fs, TAG_PRICE), SideByte(fs))
    ensures var c, d := Message(logon) + Message(logout), Message(order);
            var apart := Receive(read, Receive(read, l, c), d);
            var together := Receive(read, l, c + d);
            && !apart.session.running && !together.session.running
            && apart.session.calls == l.session.calls && apart.gate == l.gate
            && |together.session.calls| == |l.session.calls| + 1
            && together.gate.book.nextId == l.gate.book.nextId + 1
  {
    hide Handle, Message, Encode, Framing, Split, Acceptable, DrainAll, RealOf, SideByte, TypeOf;
    var c, d := Message(logon) + Message(logout), Message(order);
    LogonThenLogout(read, l, logon, logout);
    var r := Receive(read, l, c);
    StoppedIgnores(read, r, d);
    DrainAllAppend(read, More(l, c), d);
    assert l.session.buf + (c + d) == l.session.buf + c + d;
    assert More(l, c + d) == More(More(l, c), d) && r == DrainAll(read, More(l, c));
    NothingIsIncomplete();
    assert [] + d == d;
    OneMessageDrained(read, More(r, d), order);
    AfterOrder(read, More(r, d), Framing(order));
  }

  lemma NothingIsIncomplete()
    ensures Split([]).Incomplete?
  {
  }

  lemma AfterLogon(read: Reader, l: Link, fs: seq<Field>)
    requires TypeOf(fs) == LOGON
    ensures var r := Handle(read, l, fs);
            && r.gate == l.gate && r.session.running == l.session.running && r.session.loggedOn
            && r.session.calls == l.session.calls
  {
  }

  lemma AfterLogout(read: Reader, l: Link, fs: seq<Field>)
    requires TypeOf(fs) == LOGOUT && l.session.loggedOn
    ensures var r := Handle(read, l, fs);
            && r.gate == l.gate && !r.session.running && r.session.loggedOn && r.session.calls == l.session.calls
  {
  }

  lemma AfterOrder(read: Reader, l: Link, fs: seq<Field>)
    requires TypeOf(fs) == NEW_ORDER && l.session.loggedOn
    requires Acceptable(RealOf(read, fs, TAG_ORDER_QTY), RealOf(read, fs, TAG_PRICE), SideByte(fs))
    ensures var r := Handle(read, l, fs);
            && r.session.running == l.session.running && |r.session.calls| == |l.session.calls| + 1
            && r.gate.book.nextId == l.gate.book.nextId + 1
  {
    hide SendReports, Reports, Fill, Insert, RealOf, Ticks;
    var m := l.(session := l.session.(inSeq := l.session.inSeq + 1, handled := l.session.handled + [fs]));
    var qty, price := RealOf(read, fs, TAG_ORDER_QTY).Floor, Ticks(RealOf(read, fs, TAG_PRICE));
    var side := if SideByte(fs) == BUY then Buy else Sell;
    var p := Place(l.gate.book, side, price, qty);
    SendReportsKeeps(Link(m.gate.(book := p.book), Note(m.session, PlaceCall(side, price, qty))), TicketOf(fs),
                     Reports(p.id, qty, p.trades));
  }

  /** Three messages of that kind, small enough to arrive in one chunk: a logon, a logout, and an order to buy. */
  lemma OrderAfterLogoutHappens(l: Link)
    requires l.session.running && l.session.buf == []
    ensures var read: Reader := v => 1.0;
            var logon, logout := [Field(TAG_MSG_TYPE, [LOGON])], [Field(TAG_MSG_TYPE, [LOGOUT])];
            var order := [Field(TAG_MSG_TYPE, [NEW_ORDER]), Field(TAG_ORDER_QTY, [49]), Field(TAG_PRICE, [49])];
            var c, d := Message(logon) + Message(logout), Message(order);
            && |c + d| <= CHUNK_SIZE
            && Receive(read, Receive(read, l, c), d).gate == l.gate
            && Receive(read, l, c + d).gate.book.nextId == l.gate.book.nextId + 1
  {
    hide Message, DrainAll, Split;
    var read: Reader := v => 1.0;
    var logon, logout := [Field(TAG_MSG_TYPE, [LOGON])], [Field(TAG_MSG_TYPE, [LOGOUT])];
    var order := [Field(TAG_MSG_TYPE, [NEW_ORDER]), Field(TAG_ORDER_QTY, [49]), Field(TAG_PRICE, [49])];
    SmallMessage([LOGON]);
    SmallMessage([LOGOUT]);
    SmallOrder(order);
    OrderAfterLogout(read, l, logon, logout, order);
  }

  /** Around its body a message has 26 bytes of framing. */
  lemma MessageLength(fs: seq<Field>)
    ensures |Message(fs)| == |Encode(fs)| + 26
  {
    hide Encode;
    ThreeDigits(Checksum(Covered(fs)));
  }

  lemma SmallMessage(v: Bytes)
    requires |v| == 1 && v[0] != SOH
    ensures Sendable([Field(TAG_MSG_TYPE, v)], v[0])
    ensures |Message([Field(TAG_MSG_TYPE, v)])| <= 100
  {
    hide Encode, Framing, IntText, Get;
    var fs := [Field(TAG_MSG_TYPE, v)];
    SmallTag(TAG_MSG_TYPE);
    OneFieldText(fs[0]);
    HeaderSkipped(fs, TAG_MSG_TYPE);
    MessageLength(fs);
  }

  /** A tag below 100 prints as at most two digits. */
  lemma SmallTag(tag: nat)
    requires tag < 100
    ensures |IntText(tag)| <= 2
  {
    assert Pow10(1) == 10 && Pow10(2) == 100;
    DecimalLength(tag, 2);
  }

  /** A lookup in a built message skips the two framing fields. */
  lemma HeaderSkipped(fs: seq<Field>, tag: int)
    requires fs != [] && tag != TAG_BEGIN && tag != TAG_LENGTH && fs[0].tag == tag
    ensures Get(Framing(fs), tag) == fs[0].value
  {
    hide LengthText, Encode, Checksum, Padded;
    var g := Framing(fs);
    assert g[2] == fs[0];
    GetIsFirst(g, tag, 2);
  }

  lemma SmallOrder(fs: seq<Field>)
    requires fs == [Field(TAG_MSG_TYPE, [NEW_ORDER]), Field(TAG_ORDER_QTY, [49]), Field(TAG_PRICE, [49])]
    ensures Sendable(fs, NEW_ORDER) && |Message(fs)| <= 100
    ensures var g := Framing(fs);
            Acceptable(RealOf(v => 1.0, g, TAG_ORDER_QTY), RealOf(v => 1.0, g, TAG_PRICE), SideByte(g))
  {
    SmallTag(TAG_MSG_TYPE);
    SmallTag(TAG_ORDER_QTY);
    SmallTag(TAG_PRICE);
    assert fs == [fs[0]] + [fs[1]] + [fs[2]];
    EncodePush([fs[0]] + [fs[1]], fs[2]);
    EncodePush([fs[0]], fs[1]);
    OneFieldText(fs[0]);
    HeaderSkipped(fs, TAG_MSG_TYPE);
    MessageLength(fs);
    OrderLookups(fs);
  }

  lemma OrderLookups(fs: seq<Field>)
    requires fs == [Field(TAG_MSG_TYPE, [NEW_ORDER]), Field(TAG_ORDER_QTY, [49]), Field(TAG_PRICE, [49])]
    ensures var g := Framing(fs);
            Get(g, TAG_ORDER_QTY) == [49] && Get(g, TAG_PRICE) == [49] && Get(g, TAG_SIDE) == []
  {
    hide LengthText, Encode, Checksum, Padded;
    var g := Framing(fs);
    assert |g| == 6 && g[2] == fs[0] && g[3] == fs[1] && g[4] == fs[2];
    GetIsFirst(g, TAG_ORDER_QTY, 3);
    GetIsFirst(g, TAG_PRICE, 4);
    GetIsFirst(g, TAG_SIDE, 6);
  }

  // ----- a session as it runs is a run of the exchange -----

  function WithLink(x: Exchange, i: nat, l: Link): Exchange
    requires i < |x.sessions|
  {
    Exchange(l.gate, x.sessions[i := l.session])
  }

  lemma {:induction false} DidAppend(read: Reader, x: Exchange, a: seq<Act>, b: seq<Act>)
    ensures DidAll(read, x, a + b) == DidAll(read, DidAll(read, x, a), b)
  {
    hide Did;
    if b == [] {
      assert a + b == a;
    } else {
      var n := |b| - 1;
      DidAppend(read, x, a, b[..n]);
      assert (a + b)[..|a| + n] == a + b[..n] && (a + b)[|a| + n] == b[n];
    }
  }

  lemma DidThen(read: Reader, x: Exchange, act: Act, acts: seq<Act>)
    ensures DidAll(read, x, [act] + acts) == DidAll(read, Did(read, x, act), acts)
  {
    hide Did;
    DidAppend(read, x, [act], acts);
    assert [act][..0] == [] && DidAll(read, x, [act]) == Did(read, DidAll(read, x, []), act);
  }

  /** Draining session `i` is a number of its turns. */
  lemma {:induction false} DrainIsTurns(read: Reader, x: Exchange, i: nat)
    returns (acts: seq<Act>)
    requires i < |x.sessions|
    ensures DidAll(read, x, acts) == WithLink(x, i, DrainAll(read, Link(x.gate, x.sessions[i])))
    ensures forall k :: 0 <= k < |acts| ==> acts[k] == TakeTurn(i)
    decreases |x.sessions[i].buf|
  {
    hide DrainOnce;
    var l := Link(x.gate, x.sessions[i]);
    var y := Did(read, x, TakeTurn(i));
    var t := DrainOnce(read, l);
    var rest := [];
    if t.more {
      TurnShrinks(read, l);
      rest := DrainIsTurns(read, y, i);
      assert x.sessions[i := t.link.session][i := DrainAll(read, t.link).session]
          == x.sessions[i := DrainAll(read, t.link).session];
    }
    acts := [TakeTurn(i)] + rest;
    DidThen(read, x, TakeTurn(i), rest);
  }

  /**
    A chunk received by session `i` while the others stand still is a run of the exchange, so the laws
    over all runs hold of the session as it runs.
   */
  lemma ReceiveIsARun(read: Reader, x: Exchange, i: nat, chunk: Bytes)
    returns (acts: seq<Act>)
    requires i < |x.sessions|
    ensures DidAll(read, x, acts) == WithLink(x, i, Receive(read, Link(x.gate, x.sessions[i]), chunk))
    ensures forall k :: 0 <= k < |acts| ==> acts[k] == TakeTurn(i) || acts[k] == Arrive(i, chunk)
  {
    hide DrainAll;
    if x.sessions[i].running {
      var y := Did(read, x, Arrive(i, chunk));
      var turns := DrainIsTurns(read, y, i);
      acts := [Arrive(i, chunk)] + turns;
      DidThen(read, x, Arrive(i, chunk), turns);
    } else {
      acts := [];
      assert x.sessions[i := x.sessions[i]] == x.sessions;
    }
  }

  /** In particular session safety holds whenever a session has worked off what it received. */
  lemma ReceivingIsSafe(read: Reader, capacity: nat, acts: seq<Act>, i: nat, chunk: Bytes)
    requires i < |DidAll(read, Exchange(Gate(Empty(capacity), 1), []), acts).sessions|
    ensures var x := DidAll(read, Exchange(Gate(Empty(capacity), 1), []), acts);
            ExchangeOk(WithLink(x, i, Receive(read, Link(x.gate, x.sessions[i]), chunk)))
  {
    hide DidAll, Receive, ExchangeOk;
    var start := Exchange(Gate(Empty(capacity), 1), []);
    var more := ReceiveIsARun(read, DidAll(read, start, acts), i, chunk);
    DidAppend(read, start, acts, more);
    SessionSafety(read, capacity, acts + more);
  }

  // ----- the messages handled are the frames of the stream -----

  /** The frames up to the first that does not parse, parsed. */
  function ParsedFrames(frames: seq<Bytes>): seq<seq<Field>> {
    if frames == [] || !Parse(frames[0]).Fields? then []
    else [Parse(frames[0]).fields] + ParsedFrames(frames[1..])
  }

  /** The loop handles exactly the frames the splitter finds, up to one that does not parse. */
  lemma {:induction false} FramesAreHandled(read: Reader, l: Link)
    ensures DrainAll(read, l).session.handled == l.session.handled + ParsedFrames(Drain(l.session.buf).frames)
    decreases |l.session.buf|
  {
    hide Split, Parse, Handle;
    var buf := l.session.buf;
    match Split(buf)
    case Incomplete =>
    case Malformed =>
    case Framed(f) =>
      var fs := Drain(buf).frames;
      assert fs[0] == f && fs[1..] == Drain(buf[|f|..]).frames;
      if Parse(f).Fields? {
        HandleKeepsBuffer(read, l, Parse(f).fields);
        FramesAreHandled(read, DrainOnce(read, l).link);
        assert l.session.handled + [Parse(f).fields] + ParsedFrames(fs[1..])
               == l.session.handled + ([Parse(f).fields] + ParsedFrames(fs[1..]));
      }
  }
}
