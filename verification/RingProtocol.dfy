/**
  The single-producer single-consumer ring as a two-thread protocol: one step per atomic load or
  store and per slot access. Acquire loads may return stale values, as far as coherence allows.
  Which slot accesses happen-before which follows from the release stores a thread has read, and a
  slot read returns any write not overwritten by one that happens-before it.
 */
module RingProtocol {
  import opened WrapArithmetic
  import O = Orders

  datatype Cell<T> = Unset | Item(v: T)

  datatype Write<T> = Write(slot: nat, v: T)

  /** Between the steps of `try_push`; `h` is the head counter it loaded. */
  datatype Producer<T> = PIdle | PLoaded(v: T, h: nat) | PReserved(v: T, h: nat) | PWritten(v: T, h: nat)

  /** Between the steps of `try_pop`; `t` is the tail counter it loaded. */
  datatype Consumer<T> = CIdle | CLoaded(t: nat) | CReady(t: nat) | CRead(t: nat, out: Cell<T>)

  /**
    `heads` and `tails` are the modification orders of the two counters; `headRel[i]` is how many
    slot writes precede the i-th store to the head, `tailRel[i]` how many slot reads precede the
    i-th store to the tail. `headView`, `tailView` are the newest stores the other thread has read,
    `writesSeen`, `readsSeen` the slot accesses that thereby happen-before its next step.
   */
  datatype State<T> = State(
    k: nat,
    heads: seq<nat>, headRel: seq<nat>, headView: nat,
    tails: seq<nat>, tailRel: seq<nat>, tailView: nat,
    writes: seq<Write<T>>, writesSeen: nat,
    slotReads: seq<nat>, readsSeen: nat,
    producer: Producer<T>, consumer: Consumer<T>,
    pushed: seq<T>, popped: seq<Cell<T>>,
    raced: bool)

  function Init<T>(k: nat): State<T> {
    State(k, [0], [0], 0, [0], [0], 0, [], 0, [], 0, PIdle, CIdle, [], [], false)
  }

  datatype Action<T> =
    | PushBegin(v: T)
    | PushCheck(j: nat)
    | PushWrite
    | PushPublish
    | PopBegin
    | PopCheck(j: nat)
    | PopRead(source: int)
    | PopPublish

  function Slot<T>(s: State<T>, counter: nat): nat {
    And(counter, Pow2(s.k) - 1)
  }

  /** Write `i` is to `slot` and no later write that happens-before the reader hides it. */
  ghost predicate Visible<T>(s: State<T>, slot: nat, i: nat) {
    && i < |s.writes| && s.writes[i].slot == slot
    && forall j :: i < j < s.writesSeen && j < |s.writes| ==> s.writes[j].slot != slot
  }

  /** The initial contents of `slot` may still be read. */
  ghost predicate Untouched<T>(s: State<T>, slot: nat) {
    forall j :: 0 <= j < s.writesSeen && j < |s.writes| ==> s.writes[j].slot != slot
  }

  /** The loads may return any store from the newest one already read onwards. */
  ghost predicate Enabled<T>(s: State<T>, a: Action<T>) {
    match a
    case PushBegin(_) => s.producer.PIdle? && s.heads != []
    case PushCheck(j) => s.producer.PLoaded? && s.tailView <= j < |s.tails| && j < |s.tailRel|
    case PushWrite => s.producer.PReserved?
    case PushPublish => s.producer.PWritten?
    case PopBegin => s.consumer.CIdle? && s.tails != []
    case PopCheck(j) => s.consumer.CLoaded? && s.headView <= j < |s.heads| && j < |s.headRel|
    case PopRead(i) => s.consumer.CReady?
                       && (if i < 0 then Untouched(s, Slot(s, s.consumer.t)) else Visible(s, Slot(s, s.consumer.t), i))
    case PopPublish => s.consumer.CRead?
  }

  /** `next - tail > capacity` on 64-bit words. */
  predicate LooksFull<T>(s: State<T>, h: nat, tail: nat) {
    Wrap(Wrap(h + 1) - tail) > Pow2(s.k)
  }

  /** A slot write races with a read of the slot that does not happen-before it. */
  ghost predicate WriteRaces<T>(s: State<T>, slot: nat) {
    exists i :: s.readsSeen <= i < |s.slotReads| && s.slotReads[i] == slot
  }

  /** A slot read races with a write to the slot that does not happen-before it. */
  ghost predicate ReadRaces<T>(s: State<T>, slot: nat) {
    exists i :: s.writesSeen <= i < |s.writes| && s.writes[i].slot == slot
  }

  ghost function Step<T>(s: State<T>, a: Action<T>): State<T>
    requires Enabled(s, a)
  {
    match a
    case PushBegin(v) =>
      s.(producer := PLoaded(v, s.heads[|s.heads| - 1]))
    case PushCheck(j) =>
      var p := s.producer;
      s.(tailView := j, readsSeen := O.Max(s.readsSeen, s.tailRel[j]),
         producer := if LooksFull(s, p.h, s.tails[j]) then PIdle else PReserved(p.v, p.h))
    case PushWrite =>
      var p := s.producer;
      var slot := Slot(s, p.h);
      s.(writes := s.writes + [Write(slot, p.v)], producer := PWritten(p.v, p.h),
         raced := s.raced || WriteRaces(s, slot))
    case PushPublish =>
      var p := s.producer;
      s.(heads := s.heads + [Wrap(p.h + 1)], headRel := s.headRel + [|s.writes|],
         pushed := s.pushed + [p.v], producer := PIdle)
    case PopBegin =>
      s.(consumer := CLoaded(s.tails[|s.tails| - 1]))
    case PopCheck(j) =>
      var t := s.consumer.t;
      s.(headView := j, writesSeen := O.Max(s.writesSeen, s.headRel[j]),
         consumer := if t == s.heads[j] then CIdle else CReady(t))
    case PopRead(i) =>
      var slot := Slot(s, s.consumer.t);
      s.(slotReads := s.slotReads + [slot],
         consumer := CRead(s.consumer.t, if i < 0 then Unset else Item(s.writes[i].v)),
         raced := s.raced || ReadRaces(s, slot))
    case PopPublish =>
      var c := s.consumer;
      s.(tails := s.tails + [Wrap(c.t + 1)], tailRel := s.tailRel + [|s.slotReads|],
         popped := s.popped + [c.out], consumer := CIdle)
  }

  // ----- the invariant -----

  /** How many items have been published, and how many consumed. */
  function Head<T>(s: State<T>): nat { |s.pushed| }

  function Tail<T>(s: State<T>): nat { |s.popped| }

  /** Both counters have counted every publication, and their stores carry the matching history. */
  ghost predicate Counters<T>(s: State<T>) {
    && 1 <= s.k <= 63
    && |s.heads| == |s.headRel| == Head(s) + 1
    && |s.tails| == |s.tailRel| == Tail(s) + 1
    && (forall i :: 0 <= i < |s.heads| ==> s.heads[i] == Wrap(i) && s.headRel[i] == i)
    && (forall i :: 0 <= i < |s.tails| ==> s.tails[i] == Wrap(i) && s.tailRel[i] == i)
  }

  /** The two views are between the counters and at most a capacity behind. */
  ghost predicate Views<T>(s: State<T>) {
    && s.writesSeen == s.headView && s.readsSeen == s.tailView
    && s.tailView <= Tail(s) <= s.headView <= Head(s) <= s.tailView + Pow2(s.k)
  }

  /** The slot accesses so far: item i was written to and read from slot i mod capacity. */
  ghost predicate Accesses<T>(s: State<T>) {
    && |s.writes| == Head(s) + (if s.producer.PWritten? then 1 else 0)
    && |s.slotReads| == Tail(s) + (if s.consumer.CRead? then 1 else 0)
    && (forall i :: 0 <= i < |s.writes| ==> s.writes[i].slot == i % Pow2(s.k))
    && (forall i :: 0 <= i < |s.slotReads| ==> s.slotReads[i] == i % Pow2(s.k))
    && (forall i :: 0 <= i < Head(s) ==> s.writes[i].v == s.pushed[i])
  }

  ghost predicate ProducerOk<T>(s: State<T>) {
    match s.producer
    case PIdle => true
    case PLoaded(_, h) => h == Wrap(Head(s))
    case PReserved(_, h) => h == Wrap(Head(s)) && Head(s) + 1 <= s.tailView + Pow2(s.k)
    case PWritten(v, h) => h == Wrap(Head(s)) && Head(s) + 1 <= s.tailView + Pow2(s.k)
                           && |s.writes| == Head(s) + 1 && s.writes[Head(s)].v == v
  }

  ghost predicate ConsumerOk<T>(s: State<T>) {
    match s.consumer
    case CIdle => true
    case CLoaded(t) => t == Wrap(Tail(s))
    case CReady(t) => t == Wrap(Tail(s)) && Tail(s) < s.headView
    case CRead(t, out) =>
      t == Wrap(Tail(s)) && Tail(s) < s.headView && Tail(s) < Head(s) && out == Item(s.pushed[Tail(s)])
  }

  /** What has been popped is a prefix of what has been pushed. */
  ghost predicate Fifo<T>(s: State<T>) {
    Tail(s) <= Head(s) && forall i :: 0 <= i < Tail(s) ==> s.popped[i] == Item(s.pushed[i])
  }

  ghost predicate Inv<T>(s: State<T>) {
    Counters(s) && Views(s) && Accesses(s) && ProducerOk(s) && ConsumerOk(s) && Fifo(s) && !s.raced
  }

  // ----- the arithmetic of the two checks -----

  /** The full test on wrapped words decides whether a push would exceed the capacity seen. */
  lemma FullTest<T>(s: State<T>, j: nat)
    requires Counters(s) && Views(s) && s.tailView <= j < |s.tails|
    ensures LooksFull(s, Wrap(Head(s)), s.tails[j]) <==> Head(s) + 1 - j > Pow2(s.k)
  {
    hide Wrap, And, Pow2;
    CapacityFits(s.k);
    WrappedSuccessor(Head(s));
    WrappedDistance(Head(s) + 1, j);
  }

  /** The empty test on wrapped words decides whether nothing seen is left to pop. */
  lemma EmptyTest<T>(s: State<T>, j: nat)
    requires Counters(s) && Views(s) && s.headView <= j < |s.heads|
    ensures Wrap(Tail(s)) == s.heads[j] <==> Tail(s) == j
  {
    hide Wrap, And, Pow2;
    CapacityFits(s.k);
    WrappedEqual(Tail(s), j);
  }

  // ----- every step keeps the invariant -----

  lemma PushCheckKeeps<T>(s: State<T>, j: nat)
    requires Inv(s) && Enabled(s, PushCheck(j))
    ensures Inv(Step(s, PushCheck(j)))
  {
    hide Wrap, And, Pow2;
    FullTest(s, j);
  }

  lemma PushWriteKeeps<T>(s: State<T>)
    requires Inv(s) && Enabled(s, PushWrite)
    ensures Inv(Step(s, PushWrite))
  {
    hide Wrap, And, Pow2;
    MaskWrap(Head(s), s.k);
    CapacityFits(s.k);
    if i :| s.readsSeen <= i < |s.slotReads| && s.slotReads[i] == Head(s) % Pow2(s.k) {
      NearCongruent(i, Head(s), Pow2(s.k));
    }
  }

  lemma PushPublishKeeps<T>(s: State<T>)
    requires Inv(s) && Enabled(s, PushPublish)
    ensures Inv(Step(s, PushPublish))
  {
    hide Wrap, And, Pow2;
    WrappedSuccessor(Head(s));
  }

  lemma PopCheckKeeps<T>(s: State<T>, j: nat)
    requires Inv(s) && Enabled(s, PopCheck(j))
    ensures Inv(Step(s, PopCheck(j)))
  {
    hide Wrap, And, Pow2;
    EmptyTest(s, j);
  }

  /** A writer has not come round to the slot the consumer is about to read. */
  lemma OnlyOneWrite<T>(s: State<T>, i: nat)
    requires Inv(s) && s.consumer.CReady? && Tail(s) <= i < |s.writes| && s.writes[i].slot == Tail(s) % Pow2(s.k)
    ensures i == Tail(s)
  {
    NearCongruent(i, Tail(s), Pow2(s.k));
  }

  /** Whatever the memory model allows the consumer to read is the next item. */
  lemma PopReadsNext<T>(s: State<T>, i: int)
    requires Inv(s) && Enabled(s, PopRead(i))
    ensures i == Tail(s) && !ReadRaces(s, Slot(s, s.consumer.t))
  {
    hide Wrap, And, Pow2;
    MaskWrap(Tail(s), s.k);
    CapacityFits(s.k);
    var slot := Tail(s) % Pow2(s.k);
    assert s.writes[Tail(s)].slot == slot;
    if x :| s.writesSeen <= x < |s.writes| && s.writes[x].slot == slot {
      OnlyOneWrite(s, x);
    }
    if i >= Tail(s) {
      OnlyOneWrite(s, i);
    }
  }

  lemma PopReadKeeps<T>(s: State<T>, i: int)
    requires Inv(s) && Enabled(s, PopRead(i))
    ensures Inv(Step(s, PopRead(i)))
  {
    hide Wrap, And, Pow2;
    PopReadsNext(s, i);
    MaskWrap(Tail(s), s.k);
  }

  lemma PopPublishKeeps<T>(s: State<T>)
    requires Inv(s) && Enabled(s, PopPublish)
    ensures Inv(Step(s, PopPublish))
  {
    hide Wrap, And, Pow2;
    WrappedSuccessor(Tail(s));
  }

  lemma StepKeepsInv<T>(s: State<T>, a: Action<T>)
    requires Inv(s) && Enabled(s, a)
    ensures Inv(Step(s, a))
  {
    hide Wrap, And, Pow2;
    match a
    case PushBegin(_) =>
    case PushCheck(j) => PushCheckKeeps(s, j);
    case PushWrite => PushWriteKeeps(s);
    case PushPublish => PushPublishKeeps(s);
    case PopBegin =>
    case PopCheck(j) => PopCheckKeeps(s, j);
    case PopRead(i) => PopReadKeeps(s, i);
    case PopPublish => PopPublishKeeps(s);
  }

  // ----- runs -----

  /** The steps `acts` can be taken one after the other, in whatever interleaving they are. */
  ghost predicate Legal<T>(k: nat, acts: seq<Action<T>>)
    decreases |acts|, 0
  {
    acts == [] || (Legal(k, acts[..|acts| - 1]) && Enabled(Exec(k, acts[..|acts| - 1]), acts[|acts| - 1]))
  }

  ghost function Exec<T>(k: nat, acts: seq<Action<T>>): State<T>
    requires Legal(k, acts)
    decreases |acts|, 1
  {
    if acts == [] then Init(k) else Step(Exec(k, acts[..|acts| - 1]), acts[|acts| - 1])
  }

  lemma InitInv<T>(k: nat)
    requires 1 <= k <= 63
    ensures Inv(Init<T>(k))
  {
    hide Wrap, Pow2;
    WrapZero();
  }

  lemma {:induction false} RunKeepsInv<T>(k: nat, acts: seq<Action<T>>)
    requires 1 <= k <= 63 && Legal(k, acts)
    ensures Inv(Exec(k, acts))
    decreases |acts|
  {
    hide Inv, Step, Enabled, Init;
    if acts == [] {
      InitInv<T>(k);
    } else {
      RunKeepsInv(k, acts[..|acts| - 1]);
      StepKeepsInv(Exec(k, acts[..|acts| - 1]), acts[|acts| - 1]);
    }
  }

  /**
    In every interleaving, with stale loads and wrapping counters: the popped values are a prefix of
    the pushed ones, at most the capacity is in flight, and no slot access races with another.
   */
  lemma RingIsSafe<T>(k: nat, acts: seq<Action<T>>)
    requires 1 <= k <= 63 && Legal(k, acts)
    ensures var s := Exec(k, acts);
            && |s.popped| <= |s.pushed| <= |s.popped| + Pow2(k)
            && (forall i :: 0 <= i < |s.popped| ==> s.popped[i] == Item(s.pushed[i]))
            && !s.raced
  {
    RunKeepsInv(k, acts);
    RunKeepsCapacity(k, acts);
  }

  lemma {:induction false} RunKeepsCapacity<T>(k: nat, acts: seq<Action<T>>)
    requires Legal(k, acts)
    ensures Exec(k, acts).k == k
    decreases |acts|
  {
    if acts != [] {
      RunKeepsCapacity(k, acts[..|acts| - 1]);
    }
  }

  lemma SlotsApart<T>(s: State<T>)
    requires Inv(s) && s.producer.PReserved? && s.consumer.CReady?
    ensures Slot(s, s.producer.h) != Slot(s, s.consumer.t)
  {
    hide Wrap, And, Pow2;
    MaskWrap(Head(s), s.k);
    MaskWrap(Tail(s), s.k);
    DifferentSlots(Tail(s), Head(s), Pow2(s.k));
  }

  lemma NextIsVisible<T>(s: State<T>)
    requires Inv(s) && s.consumer.CReady?
    ensures Visible(s, Slot(s, s.consumer.t), Tail(s))
  {
    hide Wrap, And, Pow2;
    MaskWrap(Tail(s), s.k);
    forall j | Tail(s) < j < s.writesSeen && j < |s.writes|
      ensures s.writes[j].slot != Tail(s) % Pow2(s.k)
    {
      if s.writes[j].slot == Tail(s) % Pow2(s.k) {
        OnlyOneWrite(s, j);
      }
    }
  }

  /** The slot the producer is about to write is not the one the consumer is about to read. */
  lemma NeverSameSlot<T>(k: nat, acts: seq<Action<T>>)
    requires 1 <= k <= 63 && Legal(k, acts)
    ensures var s := Exec(k, acts);
            s.producer.PReserved? && s.consumer.CReady? ==> Slot(s, s.producer.h) != Slot(s, s.consumer.t)
  {
    RunKeepsInv(k, acts);
    var s := Exec(k, acts);
    if s.producer.PReserved? && s.consumer.CReady? {
      SlotsApart(s);
    }
  }

  /** A push refuses exactly if the ring is full by the tail it read; reading the newest, if it is full. */
  lemma PushRefusesIffFull<T>(k: nat, acts: seq<Action<T>>, j: nat)
    requires 1 <= k <= 63 && Legal(k, acts) && Enabled(Exec(k, acts), PushCheck(j))
    ensures var s := Exec(k, acts);
            && (Step(s, PushCheck(j)).producer.PIdle? <==> |s.pushed| - j == Pow2(k))
            && (j == |s.tails| - 1 ==>
                  (Step(s, PushCheck(j)).producer.PIdle? <==> |s.pushed| - |s.popped| == Pow2(k)))
  {
    RunKeepsInv(k, acts);
    RunKeepsCapacity(k, acts);
    FullTest(Exec(k, acts), j);
  }

  /** A pop refuses exactly if nothing is left by the head it read; reading the newest, if it is empty. */
  lemma PopRefusesIffEmpty<T>(k: nat, acts: seq<Action<T>>, j: nat)
    requires 1 <= k <= 63 && Legal(k, acts) && Enabled(Exec(k, acts), PopCheck(j))
    ensures var s := Exec(k, acts);
            && (Step(s, PopCheck(j)).consumer.CIdle? <==> |s.popped| == j)
            && (j == |s.heads| - 1 ==>
                  (Step(s, PopCheck(j)).consumer.CIdle? <==> |s.pushed| == |s.popped|))
  {
    RunKeepsInv(k, acts);
    EmptyTest(Exec(k, acts), j);
  }

  /** A consumer that has seen an item can read it: some source is always allowed. */
  lemma ReadAlwaysPossible<T>(k: nat, acts: seq<Action<T>>)
    requires 1 <= k <= 63 && Legal(k, acts) && Exec(k, acts).consumer.CReady?
    ensures var s := Exec(k, acts);
            Enabled(s, PopRead(|s.popped|))
  {
    RunKeepsInv(k, acts);
    NextIsVisible(Exec(k, acts));
  }

  /** `head - tail` on 64-bit words. */
  function SizeRead(head: int, tail: int): nat {
    Wrap(head - tail)
  }

  lemma SizeFromCounts(i: nat, j: nat)
    ensures j <= i < j + WORD ==> SizeRead(Wrap(i), Wrap(j)) == i - j
    ensures i < j < i + WORD ==> SizeRead(Wrap(i), Wrap(j)) == WORD - (j - i)
  {
    hide Wrap;
    if j <= i < j + WORD {
      WrappedDistance(i, j);
    } else if i < j < i + WORD {
      WrappedOnce(i);
      WrappedDistance(i + WORD, j);
    }
  }

  /**
    What a size query reads, by whoever and however late: the i-th store to the head and the j-th to
    the tail differ by i - j on 64-bit words. With both loads current that is the number in flight; a
    tail read newer than the head wraps around.
   */
  lemma SizeApproxReads<T>(k: nat, acts: seq<Action<T>>, i: nat, j: nat)
    requires 1 <= k <= 63 && Legal(k, acts)
    requires i < |Exec(k, acts).heads| && j < |Exec(k, acts).tails|
    ensures var s := Exec(k, acts);
            var size := SizeRead(s.heads[i], s.tails[j]);
            && (j <= i < j + WORD ==> size == i - j)
            && (i < j < i + WORD ==> size == WORD - (j - i))
            && (i == |s.heads| - 1 && j == |s.tails| - 1 ==> size == |s.pushed| - |s.popped| <= Pow2(k))
  {
    hide Wrap, Pow2, SizeRead, Exec, Legal, Accesses, ProducerOk, ConsumerOk, Fifo;
    RunKeepsInv(k, acts);
    RunKeepsCapacity(k, acts);
    CapacityFits(k);
    SizeFromCounts(i, j);
  }
}
