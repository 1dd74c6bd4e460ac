/** The single-producer, single-consumer FIFO, one load or store of either side at a time. */
module MtFifo {
  import opened RingMath

  /** Where the producer is in `enqueue`: the fullness check, then load, slot write and head store. */
  datatype Producer =
    | PIdle
    | PSawHead(obj: int, h: nat)
    | PSawBoth(obj: int, h: nat, t: nat)
    | PCleared(obj: int)
    | PLoaded(obj: int, h: nat)
    | PWriting(obj: int, h: nat)
    | PWritten(obj: int, h: nat)

  /** Where the consumer is in `dequeue`: the emptiness check, then load, slot read and tail store. */
  datatype Consumer =
    | CIdle
    | CSawHead(h: nat)
    | CSawBoth(h: nat, t: nat)
    | CCleared
    | CLoaded(t: nat)
    | CReading(t: nat)
    | CRead(t: nat, obj: int)

  /** `sent` and `received` are the histories of completed calls; the rest is what memory holds. */
  datatype State = State(
    store: seq<int>, head: nat, tail: nat, p: Producer, c: Consumer, sent: seq<int>, received: seq<int>)

  function Init(store: seq<int>): State { State(store, 0, 0, PIdle, CIdle, [], []) }

  /** size(), from values of head and tail that were loaded one after the other. */
  function Size(n: nat, h: nat, t: nat): int { if h >= t then h - t else n + h - t }

  datatype Step =
    | Enqueue(obj: int)
    | PLoadTail
    | PDecide
    | PLoadHead
    | PStartWrite(torn: int)
    | PEndWrite
    | PStoreHead
    | CLoadHead
    | CLoadTail
    | CDecide
    | CLoadTailAgain
    | CStartRead
    | CEndRead
    | CStoreTail

  predicate Enabled(s: State, a: Step) {
    match a
    case Enqueue(_) => s.p.PIdle?
    case PLoadTail => s.p.PSawHead?
    case PDecide => s.p.PSawBoth?
    case PLoadHead => s.p.PCleared?
    case PStartWrite(_) => s.p.PLoaded? && s.p.h < |s.store|
    case PEndWrite => s.p.PWriting? && s.p.h < |s.store|
    case PStoreHead => s.p.PWritten?
    case CLoadHead => s.c.CIdle?
    case CLoadTail => s.c.CSawHead?
    case CDecide => s.c.CSawBoth?
    case CLoadTailAgain => s.c.CCleared?
    case CStartRead => s.c.CLoaded?
    case CEndRead => s.c.CReading? && s.c.t < |s.store|
    case CStoreTail => s.c.CRead?
  }

  /** While a slot is written its content is arbitrary. A full FIFO turns the producer away, an empty
    * one the consumer.
    */
  function Apply(s: State, a: Step): State
    requires Enabled(s, a)
  {
    var n := |s.store|;
    match a
    case Enqueue(obj) => s.(p := PSawHead(obj, s.head))
    case PLoadTail => s.(p := PSawBoth(s.p.obj, s.p.h, s.tail))
    case PDecide => s.(p := if Size(n, s.p.h, s.p.t) == n - 1 then PIdle else PCleared(s.p.obj))
    case PLoadHead => s.(p := PLoaded(s.p.obj, s.head))
    case PStartWrite(torn) => s.(p := PWriting(s.p.obj, s.p.h), store := s.store[s.p.h := torn])
    case PEndWrite => s.(p := PWritten(s.p.obj, s.p.h), store := s.store[s.p.h := s.p.obj])
    case PStoreHead => s.(p := PIdle, head := Incr(s.p.h, n), sent := s.sent + [s.p.obj])
    case CLoadHead => s.(c := CSawHead(s.head))
    case CLoadTail => s.(c := CSawBoth(s.c.h, s.tail))
    case CDecide => s.(c := if Size(n, s.c.h, s.c.t) == 0 then CIdle else CCleared)
    case CLoadTailAgain => s.(c := CLoaded(s.tail))
    case CStartRead => s.(c := CReading(s.c.t))
    case CEndRead => s.(c := CRead(s.c.t, s.store[s.c.t]))
    case CStoreTail => s.(c := CIdle, tail := Incr(s.c.t, n), received := s.received + [s.c.obj])
  }

  /** The queue that the memory stands for. */
  function Queue(s: State): seq<int>
    requires |s.received| <= |s.sent|
  {
    s.sent[|s.received|..]
  }

  /** An index that was loaded once tells a count of the past that is still within reach. */
  ghost predicate Was(n: nat, index: nat, count: int) {
    n > 0 && count >= 0 && index == Slot(count, n)
  }

  ghost predicate ProducerOk(s: State)
    requires |s.store| > 0 && |s.received| <= |s.sent|
  {
    var n := |s.store|;
    match s.p
    case PIdle => true
    case PSawHead(_, h) => h == s.head
    case PSawBoth(_, h, t) =>
      h == s.head && exists m :: |s.sent| - (n - 1) <= m <= |s.received| && Was(n, t, m)
    case PCleared(_) => |s.sent| - |s.received| < n - 1
    case PLoaded(_, h) => h == s.head && |s.sent| - |s.received| < n - 1
    case PWriting(_, h) => h == s.head && |s.sent| - |s.received| < n - 1
    case PWritten(obj, h) => h == s.head && |s.sent| - |s.received| < n - 1 && h < n && s.store[h] == obj
  }

  ghost predicate ConsumerOk(s: State)
    requires |s.store| > 0 && |s.received| <= |s.sent|
  {
    var n := |s.store|;
    match s.c
    case CIdle => true
    case CSawHead(h) => exists m :: |s.received| <= m <= |s.sent| && m - |s.received| <= n - 1 && Was(n, h, m)
    case CSawBoth(h, t) =>
      t == s.tail && exists m :: |s.received| <= m <= |s.sent| && m - |s.received| <= n - 1 && Was(n, h, m)
    case CCleared => |s.received| < |s.sent|
    case CLoaded(t) => t == s.tail && |s.received| < |s.sent|
    case CReading(t) => t == s.tail && |s.received| < |s.sent|
    case CRead(t, obj) => t == s.tail && |s.received| < |s.sent| && obj == s.sent[|s.received|]
  }

  ghost predicate Inv(s: State) {
    var n := |s.store|;
    && n > 0 && s.received <= s.sent && |s.sent| - |s.received| <= n - 1
    && s.head == Slot(|s.sent|, n) && s.tail == Slot(|s.received|, n)
    && (forall i :: |s.received| <= i < |s.sent| ==> s.store[Slot(i, n)] == s.sent[i])
    && ProducerOk(s) && ConsumerOk(s)
  }

  /** Two loads that are not too far apart give the exact difference. */
  lemma SizeIsExact(n: nat, h: int, t: int, hc: int, tc: int)
    requires n > 0 && 0 <= tc <= hc <= tc + n - 1 && h == Slot(hc, n) && t == Slot(tc, n)
    ensures Size(n, h, t) == hc - tc
  {
    SlotAdd(tc, hc - tc, n);
  }

  /** The slot being filled is none of those in the queue. */
  lemma FreshSlot(n: nat, sent: nat, received: nat)
    requires n > 0 && received <= sent && sent - received < n - 1
    ensures forall i :: received <= i < sent ==> Slot(i, n) != Slot(sent, n)
  {
    forall i | received <= i < sent ensures Slot(i, n) != Slot(sent, n) {
      SlotsDiffer(i, sent, n);
    }
  }

  lemma InitInv(store: seq<int>)
    requires |store| > 0
    ensures Inv(Init(store))
  {
  }

  lemma ProducerLooks(s: State, a: Step)
    requires Inv(s) && Enabled(s, a) && (a.Enqueue? || a.PLoadTail? || a.PDecide? || a.PLoadHead?)
    ensures Inv(Apply(s, a))
  {
    var n := |s.store|;
    if a.PLoadTail? {
      assert Was(n, s.tail, |s.received|);
    } else if a.PDecide? {
      var m :| |s.sent| - (n - 1) <= m <= |s.received| && Was(n, s.p.t, m);
      SizeIsExact(n, s.p.h, s.p.t, |s.sent|, m);
    }
  }

  lemma ProducerWrites(s: State, a: Step)
    requires Inv(s) && Enabled(s, a) && (a.PStartWrite? || a.PEndWrite? || a.PStoreHead?)
    ensures Inv(Apply(s, a))
  {
    hide Slot;
    var n, s' := |s.store|, Apply(s, a);
    FreshSlot(n, |s.sent|, |s.received|);
    SlotNext(|s.sent|, n);
    if s.c.CSawHead? || s.c.CSawBoth? {
      var m :| |s.received| <= m <= |s.sent| && m - |s.received| <= n - 1 && Was(n, s.c.h, m);
      assert |s'.received| <= m <= |s'.sent| && m - |s'.received| <= n - 1 && Was(|s'.store|, s'.c.h, m);
    }
  }

  lemma ConsumerLooks(s: State, a: Step)
    requires Inv(s) && Enabled(s, a) && (a.CLoadHead? || a.CLoadTail? || a.CDecide? || a.CLoadTailAgain?)
    ensures Inv(Apply(s, a))
  {
    var n := |s.store|;
    if a.CLoadHead? {
      assert Was(n, s.head, |s.sent|);
    } else if a.CDecide? {
      var m :| |s.received| <= m <= |s.sent| && m - |s.received| <= n - 1 && Was(n, s.c.h, m);
      SizeIsExact(n, s.c.h, s.c.t, m, |s.received|);
    }
  }

  lemma ConsumerReads(s: State, a: Step)
    requires Inv(s) && Enabled(s, a) && (a.CStartRead? || a.CEndRead? || a.CStoreTail?)
    ensures Inv(Apply(s, a))
  {
    var n, s' := |s.store|, Apply(s, a);
    SlotNext(|s.received|, n);
    if a.CStoreTail? && s.p.PSawBoth? {
      var m :| |s.sent| - (n - 1) <= m <= |s.received| && Was(n, s.p.t, m);
      assert |s'.sent| - (n - 1) <= m <= |s'.received| && Was(n, s'.p.t, m);
    }
  }

  /** Every load and every store keeps the invariant. */
  lemma StepInv(s: State, a: Step)
    requires Inv(s) && Enabled(s, a)
    ensures Inv(Apply(s, a))
  {
    hide Inv, Apply, Enabled;
    if a.Enqueue? || a.PLoadTail? || a.PDecide? || a.PLoadHead? {
      ProducerLooks(s, a);
    } else if a.PStartWrite? || a.PEndWrite? || a.PStoreHead? {
      ProducerWrites(s, a);
    } else if a.CLoadHead? || a.CLoadTail? || a.CDecide? || a.CLoadTailAgain? {
      ConsumerLooks(s, a);
    } else {
      ConsumerReads(s, a);
    }
  }

  predicate Run(s: State, steps: seq<Step>)
    decreases |steps|
  {
    steps == [] || (Enabled(s, steps[0]) && Run(Apply(s, steps[0]), steps[1..]))
  }

  function After(s: State, steps: seq<Step>): State
    requires Run(s, steps)
    decreases |steps|
  {
    if steps == [] then s else After(Apply(s, steps[0]), steps[1..])
  }

  lemma {:induction false} RunInv(s: State, steps: seq<Step>)
    requires Inv(s) && Run(s, steps)
    ensures Inv(After(s, steps))
    decreases |steps|
  {
    if steps != [] {
      StepInv(s, steps[0]);
      RunInv(Apply(s, steps[0]), steps[1..]);
    }
  }

  /** Main result: in every run what comes out is a prefix of what went in, in order, and never more
    * than the capacity is inside.
    */
  lemma FirstInFirstOut(store: seq<int>, steps: seq<Step>)
    requires |store| > 0 && Run(Init(store), steps)
    ensures
      var s := After(Init(store), steps);
      s.received <= s.sent && |Queue(s)| <= |store| - 1
  {
    InitInv(store);
    RunInv(Init(store), steps);
    StoreKept(Init(store), steps);
  }

  lemma {:induction false} StoreKept(s: State, steps: seq<Step>)
    requires Run(s, steps)
    ensures |After(s, steps).store| == |s.store|
    decreases |steps|
  {
    if steps != [] { StoreKept(Apply(s, steps[0]), steps[1..]); }
  }

  /** No slot is ever read while it is being written. */
  lemma NoRace(s: State)
    requires Inv(s) && s.p.PWriting? && s.c.CReading?
    ensures s.p.h != s.c.t
  {
    SlotsDiffer(|s.received|, |s.sent|, |s.store|);
  }

  /** size() of the current head and tail is the length of the queue. */
  lemma SizeIsQueue(s: State)
    requires Inv(s)
    ensures Size(|s.store|, s.head, s.tail) == |Queue(s)|
  {
    SizeIsExact(|s.store|, s.head, s.tail, |s.sent|, |s.received|);
  }

  /** Seen from outside, the store to head appends, the store to tail removes the first element and
    * hands it out, and no other step does anything.
    */
  lemma StepRefines(s: State, a: Step)
    requires Inv(s) && Enabled(s, a)
    ensures
      var s' := Apply(s, a);
      && |s'.received| <= |s'.sent|
      && match a
         case PStoreHead => |Queue(s)| < |s.store| - 1 && Queue(s') == Queue(s) + [s.p.obj]
         case CStoreTail => Queue(s) == [s.c.obj] + Queue(s')
         case _ => Queue(s') == Queue(s) && s'.received == s.received
  {
  }

  predicate OfConsumer(a: Step) {
    a.CLoadHead? || a.CLoadTail? || a.CDecide? || a.CLoadTailAgain? || a.CStartRead? || a.CEndRead? || a.CStoreTail?
  }

  lemma {:induction false} RunSplit(s: State, a: seq<Step>, b: seq<Step>)
    requires Run(s, a + b)
    ensures Run(s, a) && Run(After(s, a), b) && After(s, a + b) == After(After(s, a), b)
    decreases |a|
  {
    if a == [] {
      assert a + b == b;
    } else {
      assert (a + b)[1..] == a[1..] + b;
      RunSplit(Apply(s, a[0]), a[1..], b);
    }
  }

  lemma {:induction false} RunJoin(s: State, a: seq<Step>, b: seq<Step>)
    requires Run(s, a) && Run(After(s, a), b)
    ensures Run(s, a + b) && After(s, a + b) == After(After(s, a), b)
    decreases |a|
  {
    if a == [] {
      assert a + b == b;
    } else {
      assert (a + b)[1..] == a[1..] + b;
      RunJoin(Apply(s, a[0]), a[1..], b);
    }
  }

  /** The consumer is within a call that found `seen` elements sent and `taken` of them received when it
    * loaded head. Past the check there is one to take.
    */
  ghost predicate Dequeuing(s: State, seen: nat, taken: nat)
    requires |s.store| > 0
  {
    && taken <= seen <= |s.sent| && |s.received| == taken && seen - taken <= |s.store| - 1
    && match s.c
       case CIdle => false
       case CSawHead(h) => h == Slot(seen, |s.store|)
       case CSawBoth(h, _) => h == Slot(seen, |s.store|)
       case _ => taken < seen
  }

  /** The producer is within a call for `obj` that found `taken` elements received when it loaded tail.
    * Past the check there is room.
    */
  ghost predicate Enqueuing(s: State, obj: int, taken: nat)
    requires |s.store| > 0
  {
    && taken <= |s.received| && |s.sent| - taken <= |s.store| - 1
    && match s.p
       case PIdle => false
       case PSawHead(_, _) => false
       case PSawBoth(o, _, t) => o == obj && t == Slot(taken, |s.store|)
       case PCleared(o) => o == obj && |s.sent| - taken < |s.store| - 1
       case PLoaded(o, _) => o == obj && |s.sent| - taken < |s.store| - 1
       case PWriting(o, _) => o == obj && |s.sent| - taken < |s.store| - 1
       case PWritten(o, _) => o == obj && |s.sent| - taken < |s.store| - 1
  }

  /** One step within a call of the consumer. The call ends with the check if nothing was there, and
    * with the store to tail otherwise.
    */
  lemma DequeuingStep(s: State, a: Step, seen: nat, taken: nat)
    requires Inv(s) && Dequeuing(s, seen, taken) && Enabled(s, a)
    ensures
      var s' := Apply(s, a);
      && |s'.store| == |s.store| && s.sent <= s'.sent
      && (!OfConsumer(a) ==> s'.c == s.c)
      && (!s'.c.CIdle? ==> Dequeuing(s', seen, taken) && s'.received == s.received)
      && (s'.c.CIdle? ==>
            s'.received == if taken < seen then s.received + [s.sent[taken]] else s.received)
      && (a.CDecide? ==> s'.c == if seen == taken then CIdle else CCleared)
  {
    if a.CDecide? {
      SizeIsExact(|s.store|, s.c.h, s.c.t, seen, taken);
    }
  }

  /** One step within a call of the producer. The call ends with the check if there was no room, and
    * with the store to head otherwise.
    */
  lemma EnqueuingStep(s: State, a: Step, obj: int, taken: nat)
    requires Inv(s) && Enqueuing(s, obj, taken) && Enabled(s, a)
    ensures
      var s' := Apply(s, a);
      var full := |s.sent| - taken == |s.store| - 1;
      && |s'.store| == |s.store|
      && (OfConsumer(a) ==> s'.p == s.p)
      && (!s'.p.PIdle? ==> Enqueuing(s', obj, taken) && s'.sent == s.sent)
      && (s'.p.PIdle? ==> s'.sent == if full then s.sent else s.sent + [obj])
      && (a.PDecide? ==> s'.p == if full then PIdle else PCleared(obj))
  {
    if a.PDecide? {
      SizeIsExact(|s.store|, s.p.h, s.p.t, |s.sent|, taken);
    }
  }

  /** `steps` are those of both sides up to the end of the consumer's call, from within it. */
  ghost predicate EndsDequeue(s: State, steps: seq<Step>)
    requires Run(s, steps)
    decreases |steps|
  {
    && steps != []
    && if Apply(s, steps[0]).c.CIdle? then |steps| == 1 else EndsDequeue(Apply(s, steps[0]), steps[1..])
  }

  lemma {:induction false} DequeueEnds(s: State, steps: seq<Step>, seen: nat, taken: nat)
    requires Inv(s) && Dequeuing(s, seen, taken) && Run(s, steps) && EndsDequeue(s, steps)
    ensures After(s, steps).received == if taken < seen then s.received + [s.sent[taken]] else s.received
    decreases |steps|
  {
    hide Inv, Apply, Enabled, Dequeuing;
    StepInv(s, steps[0]);
    DequeuingStep(s, steps[0], seen, taken);
    if !Apply(s, steps[0]).c.CIdle? {
      DequeueEnds(Apply(s, steps[0]), steps[1..], seen, taken);
      assert taken < seen ==> taken < |s.sent| by { DequeuingBounds(s, seen, taken); }
    } else {
      assert steps[1..] == [];
    }
  }

  lemma DequeuingBounds(s: State, seen: nat, taken: nat)
    requires |s.store| > 0 && Dequeuing(s, seen, taken)
    ensures taken <= seen <= |s.sent|
  {
  }

  /** Main result: a whole call of dequeue, with any steps of the producer in between, hands out the first
    * element of the queue as it was when head was loaded, and nothing exactly if it was empty then.
    */
  lemma Dequeued(s: State, steps: seq<Step>)
    requires Inv(s) && s.c.CIdle? && Run(s, [CLoadHead] + steps)
    requires EndsDequeue(Apply(s, CLoadHead), steps)
    ensures
      var e := After(s, [CLoadHead] + steps);
      e.received == if Queue(s) == [] then s.received else s.received + [Queue(s)[0]]
  {
    assert ([CLoadHead] + steps)[1..] == steps;
    StepInv(s, CLoadHead);
    DequeueEnds(Apply(s, CLoadHead), steps, |s.sent|, |s.received|);
  }

  lemma {:induction false} DequeuingStays(s: State, steps: seq<Step>, seen: nat, taken: nat)
    requires Inv(s) && Dequeuing(s, seen, taken) && (s.c.CSawHead? || s.c.CSawBoth?)
    requires Run(s, steps) && CDecide !in steps
    ensures
      var e := After(s, steps);
      && Inv(e) && |e.store| == |s.store| && Dequeuing(e, seen, taken) && (e.c.CSawHead? || e.c.CSawBoth?)
      && e.received == s.received
    decreases |steps|
  {
    if steps != [] {
      StepInv(s, steps[0]);
      DequeuingStep(s, steps[0], seen, taken);
      assert s.c.CSawHead? || s.c.CSawBoth?;
      DequeuingStays(Apply(s, steps[0]), steps[1..], seen, taken);
    }
  }

  /** The consumer's check turns it away exactly if everything sent when it loaded head was received. */
  lemma ConsumerDecides(s: State, steps: seq<Step>)
    requires Inv(s) && s.c.CIdle? && CDecide !in steps && Run(s, [CLoadHead] + steps + [CDecide])
    ensures
      var e := After(s, [CLoadHead] + steps + [CDecide]);
      e.c == (if |s.sent| == |s.received| then CIdle else CCleared) && e.received == s.received
  {
    RunSplit(s, [CLoadHead] + steps, [CDecide]);
    RunSplit(s, [CLoadHead], steps);
    var looked := After(s, [CLoadHead]);
    StepInv(s, CLoadHead);
    DequeuingStays(looked, steps, |s.sent|, |s.received|);
    DequeuingStep(After(looked, steps), CDecide, |s.sent|, |s.received|);
  }

  /** `steps` are those of both sides up to the end of the producer's call, from within it. */
  ghost predicate EndsEnqueue(s: State, steps: seq<Step>)
    requires Run(s, steps)
    decreases |steps|
  {
    && steps != []
    && if Apply(s, steps[0]).p.PIdle? then |steps| == 1 else EndsEnqueue(Apply(s, steps[0]), steps[1..])
  }

  lemma {:induction false} EnqueueEnds(s: State, steps: seq<Step>, obj: int, taken: nat)
    requires Inv(s) && Enqueuing(s, obj, taken) && Run(s, steps) && EndsEnqueue(s, steps)
    ensures After(s, steps).sent == if |s.sent| - taken == |s.store| - 1 then s.sent else s.sent + [obj]
    decreases |steps|
  {
    hide Inv, Apply, Enabled, Enqueuing;
    StepInv(s, steps[0]);
    EnqueuingStep(s, steps[0], obj, taken);
    if !Apply(s, steps[0]).p.PIdle? {
      EnqueueEnds(Apply(s, steps[0]), steps[1..], obj, taken);
    } else {
      assert steps[1..] == [];
    }
  }

  /** While only the consumer steps, the producer stays where it is. */
  lemma {:induction false} ProducerWaits(s: State, steps: seq<Step>)
    requires Inv(s) && Run(s, steps) && forall a <- steps :: OfConsumer(a)
    ensures
      var e := After(s, steps);
      Inv(e) && e.p == s.p && e.sent == s.sent && |e.store| == |s.store|
    decreases |steps|
  {
    if steps != [] {
      StepInv(s, steps[0]);
      assert OfConsumer(steps[0]);
      ProducerWaits(Apply(s, steps[0]), steps[1..]);
    }
  }

  /** Main result: a whole call of enqueue, with any steps of the consumer in between, appends the object
    * it was called with, and is turned away exactly if the queue was full when it loaded tail.
    */
  lemma Enqueued(s: State, obj: int, before: seq<Step>, steps: seq<Step>)
    requires Inv(s) && s.p.PIdle? && forall a <- before :: OfConsumer(a)
    requires Run(s, [Enqueue(obj)] + before + [PLoadTail])
    requires Run(After(s, [Enqueue(obj)] + before + [PLoadTail]), steps)
    requires EndsEnqueue(After(s, [Enqueue(obj)] + before + [PLoadTail]), steps)
    ensures Run(s, [Enqueue(obj)] + before) && Run(s, [Enqueue(obj)] + before + [PLoadTail] + steps)
    ensures
      var loads, e := After(s, [Enqueue(obj)] + before), After(s, [Enqueue(obj)] + before + [PLoadTail] + steps);
      && |loads.received| <= |loads.sent|
      && e.sent == if |Queue(loads)| == |s.store| - 1 then s.sent else s.sent + [obj]
  {
    RunJoin(s, [Enqueue(obj)] + before + [PLoadTail], steps);
    RunSplit(s, [Enqueue(obj)] + before, [PLoadTail]);
    RunSplit(s, [Enqueue(obj)], before);
    StepInv(s, Enqueue(obj));
    ProducerWaits(Apply(s, Enqueue(obj)), before);
    var loads := After(s, [Enqueue(obj)] + before);
    StepInv(loads, PLoadTail);
    EnqueueEnds(Apply(loads, PLoadTail), steps, obj, |loads.received|);
  }

  lemma {:induction false} EnqueuingStays(s: State, steps: seq<Step>, obj: int, taken: nat)
    requires Inv(s) && Enqueuing(s, obj, taken) && s.p.PSawBoth?
    requires Run(s, steps) && PDecide !in steps
    ensures
      var e := After(s, steps);
      Inv(e) && |e.store| == |s.store| && Enqueuing(e, obj, taken) && e.p.PSawBoth? && e.sent == s.sent
    decreases |steps|
  {
    if steps != [] {
      StepInv(s, steps[0]);
      EnqueuingStep(s, steps[0], obj, taken);
      EnqueuingStays(Apply(s, steps[0]), steps[1..], obj, taken);
    }
  }

  /** The producer's check turns it away exactly if n - 1 elements were in the queue when it loaded tail. */
  lemma ProducerDecides(s: State, steps: seq<Step>)
    requires Inv(s) && s.p.PSawHead? && PDecide !in steps && Run(s, [PLoadTail] + steps + [PDecide])
    ensures
      var e := After(s, [PLoadTail] + steps + [PDecide]);
      && e.p == (if |s.sent| - |s.received| == |s.store| - 1 then PIdle else PCleared(s.p.obj))
      && e.sent == s.sent
  {
    RunSplit(s, [PLoadTail] + steps, [PDecide]);
    RunSplit(s, [PLoadTail], steps);
    var looked := After(s, [PLoadTail]);
    StepInv(s, PLoadTail);
    EnqueuingStays(looked, steps, s.p.obj, |s.received|);
    EnqueuingStep(After(looked, steps), PDecide, s.p.obj, |s.received|);
  }

  /** Neither side is ever stuck within a call: its own next step can be taken whatever the other does. */
  lemma NeverStuck(s: State)
    requires Inv(s)
    ensures s.p.PIdle? || exists a :: !OfConsumer(a) && !a.Enqueue? && Enabled(s, a)
    ensures s.c.CIdle? || exists a :: OfConsumer(a) && !a.CLoadHead? && Enabled(s, a)
  {
    match s.p {
      case PIdle =>
      case PSawHead(_, _) => assert Enabled(s, PLoadTail);
      case PSawBoth(_, _, _) => assert Enabled(s, PDecide);
      case PCleared(_) => assert Enabled(s, PLoadHead);
      case PLoaded(_, h) => assert Enabled(s, PStartWrite(0));
      case PWriting(_, h) => assert Enabled(s, PEndWrite);
      case PWritten(_, _) => assert Enabled(s, PStoreHead);
    }
    match s.c {
      case CIdle =>
      case CSawHead(_) => assert Enabled(s, CLoadTail);
      case CSawBoth(_, _) => assert Enabled(s, CDecide);
      case CCleared => assert Enabled(s, CLoadTailAgain);
      case CLoaded(_) => assert Enabled(s, CStartRead);
      case CReading(_) => assert Enabled(s, CEndRead);
      case CRead(_, _) => assert Enabled(s, CStoreTail);
    }
  }
}
