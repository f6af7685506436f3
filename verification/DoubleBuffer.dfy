/** The two-slot buffer behind the circuit-break whitelist
    (readers_writer_data.h), first as an interleaving of one writer thread with
    any number of reader threads, then as the class the plugin uses.

    Every step below is one memory operation of one thread; the steps of
    different threads interleave in any order (sequential consistency). */
module DoubleBuffer {
  import opened Prelude

  /** The object itself: `instances_`, `reader_`, `writer_`. */
  datatype Buffer = Buffer(slots: seq<set<int>>, reader: nat, writer: nat)

  const EMPTY_BUFFER := Buffer([{}, {}], 0, 1)

  ghost predicate AtRest(b: Buffer) {
    |b.slots| == 2 && b.reader < 2 && b.writer < 2 && b.reader != b.writer
  }

  function Elements(codes: seq<int>): set<int> {
    set c | c in codes
  }

  /** Where the single writer stands inside an update. */
  datatype WriterPc =
    | Idle
    | Filling(codes: seq<int>, next: nat)  // cleared, codes[..next] inserted
    | SwapSaved(tmp: nat)                  // std::swap: tmp = reader_
    | SwapPublished(tmp: nat)              // std::swap: reader_ = writer_

  /** A reader holds the reference that Reader() returned: the slot's index. */
  datatype State = State(buffer: Buffer, pc: WriterPc, held: map<int, nat>)

  datatype Event =
    | Begin(codes: seq<int>)  // Writer(), clear()
    | Insert                  // insert one code
    | SaveReader              // first assignment of std::swap
    | Publish                 // second assignment
    | Restore                 // third assignment
    | Borrow(thread: int)     // Reader()
    | Release(thread: int)    // the reference goes out of scope

  const START := State(EMPTY_BUFFER, Idle, map[])

  predicate Enabled(s: State, e: Event) {
    match e
    case Begin(_) => s.pc.Idle?
    case Insert => s.pc.Filling? && s.pc.next < |s.pc.codes|
    case SaveReader => s.pc.Filling? && s.pc.next == |s.pc.codes|
    case Publish => s.pc.SwapSaved?
    case Restore => s.pc.SwapPublished?
    case Borrow(_) => true
    case Release(_) => true
  }

  /** One step; an event that its thread cannot take now changes nothing. */
  function Step(s: State, e: Event): State
    requires |s.buffer.slots| == 2 && s.buffer.writer < 2
  {
    if !Enabled(s, e) then s else
    var b := s.buffer;
    match e
    case Begin(codes) => s.(buffer := b.(slots := b.slots[b.writer := {}]), pc := Filling(codes, 0))
    case Insert =>
      s.(buffer := b.(slots := b.slots[b.writer := b.slots[b.writer] + {s.pc.codes[s.pc.next]}]),
         pc := Filling(s.pc.codes, s.pc.next + 1))
    case SaveReader => s.(pc := SwapSaved(b.reader))
    case Publish => s.(buffer := b.(reader := b.writer), pc := SwapPublished(s.pc.tmp))
    case Restore => s.(buffer := b.(writer := s.pc.tmp), pc := Idle)
    case Borrow(t) => s.(held := s.held[t := b.reader])
    case Release(t) => s.(held := s.held - {t})
  }

  /** The simple object it should look like: one variable `current`, and for each
      reader the value it had when the reader looked. `started` and `published`
      number the updates. */
  datatype View = View(seen: set<int>, at: nat)
  datatype Spec = Spec(current: set<int>, next: seq<int>, started: nat, published: nat, views: map<int, View>)

  const SPEC_START := Spec({}, [], 0, 0, map[])

  /** Only `Publish` changes `current`, and it changes it to the whole new set. */
  function SpecStep(a: Spec, e: Event): Spec {
    match e
    case Begin(codes) => a.(next := codes, started := a.started + 1)
    case Publish => a.(current := Elements(a.next), published := a.published + 1)
    case Borrow(t) => a.(views := a.views[t := View(a.current, a.published)])
    case Release(t) => a.(views := a.views - {t})
    case _ => a
  }

  /** No update has begun since the first publication after the borrow. */
  predicate Intact(a: Spec, v: View) {
    a.started <= v.at + 1
  }

  ghost predicate WriterInv(s: State, a: Spec)
    requires |s.buffer.slots| == 2 && s.buffer.reader < 2 && s.buffer.writer < 2
  {
    var b := s.buffer;
    match s.pc
    case Idle => b.reader != b.writer && a.started == a.published
    case Filling(codes, n) =>
      && b.reader != b.writer && a.started == a.published + 1
      && n <= |codes| && a.next == codes && b.slots[b.writer] == Elements(codes[..n])
    case SwapSaved(tmp) =>
      && b.reader != b.writer && a.started == a.published + 1
      && tmp == b.reader && b.slots[b.writer] == Elements(a.next)
    case SwapPublished(tmp) => b.reader == b.writer && tmp < 2 && tmp != b.reader && a.started == a.published
  }

  /** Where the slot of a borrow stands in the current round. */
  ghost predicate BorrowInv(s: State, a: Spec, t: int)
    requires t in s.held && t in a.views && |s.buffer.slots| == 2
  {
    var v := a.views[t];
    && s.held[t] < 2
    && v.at <= a.published
    && (Intact(a, v) ==> s.buffer.slots[s.held[t]] == v.seen)
    && (v.at == a.published ==> s.held[t] == s.buffer.reader)
    && (v.at + 1 == a.published ==> s.held[t] != s.buffer.reader)
  }

  ghost predicate Inv(s: State, a: Spec) {
    && |s.buffer.slots| == 2 && s.buffer.reader < 2 && s.buffer.writer < 2
    && s.buffer.slots[s.buffer.reader] == a.current
    && WriterInv(s, a)
    && s.held.Keys == a.views.Keys
    && forall t :: t in s.held ==> BorrowInv(s, a, t)
  }

  lemma StepKeepsBorrow(s: State, a: Spec, e: Event, t: int)
    requires Inv(s, a) && Enabled(s, e) && t in Step(s, e).held
    ensures t in SpecStep(a, e).views && BorrowInv(Step(s, e), SpecStep(a, e), t)
  {
    if t in s.held { assert BorrowInv(s, a, t); }
  }

  lemma StepKeepsInv(s: State, a: Spec, e: Event)
    requires Inv(s, a) && Enabled(s, e)
    ensures Inv(Step(s, e), SpecStep(a, e))
  {
    if e.Insert? {
      var codes, n := s.pc.codes, s.pc.next;
      assert codes[..n + 1] == codes[..n] + [codes[n]];
    }
    if e.SaveReader? {
      assert s.pc.codes[..s.pc.next] == s.pc.codes;
    }
    var s', a' := Step(s, e), SpecStep(a, e);
    forall t | t in s'.held ensures BorrowInv(s', a', t) {
      StepKeepsBorrow(s, a, e, t);
    }
  }

  /** Both machines over an interleaving, from any state the invariant allows. */
  function Run(s: State, a: Spec, es: seq<Event>): (r: (State, Spec))
    requires Inv(s, a)
    ensures Inv(r.0, r.1)
  {
    if es == [] then (s, a) else
    var (s', a') := Run(s, a, es[..|es| - 1]);
    var e := es[|es| - 1];
    if Enabled(s', e) then StepKeepsInv(s', a', e); (Step(s', e), SpecStep(a', e)) else (s', a')
  }

  function Exec(es: seq<Event>): (State, Spec) {
    Run(START, SPEC_START, es)
  }

  lemma RunLast(s: State, a: Spec, es: seq<Event>, e: Event)
    requires Inv(s, a)
    ensures
      var (s', a') := Run(s, a, es);
      Run(s, a, es + [e]) == if Enabled(s', e) then (Step(s', e), SpecStep(a', e)) else (s', a')
  {
    assert (es + [e])[..|es + [e]| - 1] == es;
  }

  lemma {:induction false} RunAppend(s: State, a: Spec, es: seq<Event>, fs: seq<Event>)
    requires Inv(s, a)
    ensures Run(s, a, es + fs) == Run(Run(s, a, es).0, Run(s, a, es).1, fs)
  {
    if fs == [] {
      assert es + fs == es;
    } else {
      RunAppend(s, a, es, fs[..|fs| - 1]);
      assert (es + fs)[..|es + fs| - 1] == es + fs[..|fs| - 1];
    }
  }

  /** In every interleaving the slot named by `reader_` holds a whole published
      set, also in the middle of the swap, where `reader_ == writer_`; and no
      next step of any thread writes to that slot. */
  lemma PublishedSlotIsWhole(es: seq<Event>, e: Event)
    ensures
      var (s, a) := Exec(es);
      && s.buffer.slots[s.buffer.reader] == a.current
      && (s.buffer.reader == s.buffer.writer <==> s.pc.SwapPublished?)
      && Step(s, e).buffer.slots[s.buffer.reader] == a.current
  {
    var (s, a) := Exec(es);
    assert Inv(s, a) && WriterInv(s, a);
  }

  predicate Concerns(e: Event, t: int) {
    e == Borrow(t) || e == Release(t)
  }

  lemma StepKeepsView(s: State, a: Spec, t: int, e: Event)
    requires Inv(s, a) && t in s.held && Enabled(s, e) && !Concerns(e, t)
    ensures
      var s', a' := Step(s, e), SpecStep(a, e);
      t in s'.held && t in a'.views && s'.held[t] == s.held[t] && a'.views[t] == a.views[t]
  {
  }

  lemma {:induction false} ViewKept(s: State, a: Spec, t: int, fs: seq<Event>)
    requires Inv(s, a) && t in s.held
    requires forall e :: e in fs ==> !Concerns(e, t)
    ensures
      var (s', a') := Run(s, a, fs);
      && t in s'.held && s'.held[t] == s.held[t]
      && a'.views[t] == a.views[t]
  {
    if fs != [] {
      var before, e := fs[..|fs| - 1], fs[|fs| - 1];
      assert !Concerns(e, t);
      ViewKept(s, a, t, before);
      var (s', a') := Run(s, a, before);
      if Enabled(s', e) { StepKeepsView(s', a', t, e); }
    }
  }

  /** A reader holds the published slot from its borrow to its release, and its own
      alone: other readers and the buffer are as they were. */
  lemma BorrowAndRelease(es: seq<Event>, t: int)
    ensures
      var s := Exec(es).0;
      var borrowed, released := Exec(es + [Borrow(t)]).0, Exec(es + [Release(t)]).0;
      && borrowed == s.(held := s.held[t := s.buffer.reader])
      && released == s.(held := s.held - {t})
  {
    RunLast(START, SPEC_START, es, Borrow(t));
    RunLast(START, SPEC_START, es, Release(t));
  }

  /** A reader that borrows after `es` sees exactly the set current at that
      moment, whatever happens in `fs`, as long as no update has begun since the
      first publication after the borrow. */
  lemma BorrowedSetIsStable(es: seq<Event>, t: int, fs: seq<Event>)
    requires forall e :: e in fs ==> !Concerns(e, t)
    ensures
      var (s0, a0) := Exec(es);
      var (s, a) := Exec(es + [Borrow(t)] + fs);
      && t in s.held
      && s.held[t] == s0.buffer.reader
      && (a.started <= a0.published + 1 ==> s.buffer.slots[s.held[t]] == a0.current)
  {
    var (s0, a0) := Exec(es);
    var es1 := es + [Borrow(t)];
    RunLast(START, SPEC_START, es, Borrow(t));
    var (s1, a1) := Exec(es1);
    ViewKept(s1, a1, t, fs);
    RunAppend(START, SPEC_START, es1, fs);
    var (s, a) := Exec(es1 + fs);
    assert BorrowInv(s, a, t);
  }

  /** The window of the previous lemma is exact: the update that begins after the
      first publication following a borrow empties the borrowed set at once. */
  lemma NextUpdateClearsTheBorrow(es: seq<Event>, t: int, codes: seq<int>)
    requires var (s, a) := Exec(es); t in s.held && s.pc.Idle? && a.published == a.views[t].at + 1
    ensures
      var (s, a) := Exec(es);
      && Intact(a, a.views[t]) && s.buffer.slots[s.held[t]] == a.views[t].seen
      && !Intact(SpecStep(a, Begin(codes)), a.views[t])
      && Step(s, Begin(codes)).buffer.slots[s.held[t]] == {}
  {
    var (s, a) := Exec(es);
    assert BorrowInv(s, a, t) && WriterInv(s, a);
  }

  /** The slot's content comes from one update of the run, as far as it got. */
  ghost predicate FromOneUpdate(es: seq<Event>, slot: set<int>) {
    slot == {} || exists codes, n: nat :: Begin(codes) in es && n <= |codes| && slot == Elements(codes[..n])
  }

  ghost predicate InProgress(es: seq<Event>, pc: WriterPc) {
    pc.Filling? ==> Begin(pc.codes) in es
  }

  lemma StillFromOneUpdate(es: seq<Event>, e: Event, slot: set<int>)
    requires FromOneUpdate(es, slot)
    ensures FromOneUpdate(es + [e], slot)
  {
    if slot != {} {
      var codes, n: nat :| Begin(codes) in es && n <= |codes| && slot == Elements(codes[..n]);
      assert Begin(codes) in es + [e];
    }
  }

  lemma InsertExtendsPrefix(s: State, a: Spec, es: seq<Event>)
    requires Inv(s, a) && Enabled(s, Insert) && InProgress(es, s.pc)
    ensures FromOneUpdate(es, Step(s, Insert).buffer.slots[s.buffer.writer])
  {
    assert WriterInv(s, a);
    var codes, n := s.pc.codes, s.pc.next;
    assert codes[..n + 1] == codes[..n] + [codes[n]];
    assert Step(s, Insert).buffer.slots[s.buffer.writer] == Elements(codes[..n + 1]);
  }

  lemma StepFromOneUpdate(s: State, a: Spec, es: seq<Event>, e: Event, i: nat)
    requires Inv(s, a) && Enabled(s, e) && i < 2
    requires InProgress(es, s.pc) && FromOneUpdate(es, s.buffer.slots[i])
    ensures InProgress(es + [e], Step(s, e).pc) && FromOneUpdate(es + [e], Step(s, e).buffer.slots[i])
  {
    StillFromOneUpdate(es, e, s.buffer.slots[i]);
    if e == Insert {
      InsertExtendsPrefix(s, a, es);
      StillFromOneUpdate(es, e, Step(s, e).buffer.slots[s.buffer.writer]);
    }
  }

  /** Even a reader that was overtaken never sees a mixture of two updates: at
      every moment each slot holds some prefix of one update's codes. */
  lemma {:induction false} SlotsNeverMix(es: seq<Event>, i: nat)
    requires i < 2
    ensures InProgress(es, Exec(es).0.pc) && FromOneUpdate(es, Exec(es).0.buffer.slots[i])
  {
    if es != [] {
      var before, e := es[..|es| - 1], es[|es| - 1];
      SlotsNeverMix(before, i);
      var (s, a) := Exec(before);
      if Enabled(s, e) {
        StepFromOneUpdate(s, a, before, e, i);
      } else {
        StillFromOneUpdate(before, e, s.buffer.slots[i]);
      }
      RunLast(START, SPEC_START, before, e);
      assert before + [e] == es;
    }
  }

  // ---- One whole update, without other threads ----

  function Current(b: Buffer): set<int>
    requires |b.slots| == 2 && b.reader < 2
  {
    b.slots[b.reader]
  }

  /** What an update amounts to for a single thread. */
  function Update(b: Buffer, codes: seq<int>): (r: Buffer)
    requires AtRest(b)
    ensures AtRest(r) && Current(r) == Elements(codes)
    ensures r.slots[b.reader] == Current(b)
  {
    Buffer(b.slots[b.writer := Elements(codes)], b.writer, b.reader)
  }

  function Inserts(n: nat): seq<Event> {
    seq(n, _ => Insert)
  }

  const SWAP_EVENTS := [SaveReader, Publish, Restore]

  function UpdateEvents(codes: seq<int>): seq<Event> {
    [Begin(codes)] + Inserts(|codes|) + SWAP_EVENTS
  }

  /** The writer has inserted the first `n` codes, and nothing else has changed. */
  predicate Filled(s: State, n: nat, s': State)
    requires s.pc.Filling? && n <= |s.pc.codes| && s.buffer.writer < |s.buffer.slots|
  {
    && s'.pc == Filling(s.pc.codes, n) && s'.held == s.held
    && s'.buffer == s.buffer.(slots := s.buffer.slots[s.buffer.writer := Elements(s.pc.codes[..n])])
  }

  lemma InsertFills(s: State, n: nat, s': State)
    requires s.pc.Filling? && n < |s.pc.codes| && |s.buffer.slots| == 2 && s.buffer.writer < 2
    requires Filled(s, n, s')
    ensures Filled(s, n + 1, Step(s', Insert))
  {
    var codes := s.pc.codes;
    assert codes[..n + 1] == codes[..n] + [codes[n]];
    assert Elements(codes[..n + 1]) == Elements(codes[..n]) + {codes[n]};
  }

  lemma {:induction false} InsertsFill(s: State, a: Spec, n: nat)
    requires Inv(s, a) && s.pc.Filling? && s.pc.next == 0 && n <= |s.pc.codes|
    ensures
      var (s', a') := Run(s, a, Inserts(n));
      Filled(s, n, s') && a' == a
  {
    if n == 0 {
      assert s.pc.codes[..0] == [];
      assert s.buffer.slots[s.buffer.writer] == {};
    } else {
      InsertsFill(s, a, n - 1);
      InsertFills(s, n - 1, Run(s, a, Inserts(n - 1)).0);
      RunLast(s, a, Inserts(n - 1), Insert);
      assert Inserts(n - 1) + [Insert] == Inserts(n);
    }
  }

  lemma SwapAlone(s: State, a: Spec)
    requires Inv(s, a) && s.pc.Filling? && s.pc.next == |s.pc.codes|
    ensures
      var (s', a') := Run(s, a, SWAP_EVENTS);
      && s' == State(Buffer(s.buffer.slots, s.buffer.writer, s.buffer.reader), Idle, s.held)
      && a' == SpecStep(a, Publish) && a'.current == Elements(s.pc.codes)
  {
    RunLast(s, a, [], SaveReader);
    RunLast(s, a, [SaveReader], Publish);
    RunLast(s, a, [SaveReader, Publish], Restore);
    assert [] + [SaveReader] == [SaveReader];
    assert [SaveReader] + [Publish] == [SaveReader, Publish];
    assert [SaveReader, Publish] + [Restore] == SWAP_EVENTS;
  }

  lemma FillAlone(s: State, a: Spec, codes: seq<int>)
    requires Inv(s, a) && s.pc.Idle?
    ensures
      var (s', a') := Run(s, a, [Begin(codes)] + Inserts(|codes|));
      && s'.pc == Filling(codes, |codes|) && s'.held == s.held && a' == SpecStep(a, Begin(codes))
      && s'.buffer == s.buffer.(slots := s.buffer.slots[s.buffer.writer := Elements(codes)])
  {
    var begin := [Begin(codes)];
    RunLast(s, a, [], Begin(codes));
    assert [] + begin == begin;
    var (s1, a1) := Run(s, a, begin);
    assert s1 == Step(s, Begin(codes));
    InsertsFill(s1, a1, |codes|);
    RunAppend(s, a, begin, Inserts(|codes|));
    assert codes[..|codes|] == codes;
  }

  /** The interleaved steps of one update, run alone, are the sequential update. */
  lemma UpdateAlone(s: State, a: Spec, codes: seq<int>)
    requires Inv(s, a) && s.pc.Idle?
    ensures
      var (s', a') := Run(s, a, UpdateEvents(codes));
      && s'.pc.Idle? && s'.held == s.held
      && s'.buffer == Update(s.buffer, codes)
      && a' == SpecStep(SpecStep(a, Begin(codes)), Publish) && a'.current == Elements(codes)
  {
    var filled := [Begin(codes)] + Inserts(|codes|);
    FillAlone(s, a, codes);
    RunAppend(s, a, filled, SWAP_EVENTS);
    var (s1, a1) := Run(s, a, filled);
    SwapAlone(s1, a1);
    assert filled + SWAP_EVENTS == UpdateEvents(codes);
  }

  // ---- Many updates, with other threads ----

  function UpdateAll(b: Buffer, updates: seq<seq<int>>): (r: Buffer)
    requires AtRest(b)
    ensures AtRest(r)
    ensures Current(r) == if updates == [] then Current(b) else Elements(updates[|updates| - 1])
  {
    if updates == [] then b else Update(UpdateAll(b, updates[..|updates| - 1]), updates[|updates| - 1])
  }

  lemma UpdateAllOne(b: Buffer, codes: seq<int>)
    requires AtRest(b)
    ensures UpdateAll(b, [codes]) == Update(b, codes)
  {
    assert [codes][..0] == [];
  }

  lemma {:induction false} UpdateAllAppend(b: Buffer, first: seq<seq<int>>, more: seq<seq<int>>)
    requires AtRest(b)
    ensures UpdateAll(b, first + more) == UpdateAll(UpdateAll(b, first), more)
  {
    if more == [] {
      assert first + more == first;
    } else {
      assert (first + more)[..|first + more| - 1] == first + more[..|more| - 1];
      UpdateAllAppend(b, first, more[..|more| - 1]);
    }
  }

  /** The codes of the updates begun in a run, in order. */
  function Begun(es: seq<Event>): seq<seq<int>> {
    if es == [] then [] else
    var before, e := es[..|es| - 1], es[|es| - 1];
    Begun(before) + if e.Begin? && Enabled(Exec(before).0, e) then [e.codes] else []
  }

  /** How far the buffer is on its way from `b` to the update of `b` by `codes`. */
  ghost predicate Between(b: Buffer, codes: seq<int>, s: State)
    requires AtRest(b)
  {
    match s.pc
    case Idle => s.buffer == Update(b, codes)
    case Filling(filling, n) =>
      filling == codes && n <= |codes| && s.buffer == b.(slots := b.slots[b.writer := Elements(codes[..n])])
    case SwapSaved(tmp) => tmp == b.reader && s.buffer == b.(slots := b.slots[b.writer := Elements(codes)])
    case SwapPublished(tmp) =>
      tmp == b.reader && s.buffer == b.(slots := b.slots[b.writer := Elements(codes)], reader := b.writer)
  }

  lemma BeginIsBetween(s: State, codes: seq<int>)
    requires AtRest(s.buffer) && s.pc.Idle?
    ensures Between(s.buffer, codes, Step(s, Begin(codes)))
  {
    assert Elements(codes[..0]) == {};
  }

  lemma StepIsBetween(b: Buffer, codes: seq<int>, s: State, e: Event)
    requires AtRest(b) && Between(b, codes, s) && |s.buffer.slots| == 2 && s.buffer.writer < 2
    requires Enabled(s, e) && !e.Begin?
    ensures Between(b, codes, Step(s, e))
  {
    if e.Insert? {
      var n := s.pc.next;
      assert Elements(codes[..n + 1]) == Elements(codes[..n]) + {codes[n]};
      assert Step(s, e).buffer.slots == b.slots[b.writer := Elements(codes[..n + 1])];
    }
    if e.SaveReader? {
      assert codes[..s.pc.next] == codes;
    }
  }

  /** On the way from the sequential result of all updates begun before the last
      to the result of all of them. */
  ghost predicate OnTheWay(updates: seq<seq<int>>, s: State) {
    if updates == [] then s.pc.Idle? && s.buffer == EMPTY_BUFFER
    else Between(UpdateAll(EMPTY_BUFFER, updates[..|updates| - 1]), updates[|updates| - 1], s)
  }

  lemma StepOnTheWay(updates: seq<seq<int>>, s: State, e: Event)
    requires OnTheWay(updates, s) && |s.buffer.slots| == 2 && s.buffer.writer < 2 && Enabled(s, e)
    ensures OnTheWay(if e.Begin? then updates + [e.codes] else updates, Step(s, e))
  {
    if e.Begin? {
      assert s.buffer == UpdateAll(EMPTY_BUFFER, updates);
      BeginIsBetween(s, e.codes);
      assert (updates + [e.codes])[..|updates|] == updates;
    } else if updates != [] {
      StepIsBetween(UpdateAll(EMPTY_BUFFER, updates[..|updates| - 1]), updates[|updates| - 1], s, e);
    }
  }

  lemma {:induction false} RunOnTheWay(es: seq<Event>)
    ensures OnTheWay(Begun(es), Exec(es).0)
  {
    if es != [] {
      var before, e := es[..|es| - 1], es[|es| - 1];
      RunOnTheWay(before);
      RunLast(START, SPEC_START, before, e);
      assert before + [e] == es;
      var (s, a) := Exec(before);
      assert Inv(s, a);
      if Enabled(s, e) {
        StepOnTheWay(Begun(before), s, e);
        assert Begun(es) == if e.Begin? then Begun(before) + [e.codes] else Begun(before);
      } else {
        assert Begun(es) == Begun(before);
      }
    }
  }

  /** Readers leave no trace: whenever the writer is idle the buffer is what the
      updates begun so far make of it one after the other. */
  lemma RunIsSequential(es: seq<Event>)
    requires Exec(es).0.pc.Idle?
    ensures Exec(es).0.buffer == UpdateAll(EMPTY_BUFFER, Begun(es))
  {
    RunOnTheWay(es);
  }

  /** The updates published so far: all begun but the one that is not there yet. */
  function Published(es: seq<Event>): seq<seq<int>> {
    var begun, pc := Begun(es), Exec(es).0.pc;
    if begun != [] && (pc.Filling? || pc.SwapSaved?) then begun[..|begun| - 1] else begun
  }

  /** In every interleaving the published slot holds the last update published. */
  lemma CurrentIsPublished(es: seq<Event>)
    ensures
      var (s, a) := Exec(es);
      var published := Published(es);
      && s.buffer.slots[s.buffer.reader] == a.current
      && a.current == if published == [] then {} else Elements(published[|published| - 1])
  {
    RunOnTheWay(es);
    var (s, a) := Exec(es);
    assert Inv(s, a);
    var begun := Begun(es);
    if begun != [] {
      var before := UpdateAll(EMPTY_BUFFER, begun[..|begun| - 1]);
      assert before.reader != before.writer;
    }
  }

  lemma BegunLast(es: seq<Event>, e: Event)
    ensures Begun(es + [e]) == Begun(es) + if e.Begin? && Enabled(Exec(es).0, e) then [e.codes] else []
  {
    assert (es + [e])[..|es|] == es;
  }

  lemma {:induction false} StartedCounts(es: seq<Event>)
    ensures Exec(es).1.started == |Begun(es)|
  {
    if es != [] {
      var before, e := es[..|es| - 1], es[|es| - 1];
      StartedCounts(before);
      RunLast(START, SPEC_START, before, e);
      BegunLast(before, e);
      assert before + [e] == es;
    }
  }

  /** The specification counts the updates begun and published. */
  lemma Counted(es: seq<Event>)
    ensures Exec(es).1.started == |Begun(es)| && Exec(es).1.published == |Published(es)|
  {
    StartedCounts(es);
    var (s, a) := Exec(es);
    assert WriterInv(s, a);
  }

  lemma {:induction false} BegunAppend(es: seq<Event>, fs: seq<Event>)
    requires forall f :: f in fs ==> !f.Begin?
    ensures Begun(es + fs) == Begun(es)
  {
    if fs == [] {
      assert es + fs == es;
    } else {
      var before, f := fs[..|fs| - 1], fs[|fs| - 1];
      assert f in fs;
      BegunAppend(es, before);
      BegunLast(es + before, f);
      assert es + before + [f] == es + fs;
    }
  }

  lemma OneMoreUpdate(es: seq<Event>, codes: seq<int>)
    requires Exec(es).0.pc.Idle?
    ensures
      var es' := es + UpdateEvents(codes);
      Begun(es') == Begun(es) + [codes] && Exec(es').0.pc.Idle?
  {
    var (s, a) := Exec(es);
    UpdateAlone(s, a, codes);
    RunAppend(START, SPEC_START, es, UpdateEvents(codes));
    var es1, more := es + [Begin(codes)], Inserts(|codes|) + SWAP_EVENTS;
    BegunLast(es, Begin(codes));
    BegunAppend(es1, more);
    assert es1 + more == es + UpdateEvents(codes);
  }

  /** The micro-steps of updates one after the other. */
  function AllUpdateEvents(updates: seq<seq<int>>): seq<Event> {
    if updates == [] then []
    else AllUpdateEvents(updates[..|updates| - 1]) + UpdateEvents(updates[|updates| - 1])
  }

  lemma {:induction false} UpdatesAlone(updates: seq<seq<int>>)
    ensures
      var es := AllUpdateEvents(updates);
      Begun(es) == updates && Exec(es).0.pc.Idle?
  {
    if updates != [] {
      var n := |updates| - 1;
      UpdatesAlone(updates[..n]);
      OneMoreUpdate(AllUpdateEvents(updates[..n]), updates[n]);
      assert updates[..n] + [updates[n]] == updates;
    }
  }

  /** Any reader that borrows while the writer is idle is overtaken by two updates:
      the first leaves its set alone, the second empties it at once. */
  lemma OvertakenReader(es: seq<Event>, t: int, first: seq<int>, second: seq<int>)
    requires Exec(es).0.pc.Idle?
    ensures
      var seen := Current(Exec(es).0.buffer);
      var (s, a) := Exec(es + [Borrow(t)] + UpdateEvents(first));
      && t in s.held && s.pc.Idle? && a.published == a.views[t].at + 1
      && s.buffer.slots[s.held[t]] == a.views[t].seen == seen
      && Step(s, Begin(second)).buffer.slots[s.held[t]] == {}
  {
    var es1 := es + [Borrow(t)];
    RunLast(START, SPEC_START, es, Borrow(t));
    UpdateAlone(Exec(es1).0, Exec(es1).1, first);
    RunAppend(START, SPEC_START, es1, UpdateEvents(first));
    NextUpdateClearsTheBorrow(es1 + UpdateEvents(first), t, second);
  }

  /** One such reader, with a set that is not empty before. */
  lemma OvertakenWithOne()
    ensures
      var (s, a) := Exec(UpdateEvents([1]) + [Borrow(7)] + UpdateEvents([]));
      && 7 in s.held && s.buffer.slots[s.held[7]] == {1}
      && Step(s, Begin([])).buffer.slots[s.held[7]] == {}
  {
    UpdateAlone(START, SPEC_START, [1]);
    OvertakenReader(UpdateEvents([1]), 7, [], []);
  }

  // ---- The class ----

  class ReadersWriterData {
    const instances: array<set<int>>
    var reader: nat
    var writer: nat

    ghost predicate Valid()
      reads this, instances
    {
      instances.Length == 2 && AtRest(Value())
    }

    ghost function Value(): Buffer
      reads this, instances
    {
      Buffer(instances[..], reader, writer)
    }

    constructor ()
      ensures Valid() && fresh(instances)
      ensures Value() == EMPTY_BUFFER && instances[..] == [{}, {}] && reader == 0 && writer == 1
    {
      instances := new set<int>[2](_ => {});
      reader, writer := 0, 1;
      new;
      assert instances[..] == [{}, {}];
    }

    /** `std::swap(reader_, writer_)`. */
    method Swap()
      requires Valid()
      modifies this
      ensures Valid() && reader == old(writer) && writer == old(reader)
    {
      var tmp := reader;
      reader := writer;
      writer := tmp;
    }

    /** The update of SetCircuitBreakWhiteList: clear the writer slot, insert the
        codes one by one, swap. */
    method Refresh(codes: seq<int>)
      requires Valid()
      modifies this, instances
      ensures Valid() && Value() == Update(old(Value()), codes)
    {
      var w := writer;
      instances[w] := {};
      var i := 0;
      assert codes[..0] == [];
      while i < |codes|
        invariant 0 <= i <= |codes| && Valid() && reader == old(reader) && writer == w == old(writer)
        invariant instances[w] == Elements(codes[..i])
        invariant instances[1 - w] == old(instances[1 - w])
      {
        assert codes[..i + 1] == codes[..i] + [codes[i]];
        instances[w] := instances[w] + {codes[i]};
        i := i + 1;
      }
      assert codes[..i] == codes;
      assert instances[..] == old(instances[..])[w := Elements(codes)];
      Swap();
    }

    /** InCircuitBreakWhiteList. */
    method InWhiteList(code: int) returns (found: bool)
      requires Valid()
      ensures found <==> code in Current(Value())
    {
      found := code in instances[reader];
    }
  }
}
