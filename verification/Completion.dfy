/** The handshake between `Completion` and `CompletionWriter`
    (audioipc/src/rpccore.rs): a caller waits on a flag and an item in its own
    stack frame, which another thread writes through a raw pointer, and sleeps
    with park/unpark.

    Each step is one atomic action of one thread; loads and stores are
    sequentially consistent.  A thread makes any number of calls, each with its
    own Completion; `park` may return spuriously, and anyone may unpark a thread
    at any time. */
module Completion {
  import opened Wire

  type V(!new, ==)
  type ThreadId = nat
  type CallId = nat

  // Where the owner is in `call`, `wait` and the drop of its Completion.
  datatype Phase =
    | Made           // Completion::new done
    | Armed          // writer() done, the writer is on its way
    | Check          // wait: about to load the flag
    | Park           // loaded true, about to park
    | Blocked
    | Take           // loaded false, about to take the item
    | Taking
    | DropCheck      // drop: about to load the flag
    | DropPark
    | DropBlocked
    | Free           // loaded false, about to release the memory
    | Over           // released

  // Where the CompletionWriter is.
  datatype Writer =
    | Absent
    | Live           // not used yet
    | Setting(v: V)  // set: flag asserted, about to store the item
    | Writing(v: V)
    | Written        // set done, about to be dropped
    | Stored         // drop: flag cleared, about to unpark
    | Gone

  // One call: its memory (flag, item), both actors, and the history of whether the
  // push failed, of what `set` stored and of what `wait` returned.
  datatype Cell = Cell(
    owner: ThreadId, phase: Phase, flag: bool, item: Option<V>, writer: Writer,
    pushFailed: bool, setRan: Option<V>, waited: Option<Option<V>>)
  {
    // The memory belongs to the owner's stack frame until it is released.
    predicate Allocated() { phase != Over }
  }

  datatype Action =
    | Arm | PushOk
    | PushFailed              // `?` returns early, dropping the Completion
    | LoadFlag | ParkNow | WakeByToken | WakeSpuriously | BeginTake | EndTake | Release
    | SetAssert(v: V) | BeginWrite | EndWrite
    | ClearFlag               // the writer is dropped, after `set` or without it
    | Unpark

  // The outcome of an action: the call, the owner's park token, and whether an
  // assertion failed, two threads raced on the item, or a pointer dangled.
  datatype Outcome = Outcome(cell: Cell, token: bool, violation: bool)

  function Act(m: Cell, token: bool, a: Action): Option<Outcome> {
    match a
    case Arm =>
      // assert!(!self.writer.load())
      if m.phase.Made? then Some(Outcome(m.(phase := Armed, flag := true, writer := Live), token, m.flag)) else None
    case PushOk => if m.phase.Armed? then Some(Outcome(m.(phase := Check), token, false)) else None
    case PushFailed =>
      if m.phase.Armed? then Some(Outcome(m.(phase := DropCheck, pushFailed := true), token, false)) else None
    case LoadFlag =>
      if m.phase.Check? then Some(Outcome(m.(phase := if m.flag then Park else Take), token, false))
      else if m.phase.DropCheck? then Some(Outcome(m.(phase := if m.flag then DropPark else Free), token, false))
      else None
    case ParkNow =>
      if m.phase.Park? then Some(Outcome(m.(phase := if token then Check else Blocked), false, false))
      else if m.phase.DropPark? then Some(Outcome(m.(phase := if token then DropCheck else DropBlocked), false, false))
      else None
    case WakeByToken =>
      if !token then None
      else if m.phase.Blocked? then Some(Outcome(m.(phase := Check), false, false))
      else if m.phase.DropBlocked? then Some(Outcome(m.(phase := DropCheck), false, false))
      else None
    case WakeSpuriously =>
      if m.phase.Blocked? then Some(Outcome(m.(phase := Check), token, false))
      else if m.phase.DropBlocked? then Some(Outcome(m.(phase := DropCheck), token, false))
      else None
    case BeginTake =>
      if m.phase.Take? then Some(Outcome(m.(phase := Taking), token, m.writer.Writing?)) else None
    case EndTake =>
      if m.phase.Taking?
      then Some(Outcome(m.(phase := DropCheck, item := None, waited := Some(m.item)), token, false)) else None
    case Release =>
      if m.phase.Free? then Some(Outcome(m.(phase := Over), token, false)) else None
    case SetAssert(v) =>
      // assert!((*self.ptr).writer.load())
      if m.writer.Live? then Some(Outcome(m.(writer := Setting(v)), token, !m.Allocated() || !m.flag)) else None
    case BeginWrite =>
      if m.writer.Setting?
      then Some(Outcome(m.(writer := Writing(m.writer.v)), token, !m.Allocated() || m.phase.Taking?)) else None
    case EndWrite =>
      if m.writer.Writing?
      then Some(Outcome(m.(writer := Written, item := Some(m.writer.v), setRan := Some(m.writer.v)), token,
          !m.Allocated() || m.phase.Taking?))
      else None
    case ClearFlag =>
      if m.writer.Live? || m.writer.Written?
      then Some(Outcome(m.(writer := Stored, flag := false), token, !m.Allocated())) else None
    case Unpark =>
      // the Thread handle is reference counted: the Completion is not touched
      if m.writer.Stored? then Some(Outcome(m.(writer := Gone), true, false)) else None
  }

  // --- All threads and all calls -----------------------------------------------------------

  datatype Sys = Sys(
    threads: map<ThreadId, Option<CallId>>,  // the call a thread is in, if any
    tokens: set<ThreadId>,                   // threads whose park token is available
    calls: map<CallId, Cell>,
    violated: bool)

  datatype Step =
    | Spawn(t: ThreadId)
    | Begin(t: ThreadId, c: CallId)
    | StrayUnpark(t: ThreadId)
    | Do(c: CallId, a: Action)

  function Apply(s: Sys, step: Step): Option<Sys> {
    match step
    case Spawn(t) => if t in s.threads then None else Some(s.(threads := s.threads[t := None]))
    case Begin(t, c) =>
      if t in s.threads && s.threads[t] == None && c !in s.calls
      then Some(s.(threads := s.threads[t := Some(c)],
                   calls := s.calls[c := Cell(t, Made, false, None, Absent, false, None, None)]))
      else None
    case StrayUnpark(t) => Some(s.(tokens := s.tokens + {t}))
    case Do(c, a) =>
      if c !in s.calls then None
      else
        var t := s.calls[c].owner;
        match Act(s.calls[c], t in s.tokens, a)
        case None => None
        case Some(o) => Some(Sys(
          if o.cell.phase == Over && s.calls[c].phase != Over then s.threads[t := None] else s.threads,
          if o.token then s.tokens + {t} else s.tokens - {t},
          s.calls[c := o.cell],
          s.violated || o.violation))
  }

  function Run(s: Sys, steps: seq<Step>): Option<Sys>
    decreases |steps|
  {
    if steps == [] then Some(s)
    else match Apply(s, steps[0])
         case None => None
         case Some(t) => Run(t, steps[1..])
  }

  const Start := Sys(map[], {}, map[], false)

  // --- The invariant ---------------------------------------------------------------------

  // The writer may still dereference its pointer.
  predicate Outstanding(w: Writer) {
    w.Live? || w.Setting? || w.Writing? || w.Written?
  }

  predicate Parked(p: Phase) {
    p.Park? || p.Blocked? || p.DropPark? || p.DropBlocked?
  }

  // Before `wait` returns, or `?` does instead.
  predicate Waiting(p: Phase) {
    p.Made? || p.Armed? || p.Check? || p.Park? || p.Blocked? || p.Take? || p.Taking?
  }

  predicate CellInv(m: Cell, token: bool) {
    && (m.flag <==> Outstanding(m.writer))
    && (m.phase.Made? <==> m.writer.Absent?)
    && (m.phase.Take? || m.phase.Taking? || m.phase.Free? || m.phase.Over? ==> !m.flag)
    && (Parked(m.phase) ==> m.flag || m.writer.Stored? || token)
    && (m.writer.Stored? || m.writer.Gone? || m.writer.Written? || m.setRan == None)
    && (m.writer.Written? ==> m.setRan.Some?)
    && (m.waited.None? ==> m.item == m.setRan) && (m.waited.Some? ==> m.item.None?)
    && (m.waited.Some? ==> m.waited == Some(m.setRan) && !m.flag && !m.phase.Made?)
    && (if Waiting(m.phase) then !m.pushFailed && m.waited.None? else m.pushFailed <==> m.waited.None?)
  }

  lemma ActKeeps(m: Cell, token: bool, a: Action)
    requires CellInv(m, token) && Act(m, token, a).Some?
    ensures var o := Act(m, token, a).value;
            CellInv(o.cell, o.token) && !o.violation && o.cell.owner == m.owner
                && (m.phase.Over? ==> o.cell.phase.Over?)
    // a token is only ever consumed by the call its owner is in
    ensures token && !Act(m, token, a).value.token ==> m.phase != Over
  {
  }

  ghost predicate Inv(s: Sys) {
    && !s.violated
    && (forall c <- s.calls.Keys :: CellInv(s.calls[c], s.calls[c].owner in s.tokens) && s.calls[c].owner in s.threads)
    && (forall c <- s.calls.Keys :: s.calls[c].phase != Over ==> s.threads[s.calls[c].owner] == Some(c))
    && (forall t <- s.threads.Keys :: s.threads[t].Some? ==>
          s.threads[t].value in s.calls && s.calls[s.threads[t].value].owner == t
              && s.calls[s.threads[t].value].phase != Over)
  }

  // More tokens never hurt, and finished calls do not look at them.
  lemma TokenFrame(m: Cell, token: bool, token': bool)
    requires CellInv(m, token) && (token' || !token || m.phase.Over?)
    ensures CellInv(m, token')
  {
  }

  // The other calls do not notice: those of the same owner are finished.
  lemma OthersKeep(s: Sys, c: CallId, x: CallId, token: bool)
    requires Inv(s) && c in s.calls && x in s.calls && x != c
    requires var t := s.calls[c].owner; t in s.tokens && !token ==> s.calls[c].phase != Over
    ensures var t := s.calls[c].owner;
            CellInv(s.calls[x], s.calls[x].owner in if token then s.tokens + {t} else s.tokens - {t})
  {
    hide CellInv;
    var t := s.calls[c].owner;
    TokenFrame(s.calls[x], s.calls[x].owner in s.tokens,
        s.calls[x].owner in if token then s.tokens + {t} else s.tokens - {t});
  }

  lemma DoKeeps(s: Sys, c: CallId, a: Action)
    requires Inv(s) && Apply(s, Do(c, a)).Some?
    ensures Inv(Apply(s, Do(c, a)).value)
  {
    hide Act, CellInv;
    var m, t := s.calls[c], s.calls[c].owner;
    ActKeeps(m, t in s.tokens, a);
    var o, s' := Act(m, t in s.tokens, a).value, Apply(s, Do(c, a)).value;
    forall x <- s'.calls.Keys
      ensures CellInv(s'.calls[x], s'.calls[x].owner in s'.tokens) && s'.calls[x].owner in s'.threads
    {
      if x != c {
        OthersKeep(s, c, x, o.token);
      }
    }
  }

  lemma StepKeeps(s: Sys, step: Step)
    requires Inv(s) && Apply(s, step).Some?
    ensures Inv(Apply(s, step).value)
  {
    match step
    case Do(c, a) => DoKeeps(s, c, a);
    case StrayUnpark(t) =>
      var s' := Apply(s, step).value;
      forall x <- s.calls.Keys
        ensures CellInv(s.calls[x], s.calls[x].owner in s'.tokens)
      {
        TokenFrame(s.calls[x], s.calls[x].owner in s.tokens, s.calls[x].owner in s'.tokens);
      }
    case Spawn(_) =>
    case Begin(_, _) =>
  }

  lemma {:induction false} RunKeeps(s: Sys, steps: seq<Step>)
    requires Inv(s) && Run(s, steps).Some?
    ensures Inv(Run(s, steps).value)
    decreases |steps|
  {
    if steps != [] {
      StepKeeps(s, steps[0]);
      RunKeeps(Apply(s, steps[0]).value, steps[1..]);
    }
  }

  // --- What it means -----------------------------------------------------------------------

  // The actions of the writer that use its pointer.
  predicate UsesPointer(a: Action) {
    a.SetAssert? || a.BeginWrite? || a.EndWrite? || a.ClearFlag?
  }

  /** What counts as a violation: a pointer used after the release, an assertion on the
      flag that fails, or the item read by one thread while the other writes it. */
  lemma ViolationIff(m: Cell, token: bool, a: Action)
    requires Act(m, token, a).Some?
    ensures Act(m, token, a).value.violation <==>
              || (UsesPointer(a) && !m.Allocated())
              || (a.Arm? && m.flag) || (a.SetAssert? && !m.flag)
              || ((a.BeginWrite? || a.EndWrite?) && m.phase.Taking?) || (a.BeginTake? && m.writer.Writing?)
  {
  }

  /** Over every interleaving: no assertion of the handshake fires, the item is
      never read and written at once, and no writer touches a Completion that
      has been released, because a writer that may still touch it keeps its
      owner from taking the item and from releasing it. */
  lemma HandshakeIsSafe(steps: seq<Step>)
    requires Run(Start, steps).Some?
    ensures var s := Run(Start, steps).value;
            && !s.violated
            && forall c <- s.calls.Keys :: Outstanding(s.calls[c].writer) ==>
                 s.calls[c].Allocated() && s.calls[c].flag && !s.calls[c].phase.Taking?
  {
    RunKeeps(Start, steps);
  }

  // --- What `wait` returns, read off the steps ---------------------------------------------------

  // The values that `set` was called with on call `c`.
  function SetsOf(steps: seq<Step>, c: CallId): seq<V> {
    if steps == [] then []
    else
      var last := steps[|steps| - 1];
      SetsOf(steps[..|steps| - 1], c) + if last.Do? && last.c == c && last.a.SetAssert? then [last.a.v] else []
  }

  function First(vs: seq<V>): Option<V> {
    if vs == [] then None else Some(vs[0])
  }

  // The writer of a cell has been given `sets` so far.
  predicate Heard(m: Cell, sets: seq<V>) {
    match m.writer
    case Absent => sets == [] && m.setRan.None?
    case Live => sets == [] && m.setRan.None?
    case Setting(v) => sets == [v]
    case Writing(v) => sets == [v]
    case _ => |sets| <= 1 && m.setRan == First(sets)
  }

  ghost predicate ReadsOff(s: Sys, steps: seq<Step>, c: CallId) {
    if c in s.calls then
      Heard(s.calls[c], SetsOf(steps, c)) && (s.calls[c].pushFailed <==> Do(c, PushFailed) in steps)
    else SetsOf(steps, c) == [] && Do(c, PushFailed) !in steps
  }

  lemma {:induction false} RunLast(s: Sys, steps: seq<Step>, last: Step)
    requires Run(s, steps + [last]).Some?
    ensures Run(s, steps).Some? && Apply(Run(s, steps).value, last) == Run(s, steps + [last])
    decreases |steps|
  {
    hide Apply;
    if steps == [] {
      assert [] + [last] == [last] && [last][1..] == [];
    } else {
      assert (steps + [last])[1..] == steps[1..] + [last];
      RunLast(Apply(s, steps[0]).value, steps[1..], last);
    }
  }

  lemma ActHears(m: Cell, token: bool, a: Action, sets: seq<V>)
    requires CellInv(m, token) && Heard(m, sets) && Act(m, token, a).Some?
    ensures var m' := Act(m, token, a).value.cell;
            && Heard(m', sets + if a.SetAssert? then [a.v] else [])
            && (m'.pushFailed <==> m.pushFailed || a.PushFailed?)
  {
    assert sets + [] == sets;
  }

  lemma {:induction false} RunReadsOff(steps: seq<Step>, c: CallId)
    requires Run(Start, steps).Some?
    ensures ReadsOff(Run(Start, steps).value, steps, c)
    decreases |steps|
  {
    if steps != [] {
      var before, last := steps[..|steps| - 1], steps[|steps| - 1];
      assert steps == before + [last];
      RunLast(Start, before, last);
      RunReadsOff(before, c);
      RunKeeps(Start, before);
      var s := Run(Start, before).value;
      assert c in s.calls ==> CellInv(s.calls[c], s.calls[c].owner in s.tokens);
      hide Run, Act, Heard, Inv, CellInv;
      assert SetsOf(before, c) + [] == SetsOf(before, c);
      if c in s.calls && last.Do? && last.c == c {
        ActHears(s.calls[c], s.calls[c].owner in s.tokens, last.a, SetsOf(before, c));
      } else if c !in s.calls {
        assert last.Begin? && last.c == c ==> Apply(s, last).value.calls[c].writer.Absent?;
        NothingHeard();
      }
    }
  }

  lemma NothingHeard()
    ensures forall m: Cell :: m.writer.Absent? && m.setRan.None? ==> Heard(m, [])
  {
  }

  /** A call that is over has returned from `wait` what its writer was given by `set`,
      or None if it was given nothing, unless its push failed; however often the thread
      was woken.  `set` is called at most once, and another `wait` would return None. */
  lemma WaitReturnsWhatWasSet(steps: seq<Step>, c: CallId)
    requires Run(Start, steps).Some? && c in Run(Start, steps).value.calls
    requires !Waiting(Run(Start, steps).value.calls[c].phase)
    ensures var m, sets := Run(Start, steps).value.calls[c], SetsOf(steps, c);
            && |sets| <= 1
            && (if Do(c, PushFailed) in steps then m.waited.None?
                else m.waited == Some(First(sets)) && m.item.None? && (m.writer.Stored? || m.writer.Gone?))
  {
    RunKeeps(Start, steps);
    RunReadsOff(steps, c);
    var s := Run(Start, steps).value;
    assert CellInv(s.calls[c], s.calls[c].owner in s.tokens);
  }

  // --- Park tokens ------------------------------------------------------------------------------------

  // Whether the last that happened to the token of `t` was an unpark.
  function Unparked(steps: seq<Step>, owner: map<CallId, Cell>, t: ThreadId): bool {
    if steps == [] then false
    else
      var before := Unparked(steps[..|steps| - 1], owner, t);
      match steps[|steps| - 1]
      case StrayUnpark(u) => u == t || before
      case Do(c, a) =>
        if c !in owner || owner[c].owner != t then before
        else if a.Unpark? then true
        else if a.ParkNow? || a.WakeByToken? then false
        else before
      case _ => before
  }

  // The owner of a call never changes, and calls are never forgotten.
  ghost predicate SameOwners(s: Sys, later: map<CallId, Cell>) {
    forall c <- s.calls.Keys :: c in later && later[c].owner == s.calls[c].owner
  }

  lemma StepOwners(s: Sys, step: Step)
    requires Inv(s) && Apply(s, step).Some?
    ensures SameOwners(s, Apply(s, step).value.calls)
  {
    if step.Do? {
      assert CellInv(s.calls[step.c], s.calls[step.c].owner in s.tokens);
      ActKeeps(s.calls[step.c], s.calls[step.c].owner in s.tokens, step.a);
    }
    hide Act, CellInv;
  }

  lemma ActTokens(m: Cell, token: bool, a: Action)
    requires Act(m, token, a).Some?
    ensures Act(m, token, a).value.token
         == if a.Unpark? then true else if a.ParkNow? || a.WakeByToken? then false else token
  {
  }

  /** In every run a token is there exactly if an unpark came after the last park that
      used one: tokens do not add up, and none lets park return twice. */
  lemma {:induction false} TokensAreUnparks(steps: seq<Step>, later: map<CallId, Cell>, t: ThreadId)
    requires Run(Start, steps).Some? && SameOwners(Run(Start, steps).value, later)
    ensures t in Run(Start, steps).value.tokens <==> Unparked(steps, later, t)
    decreases |steps|
  {
    if steps != [] {
      var before, last := steps[..|steps| - 1], steps[|steps| - 1];
      assert steps == before + [last];
      RunLast(Start, before, last);
      RunKeeps(Start, before);
      var s := Run(Start, before).value;
      StepOwners(s, last);
      TokensAreUnparks(before, later, t);
      if last.Do? {
        ActTokens(s.calls[last.c], s.calls[last.c].owner in s.tokens, last.a);
      }
      hide Run, Act, Inv;
    }
  }

  /** A sleeper may wake at any time, with a token, which anyone may give it, or without.
      Whatever woke it, it looks at the flag again, and sleeps on unless that is clear. */
  lemma SleepersLookAgain(m: Cell, token: bool)
    requires m.phase.Blocked? || m.phase.DropBlocked?
    ensures Act(m, token, WakeSpuriously).Some? && Act(m, true, WakeByToken).Some?
    ensures forall a | (a == WakeSpuriously || (a == WakeByToken && token)) ::
              var woken := Act(m, token, a).value;
              var looked := Act(woken.cell, woken.token, LoadFlag);
              && looked.Some? && Parked(looked.value.cell.phase) == m.flag
              && looked.value.cell == m.(phase := looked.value.cell.phase)
    ensures forall s: Sys, t :: Apply(s, StrayUnpark(t)).Some? && t in Apply(s, StrayUnpark(t)).value.tokens
  {
  }

  /** While its flag is set the owner parks: with a token it is back at the flag at once and
      the token is used, without one it sleeps. */
  lemma ParkUsesTheToken(m: Cell, token: bool)
    requires (m.phase.Check? || m.phase.DropCheck?) && m.flag
    ensures var looked := Act(m, token, LoadFlag);
            looked.Some? && looked.value.token == token &&
            var parked := Act(looked.value.cell, token, ParkNow);
            && parked.Some? && !parked.value.token && parked.value.cell == m.(phase := parked.value.cell.phase)
            && if token then parked.value.cell == m
               else parked.value.cell.phase == if m.phase.Check? then Blocked else DropBlocked
  {
  }

  // Several actions on one call, with nothing in between.
  function ActAll(m: Cell, token: bool, actions: seq<Action>): Option<Outcome>
    decreases |actions|
  {
    if actions == [] then Some(Outcome(m, token, false))
    else
      var o := Act(m, token, actions[0]);
      if o.None? || o.value.violation then None else ActAll(o.value.cell, o.value.token, actions[1..])
  }

  /** With the flag clear, the owner takes the item, looks at the flag once more for the
      drop, and only then releases the memory. */
  lemma TheWayOut(m: Cell, token: bool)
    requires m.phase.Check? && !m.flag && !m.writer.Writing?
    ensures ActAll(m, token, [LoadFlag, BeginTake, EndTake, LoadFlag, Release])
         == Some(Outcome(m.(phase := Over, item := None, waited := Some(m.item)), token, false))
  {
    var m1, m2 := m.(phase := Take), m.(phase := Taking);
    var m3 := m.(phase := DropCheck, item := None, waited := Some(m.item));
    Acted(m3.(phase := Free), token, Release, [], m3.(phase := Over));
    Acted(m3, token, LoadFlag, [Release], m3.(phase := Free));
    Acted(m2, token, EndTake, [LoadFlag, Release], m3);
    Acted(m1, token, BeginTake, [EndTake, LoadFlag, Release], m2);
    Acted(m, token, LoadFlag, [BeginTake, EndTake, LoadFlag, Release], m1);
  }

  /** `set` asserts, writes and is followed by the drop, which clears the flag before it
      unparks the owner. */
  lemma TheWayOfTheWriter(m: Cell, token: bool, v: V)
    requires m.writer.Live? && m.flag && m.Allocated() && !m.phase.Taking?
    ensures ActAll(m, token, [SetAssert(v), BeginWrite, EndWrite, ClearFlag, Unpark])
         == Some(Outcome(m.(writer := Gone, item := Some(v), setRan := Some(v), flag := false), true, false))
  {
    var m1, m2 := m.(writer := Setting(v)), m.(writer := Writing(v));
    var m3 := m.(writer := Written, item := Some(v), setRan := Some(v));
    var m4 := m3.(writer := Stored, flag := false);
    assert Act(m4, token, Unpark) == Some(Outcome(m4.(writer := Gone), true, false));
    assert ActAll(m4, token, [Unpark]) == ActAll(m4.(writer := Gone), true, [Unpark][1..]);
    Acted(m3, token, ClearFlag, [Unpark], m4);
    Acted(m2, token, EndWrite, [ClearFlag, Unpark], m3);
    Acted(m1, token, BeginWrite, [EndWrite, ClearFlag, Unpark], m2);
    Acted(m, token, SetAssert(v), [BeginWrite, EndWrite, ClearFlag, Unpark], m1);
  }

  lemma Acted(m: Cell, token: bool, a: Action, rest: seq<Action>, m': Cell)
    requires Act(m, token, a) == Some(Outcome(m', token, false))
    ensures ActAll(m, token, [a] + rest) == ActAll(m', token, rest)
  {
    hide Act;
    assert ([a] + rest)[1..] == rest;
  }

  /** No lost wakeup: a thread that is parked without a token has a writer that
      has yet to unpark it. */
  lemma ParkedHasAWaker(steps: seq<Step>, c: CallId)
    requires Run(Start, steps).Some? && c in Run(Start, steps).value.calls
    requires var s := Run(Start, steps).value;
             (s.calls[c].phase.Blocked? || s.calls[c].phase.DropBlocked?) && s.calls[c].owner !in s.tokens
    ensures var w := Run(Start, steps).value.calls[c].writer; Outstanding(w) || w.Stored?
  {
    RunKeeps(Start, steps);
    var s := Run(Start, steps).value;
    assert CellInv(s.calls[c], s.calls[c].owner in s.tokens);
  }

  // What the owner does next once its writer is gone, and how far it has to go.
  function Next(p: Phase): Action {
    match p
    case Armed => PushOk
    case Park => ParkNow
    case DropPark => ParkNow
    case Blocked => WakeByToken
    case DropBlocked => WakeByToken
    case Take => BeginTake
    case Taking => EndTake
    case Free => Release
    case _ => LoadFlag
  }

  function Rank(p: Phase): nat {
    match p
    case Made => 9 case Armed => 8 case Park => 7 case Blocked => 7 case Check => 6 case Take => 5 case Taking => 4
    case DropPark => 3 case DropBlocked => 3 case DropCheck => 2 case Free => 1 case Over => 0
  }

  lemma OwnerAdvances(m: Cell, token: bool)
    requires CellInv(m, token) && m.writer.Gone? && m.phase != Over
    ensures var o := Act(m, token, Next(m.phase));
            && o.Some? && Rank(o.value.cell.phase) < Rank(m.phase)
            && o.value.cell.writer.Gone? && o.value.cell.setRan == m.setRan && o.value.cell.pushFailed == m.pushFailed
  {
  }

  /** Once the writer has unparked it, the owner gets out of `call` by its own steps
      alone: it is never left asleep, and if its push had succeeded, `wait` has
      returned what was set. */
  lemma {:induction false} OwnerFinishes(s: Sys, c: CallId) returns (steps: seq<Step>, s': Sys)
    requires Inv(s) && c in s.calls && s.calls[c].writer.Gone?
    ensures forall step <- steps :: step.Do? && step.c == c
    ensures Run(s, steps) == Some(s') && Inv(s') && c in s'.calls && s'.calls[c].phase == Over
    ensures s'.calls[c].waited == if s.calls[c].pushFailed then None else Some(s.calls[c].setRan)
    decreases Rank(s.calls[c].phase)
  {
    if s.calls[c].phase == Over {
      assert CellInv(s.calls[c], s.calls[c].owner in s.tokens);
      return [], s;
    }
    var step := Do(c, Next(s.calls[c].phase));
    OwnerAdvances(s.calls[c], s.calls[c].owner in s.tokens);
    DoKeeps(s, c, step.a);
    hide Act, CellInv;
    var rest;
    rest, s' := OwnerFinishes(Apply(s, step).value, c);
    steps := [step] + rest;
  }

  // What the writer does next: `set` if it is given a value, and then its drop.
  function WriterNext(w: Writer, v: Option<V>): Action {
    match w
    case Live => if v.Some? then SetAssert(v.value) else ClearFlag
    case Setting(_) => BeginWrite
    case Writing(_) => EndWrite
    case Written => ClearFlag
    case _ => Unpark
  }

  function WriterRank(w: Writer): nat {
    match w
    case Absent => 6 case Live => 5 case Setting(_) => 4 case Writing(_) => 3 case Written => 2 case Stored => 1
    case Gone => 0
  }

  // What the writer will have set when it is gone.
  function WillSet(m: Cell, v: Option<V>): Option<V> {
    match m.writer
    case Live => v
    case Setting(x) => Some(x)
    case Writing(x) => Some(x)
    case _ => m.setRan
  }

  lemma WriterAdvances(m: Cell, token: bool, v: Option<V>)
    requires CellInv(m, token) && !m.writer.Absent? && !m.writer.Gone?
    ensures var o := Act(m, token, WriterNext(m.writer, v));
            && o.Some? && WriterRank(o.value.cell.writer) < WriterRank(m.writer)
            && WillSet(o.value.cell, v) == WillSet(m, v) && o.value.cell.pushFailed == m.pushFailed
  {
  }

  // The writer is never held up either, whatever its owner is doing.
  lemma {:induction false} WriterFinishes(s: Sys, c: CallId, v: Option<V>) returns (steps: seq<Step>, s': Sys)
    requires Inv(s) && c in s.calls && !s.calls[c].writer.Absent?
    ensures forall step <- steps :: step.Do? && step.c == c
    ensures Run(s, steps) == Some(s') && Inv(s') && c in s'.calls && s'.calls[c].writer.Gone?
    ensures s'.calls[c].setRan == WillSet(s.calls[c], v) && s'.calls[c].pushFailed == s.calls[c].pushFailed
    decreases WriterRank(s.calls[c].writer)
  {
    if s.calls[c].writer.Gone? {
      return [], s;
    }
    var step := Do(c, WriterNext(s.calls[c].writer, v));
    assert CellInv(s.calls[c], s.calls[c].owner in s.tokens);
    WriterAdvances(s.calls[c], s.calls[c].owner in s.tokens, v);
    DoKeeps(s, c, step.a);
    hide Act, CellInv, WillSet;
    var rest;
    rest, s' := WriterFinishes(Apply(s, step).value, c, v);
    steps := [step] + rest;
  }

  lemma {:induction false} RunAppend(s: Sys, xs: seq<Step>, ys: seq<Step>)
    requires Run(s, xs).Some?
    ensures Run(s, xs + ys) == Run(Run(s, xs).value, ys)
    decreases |xs|
  {
    hide Apply;
    if xs == [] {
      assert xs + ys == ys;
    } else {
      assert (xs + ys)[1..] == xs[1..] + ys;
      RunAppend(Apply(s, xs[0]).value, xs[1..], ys);
    }
  }

  /** Every call that has armed its completion can be finished from any state by its
      writer's and its owner's steps, and a writer not used yet may be given any value. */
  lemma CallFinishes(s: Sys, c: CallId, v: Option<V>) returns (steps: seq<Step>, s': Sys)
    requires Inv(s) && c in s.calls && !s.calls[c].writer.Absent?
    ensures forall step <- steps :: step.Do? && step.c == c
    ensures Run(s, steps) == Some(s') && Inv(s') && c in s'.calls && s'.calls[c].phase == Over
    ensures s'.calls[c].waited == if s.calls[c].pushFailed then None else Some(WillSet(s.calls[c], v))
  {
    hide Run, Inv, WillSet;
    var xs, t := WriterFinishes(s, c, v);
    var ys;
    ys, s' := OwnerFinishes(t, c);
    RunAppend(s, xs, ys);
    steps := xs + ys;
  }

  /** From every reachable state a new thread can make a call, and be idle again after
      it: if the push succeeds, `wait` returns what the writer is given. */
  lemma NewCallReturns(before: seq<Step>, s: Sys, t: ThreadId, c: CallId, v: Option<V>, pushes: bool)
    returns (steps: seq<Step>, s': Sys)
    requires Run(Start, before) == Some(s) && t !in s.threads && c !in s.calls
    ensures Run(s, steps) == Some(s') && t in s'.threads && s'.threads[t].None?
    ensures c in s'.calls && s'.calls[c].owner == t && s'.calls[c].waited == if pushes then Some(v) else None
  {
    RunKeeps(Start, before);
    hide Run, Inv;
    var begins, s1 := Begins(s, t, c, pushes);
    RunKeeps(s, begins);
    var rest;
    rest, s' := CallFinishes(s1, c, v);
    RunAppend(s, begins, rest);
    steps := begins + rest;
    OnlyThisCall(s1, rest, s', c);
    ReturnedFrom(s', c, t);
  }

  // A thread is spawned and gets as far as its push.
  lemma Begins(s: Sys, t: ThreadId, c: CallId, pushes: bool) returns (steps: seq<Step>, s': Sys)
    requires t !in s.threads && c !in s.calls
    ensures Run(s, steps) == Some(s') && s'.threads == s.threads[t := Some(c)] && c in s'.calls
    ensures var m := s'.calls[c]; m.owner == t && m.writer.Live? && m.pushFailed == !pushes
  {
    steps := [Spawn(t), Begin(t, c), Do(c, Arm), Do(c, if pushes then PushOk else PushFailed)];
    var m1 := Cell(t, Made, false, None, Absent, false, None, None);
    var m2 := m1.(phase := Armed, flag := true, writer := Live);
    var m3 := m2.(phase := if pushes then Check else DropCheck, pushFailed := !pushes);
    var s1 := s.(threads := s.threads[t := None]);
    var s2 := s.(threads := s.threads[t := Some(c)], calls := s.calls[c := m1]);
    assert s1.threads[t := Some(c)] == s2.threads;
    assert Apply(s, steps[0]) == Some(s1) && Apply(s1, steps[1]) == Some(s2);
    var s3 := Acts(s2, c, steps[2].a, m2);
    s' := Acts(s3, c, steps[3].a, m3);
    hide Apply, Act;
    Four(s, steps, s1, s2, s3, s');
  }

  // An action that leaves the token alone and does not end the call.
  lemma Acts(s: Sys, c: CallId, a: Action, m: Cell) returns (s': Sys)
    requires c in s.calls && m.phase != Over && m.owner == s.calls[c].owner
    requires Act(s.calls[c], s.calls[c].owner in s.tokens, a) == Some(Outcome(m, s.calls[c].owner in s.tokens, false))
    ensures s' == s.(calls := s.calls[c := m]) && Apply(s, Do(c, a)) == Some(s')
  {
    hide Act;
    var t := s.calls[c].owner;
    assert (if t in s.tokens then s.tokens + {t} else s.tokens - {t}) == s.tokens;
    s' := s.(calls := s.calls[c := m]);
  }

  lemma Four(s: Sys, steps: seq<Step>, s1: Sys, s2: Sys, s3: Sys, s4: Sys)
    requires |steps| == 4 && Apply(s, steps[0]) == Some(s1) && Apply(s1, steps[1]) == Some(s2)
    requires Apply(s2, steps[2]) == Some(s3) && Apply(s3, steps[3]) == Some(s4)
    ensures Run(s, steps) == Some(s4)
  {
    hide Apply;
    assert Run(s4, []) == Some(s4);
    assert steps[1..][1..] == steps[2..] && steps[2..][1..] == steps[3..] && steps[3..][1..] == [];
    assert Run(s3, steps[3..]) == Some(s4) && Run(s2, steps[2..]) == Some(s4) && Run(s1, steps[1..]) == Some(s4);
  }

  // Actions of one call start no other, and keep its owner.
  lemma {:induction false} OnlyThisCall(s: Sys, steps: seq<Step>, s': Sys, c: CallId)
    requires Inv(s) && c in s.calls && (forall step <- steps :: step.Do? && step.c == c) && Run(s, steps) == Some(s')
    ensures c in s'.calls && s'.calls[c].owner == s.calls[c].owner && s'.threads.Keys == s.threads.Keys
    ensures forall t <- s.threads.Keys :: s'.threads[t] == s.threads[t] || s'.threads[t].None?
    decreases |steps|
  {
    if steps != [] {
      var step := steps[0];
      assert step in steps && forall x <- steps[1..] :: x in steps;
      DoKeeps(s, c, step.a);
      ActKeeps(s.calls[c], s.calls[c].owner in s.tokens, step.a) by {
        assert CellInv(s.calls[c], s.calls[c].owner in s.tokens);
      }
      assert s.calls[c].owner in s.threads;
      hide Act, Inv, CellInv;
      OnlyThisCall(Apply(s, step).value, steps[1..], s', c);
    }
  }

  // An owner whose call is over is in no call, or in another one.
  lemma ReturnedFrom(s: Sys, c: CallId, t: ThreadId)
    requires Inv(s) && c in s.calls && s.calls[c].phase == Over && t in s.threads
    ensures s.threads[t] != Some(c)
  {
  }
}
