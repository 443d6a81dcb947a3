/** Device handles and device-collection notifications of the server:
    DevIdMap and CubebDeviceCollectionManager in server/src/server.rs. */
module Devices {
  import opened Wire

  // --- DevIdMap -----------------------------------------------------------------------------------

  // The table of a DevIdMap: the null device comes first, and no device twice.
  ghost predicate Table(devices: seq<nat>) {
    devices != [] && devices[0] == 0 && NoDup(devices)
  }

  // The first index of a device, if it is known.
  function Position(devices: seq<nat>, devid: nat): (r: Option<nat>)
    ensures r.None? <==> devid !in devices
    ensures r.Some? ==> r.value < |devices| && devices[r.value] == devid
  {
    if devices == [] then None
    else if devices[0] == devid then Some(0)
    else
      var r := Position(devices[1..], devid);
      assert devices == [devices[0]] + devices[1..];
      if r.Some? then Some(r.value + 1) else None
  }

  // The table and the handle after make_handle.
  function MakeHandle(devices: seq<nat>, devid: nat): (seq<nat>, nat) {
    var p := Position(devices, devid);
    if p.Some? then (devices, p.value) else (devices + [devid], |devices|)
  }

  // A sequence of enumerations: every device of every one of them, in order.
  function MakeHandles(devices: seq<nat>, devids: seq<nat>): (r: (seq<nat>, seq<nat>))
    ensures |r.1| == |devids|
    decreases |devids|
  {
    if devids == [] then (devices, [])
    else
      var first := MakeHandle(devices, devids[0]);
      var rest := MakeHandles(first.0, devids[1..]);
      (rest.0, [first.1] + rest.1)
  }

  // handle_to_id; an unknown handle is an index panic.
  function HandleToId(devices: seq<nat>, handle: nat): Option<nat> {
    if handle < |devices| then Some(devices[handle]) else None
  }

  /** Over every sequence of enumerations the table only grows, so a handle once
      given out maps back to its device forever; 0 stays 0. */
  lemma {:induction false} HandlesAreStable(devices: seq<nat>, devids: seq<nat>)
    requires Table(devices)
    ensures var r := MakeHandles(devices, devids);
            && Table(r.0) && devices <= r.0
            && (forall i :: 0 <= i < |devids| ==> HandleToId(r.0, r.1[i]) == Some(devids[i]))
            && HandleToId(r.0, 0) == Some(0)
    decreases |devids|
  {
    if devids != [] {
      var first := MakeHandle(devices, devids[0]);
      assert Table(first.0) && devices <= first.0 && HandleToId(first.0, first.1) == Some(devids[0]);
      HandlesAreStable(first.0, devids[1..]);
      var r, rest := MakeHandles(devices, devids), MakeHandles(first.0, devids[1..]);
      assert r.0 == rest.0 && first.0 <= rest.0;
      forall i | 0 <= i < |devids|
        ensures HandleToId(r.0, r.1[i]) == Some(devids[i])
      {
        if i > 0 {
          assert devids[1..][i - 1] == devids[i] && r.1[i] == rest.1[i - 1];
        }
      }
    }
  }

  /** Handles and devices correspond one to one; only the null device has handle 0. */
  lemma HandlesAreUnique(devices: seq<nat>, devids: seq<nat>, i: nat, j: nat)
    requires Table(devices) && i < |devids| && j < |devids|
    ensures var handles := MakeHandles(devices, devids).1;
            && (handles[i] == handles[j] <==> devids[i] == devids[j])
            && (handles[i] == 0 <==> devids[i] == 0)
  {
    HandlesAreStable(devices, devids);
  }

  class DevIdMap {
    var devices: seq<nat>

    constructor ()
      ensures devices == [0] && Table(devices)
    {
      devices := [0];
    }

    method Make(devid: nat) returns (handle: nat)
      requires Table(devices)
      modifies this
      ensures (devices, handle) == MakeHandle(old(devices), devid) && Table(devices)
    {
      var i := 0;
      while i < |devices|
        invariant 0 <= i <= |devices|
        invariant devid !in devices[..i]
      {
        if devices[i] == devid {
          return i;
        }
        i := i + 1;
      }
      assert devices[..i] == devices;
      devices := devices + [devid];
      return |devices| - 1;
    }
  }

  // --- CubebDeviceCollectionManager -----------------------------------------------------------------

  datatype DeviceType = DeviceType(input: bool, output: bool) {
    predicate Contains(other: DeviceType) {
      (other.input ==> input) && (other.output ==> output)
    }
  }

  datatype Entry = Entry(server: nat, devtype: DeviceType)

  // The registered servers, and which backend callbacks are enabled.
  datatype Manager = Manager(servers: seq<Entry>, inputOn: bool, outputOn: bool)

  // Whether each backend call succeeds, input first.  A call that fails changes nothing.
  datatype Backend = Backend(input: bool, output: bool) {
    predicate Ok() {
      input && output
    }
  }

  // internal_register: `?` leaves the second call out when the first fails.
  function Switched(m: Manager, enable: bool, b: Backend): Manager {
    if !b.input then m
    else if !b.output then m.(inputOn := enable)
    else m.(inputOn := enable, outputOn := enable)
  }

  function Registered(m: Manager, e: Entry, b: Backend): Manager {
    var m1 := if m.servers == [] then Switched(m, true, b) else m;
    if m.servers == [] && !b.Ok() then m1 else m1.(servers := m.servers + [e])
  }

  function Retain(servers: seq<Entry>, e: Entry): seq<Entry> {
    if servers == [] then []
    else (if servers[0] == e then [] else [servers[0]]) + Retain(servers[1..], e)
  }

  function Unregistered(m: Manager, e: Entry, b: Backend): Manager {
    var m1 := m.(servers := Retain(m.servers, e));
    if m1.servers == [] then Switched(m1, false, b) else m1
  }

  // Whom a change notifies, in order.
  function Notified(servers: seq<Entry>, changed: DeviceType): seq<nat> {
    if servers == [] then []
    else (if servers[0].devtype.Contains(changed) then [servers[0].server] else []) + Notified(servers[1..], changed)
  }

  // The backend listens exactly when somebody is registered.
  predicate InStep(m: Manager) {
    m.inputOn == m.outputOn == (m.servers != [])
  }

  datatype Op = Reg(e: Entry, b: Backend) | Unreg(e: Entry, b: Backend)

  function Do(m: Manager, op: Op): Manager {
    match op
    case Reg(e, b) => Registered(m, e, b)
    case Unreg(e, b) => Unregistered(m, e, b)
  }

  // The operation calls the backend, and a failure there matters.
  predicate Derails(m: Manager, op: Op) {
    match op
    case Reg(_, b) => m.servers == [] && b.input && !b.output
    case Unreg(e, b) => m.servers != [] && Retain(m.servers, e) == [] && !b.Ok()
  }

  /** One operation keeps the backend in step with the list if and only if it does
      not fail half-way: enabling the second direction of the first registration,
      or disabling either after the last. */
  lemma KeepsStepIff(m: Manager, op: Op)
    requires InStep(m)
    ensures InStep(Do(m, op)) <==> !Derails(m, op)
  {
  }

  // At the start and after every operation of a run.
  predicate AlwaysInStep(m: Manager, ops: seq<Op>)
    decreases |ops|
  {
    InStep(m) && (ops != [] ==> AlwaysInStep(Do(m, ops[0]), ops[1..]))
  }

  predicate NeverDerails(m: Manager, ops: seq<Op>)
    decreases |ops|
  {
    ops != [] ==> !Derails(m, ops[0]) && NeverDerails(Do(m, ops[0]), ops[1..])
  }

  /** Over every run of registrations and removals, both directions are enabled
      exactly when the list is not empty if and only if no operation derails; and
      none does when every backend call succeeds. */
  lemma {:induction false} BackendFollowsList(m: Manager, ops: seq<Op>)
    requires InStep(m)
    ensures AlwaysInStep(m, ops) <==> NeverDerails(m, ops)
    ensures (forall op <- ops :: op.b.Ok()) ==> NeverDerails(m, ops)
    decreases |ops|
  {
    hide Do;
    if ops != [] {
      KeepsStepIff(m, ops[0]);
      var next := Do(m, ops[0]);
      if InStep(next) {
        BackendFollowsList(next, ops[1..]);
      }
      assert ops == [ops[0]] + ops[1..];
    }
  }

  // `a` is `b` with some entries left out: the order is kept.
  predicate LeavesOut(a: seq<Entry>, b: seq<Entry>) {
    a == [] || (b != [] && (if a[0] == b[0] then LeavesOut(a[1..], b[1..]) else LeavesOut(a, b[1..])))
  }

  lemma {:induction false} RetainExact(servers: seq<Entry>, e: Entry, x: Entry)
    ensures multiset(Retain(servers, e))[x] == if x == e then 0 else multiset(servers)[x]
  {
    if servers != [] {
      RetainExact(servers[1..], e, x);
      assert servers == [servers[0]] + servers[1..];
    }
  }

  lemma {:induction false} RetainKeepsOrder(servers: seq<Entry>, e: Entry)
    ensures LeavesOut(Retain(servers, e), servers)
  {
    if servers != [] {
      RetainKeepsOrder(servers[1..], e);
      var rest := Retain(servers[1..], e);
      if servers[0] == e {
        RetainExact(servers[1..], e, e);
        assert [] + rest == rest;
        if rest != [] {
          assert rest[0] in multiset(rest) && rest[0] != e;
        }
      } else {
        assert ([servers[0]] + rest)[1..] == rest;
      }
    }
  }

  /** An unregistration takes all and only the matching entries and keeps the order of
      the others, whether or not the backend call that may follow succeeds. */
  lemma UnregistersExactly(m: Manager, e: Entry, b: Backend, x: Entry)
    ensures var after := Unregistered(m, e, b).servers;
            && multiset(after)[x] == (if x == e then 0 else multiset(m.servers)[x])
            && LeavesOut(after, m.servers)
  {
    RetainExact(m.servers, e, x);
    RetainKeepsOrder(m.servers, e);
  }

  /** A registration adds one entry, last, unless it is the first and the backend
      refuses; then the list stays empty. */
  lemma RegistersExactly(m: Manager, e: Entry, b: Backend, x: Entry)
    ensures var after := Registered(m, e, b).servers;
            if m.servers == [] && !b.Ok() then after == []
            else
              && after != [] && after[|after| - 1] == e && LeavesOut(m.servers, after)
              && multiset(after)[x] == multiset(m.servers)[x] + if x == e then 1 else 0
  {
    AppendLeavesOut(m.servers, e);
  }

  lemma {:induction false} AppendLeavesOut(a: seq<Entry>, x: Entry)
    ensures LeavesOut(a, a + [x])
  {
    if a != [] {
      assert (a + [x])[1..] == a[1..] + [x];
      AppendLeavesOut(a[1..], x);
    }
  }

  // How often `x` has been registered since it was last unregistered.
  function Standing(ops: seq<Op>, x: Entry): nat {
    if ops == [] then 0
    else
      var before, last := Standing(ops[..|ops| - 1], x), ops[|ops| - 1];
      if last.e != x then before else if last.Unreg? then 0 else before + 1
  }

  function DoAll(m: Manager, ops: seq<Op>): Manager {
    if ops == [] then m else Do(DoAll(m, ops[..|ops| - 1]), ops[|ops| - 1])
  }

  /** Over every run of operations that the backend does not refuse, an entry is in the
      list as often as it was registered since it was last unregistered. */
  lemma {:induction false} ListFollowsOperations(ops: seq<Op>, x: Entry)
    requires forall op <- ops :: op.b.Ok()
    ensures multiset(DoAll(Manager([], false, false), ops).servers)[x] == Standing(ops, x)
  {
    if ops != [] {
      var before, last := ops[..|ops| - 1], ops[|ops| - 1];
      assert last in ops && forall op <- before :: op in ops;
      ListFollowsOperations(before, x);
      var m := DoAll(Manager([], false, false), before);
      RegistersExactly(m, last.e, last.b, x);
      UnregistersExactly(m, last.e, last.b, x);
    }
  }

  /** Registering and removing an entry nobody else has leaves the list as it was. */
  lemma RegisterThenUnregister(m: Manager, e: Entry, b: Backend, c: Backend)
    requires InStep(m) && e !in m.servers && b.Ok() && c.Ok()
    ensures Unregistered(Registered(m, e, b), e, c) == m
  {
    RetainOthers(m.servers, e);
  }

  lemma {:induction false} RetainOthers(servers: seq<Entry>, e: Entry)
    requires e !in servers
    ensures Retain(servers + [e], e) == servers
  {
    if servers == [] {
      assert [] + [e] == [e] && [e][1..] == [];
    } else {
      assert (servers + [e])[1..] == servers[1..] + [e];
      RetainOthers(servers[1..], e);
    }
  }

  // The positions of the entries registered for `changed`, counted from `from`.
  function Positions(servers: seq<Entry>, changed: DeviceType, from: nat): seq<nat> {
    if servers == [] then []
    else (if servers[0].devtype.Contains(changed) then [from] else []) + Positions(servers[1..], changed, from + 1)
  }

  lemma {:induction false} PositionsComplete(servers: seq<Entry>, changed: DeviceType, from: nat, n: nat)
    requires n < |servers| && servers[n].devtype.Contains(changed)
    ensures from + n in Positions(servers, changed, from)
    decreases |servers|
  {
    var at, rest := Positions(servers, changed, from), Positions(servers[1..], changed, from + 1);
    if n == 0 {
      assert at[0] == from;
    } else {
      PositionsComplete(servers[1..], changed, from + 1, n - 1);
      var i :| 0 <= i < |rest| && rest[i] == from + n;
      assert at[|at| - |rest| + i] == rest[i];
    }
  }

  lemma {:induction false} NotifiedAt(servers: seq<Entry>, changed: DeviceType, from: nat)
    ensures |Notified(servers, changed)| == |Positions(servers, changed, from)|
    ensures forall i :: 0 <= i < |Positions(servers, changed, from)| ==>
              var n := Positions(servers, changed, from)[i];
              && from <= n < from + |servers| && servers[n - from].devtype.Contains(changed)
              && Notified(servers, changed)[i] == servers[n - from].server
    ensures forall i, j :: 0 <= i < j < |Positions(servers, changed, from)| ==>
            Positions(servers, changed, from)[i] < Positions(servers, changed, from)[j]
    decreases |servers|
  {
    if servers != [] {
      NotifiedAt(servers[1..], changed, from + 1);
      var at, rest := Positions(servers, changed, from), Positions(servers[1..], changed, from + 1);
      var called, later := Notified(servers, changed), Notified(servers[1..], changed);
      var d := |at| - |rest|;
      assert forall i :: 0 <= i < |at| ==> at[i] == if i < d then from else rest[i - d];
      assert forall i :: 0 <= i < |called| ==> called[i] == if i < d then servers[0].server else later[i - d];
    }
  }

  /** The callback for one direction reaches those who registered for that direction, or
      for both. */
  lemma WhoIsNotified()
    ensures var both, input, output, none := DeviceType(true, true), DeviceType(true, false), DeviceType(false, true),
            DeviceType(false, false);
            && both.Contains(input) && both.Contains(output) && input.Contains(input) && output.Contains(output)
            && !input.Contains(output) && !output.Contains(input) && !none.Contains(input) && !none.Contains(output)
  {
  }

  /** A change notifies each entry registered for its type once, in the order of
      registration, and no other. */
  lemma NotifiesExactly(servers: seq<Entry>, changed: DeviceType)
    ensures var called, at := Notified(servers, changed), Positions(servers, changed, 0);
            && |called| == |at|
            && (forall i :: 0 <= i < |at| ==> at[i] < |servers| && called[i] == servers[at[i]].server)
            && (forall i, j :: 0 <= i < j < |at| ==> at[i] < at[j])
            && (forall n: nat :: n in at <==> n < |servers| && servers[n].devtype.Contains(changed))
  {
    NotifiedAt(servers, changed, 0);
    forall n: nat
      ensures n in Positions(servers, changed, 0) <==> n < |servers| && servers[n].devtype.Contains(changed)
    {
      if n < |servers| && servers[n].devtype.Contains(changed) {
        PositionsComplete(servers, changed, 0, n);
      }
    }
  }

  lemma {:induction false} NotifiedAppend(a: seq<Entry>, changed: DeviceType, x: Entry)
    ensures Notified(a + [x], changed) == Notified(a, changed) + if x.devtype.Contains(changed) then [x.server] else []
  {
    if a == [] {
      assert [] + [x] == [x] && [x][1..] == [];
    } else {
      assert (a + [x])[1..] == a[1..] + [x];
      NotifiedAppend(a[1..], changed, x);
    }
  }

  lemma {:induction false} RetainAppend(a: seq<Entry>, e: Entry, x: Entry)
    ensures Retain(a + [x], e) == Retain(a, e) + if x == e then [] else [x]
  {
    if a == [] {
      assert [] + [x] == [x] && [x][1..] == [];
    } else {
      assert (a + [x])[1..] == a[1..] + [x];
      RetainAppend(a[1..], e, x);
    }
  }

  class CubebDeviceCollectionManager {
    var servers: seq<Entry>
    var inputOn: bool
    var outputOn: bool

    function State(): Manager
      reads this
    {
      Manager(servers, inputOn, outputOn)
    }

    constructor ()
      ensures State() == Manager([], false, false) && InStep(State())
    {
      servers, inputOn, outputOn := [], false, false;
    }

    method InternalRegister(enable: bool, b: Backend) returns (ok: bool)
      modifies this
      ensures ok == b.Ok() && State() == Switched(old(State()), enable, b)
    {
      if !b.input {
        return false;
      }
      inputOn := enable;
      if !b.output {
        return false;
      }
      outputOn := enable;
      return true;
    }

    method Register(e: Entry, b: Backend) returns (ok: bool)
      modifies this
      ensures State() == Registered(old(State()), e, b)
      ensures ok == (old(servers) != [] || b.Ok())
    {
      if servers == [] {
        ok := InternalRegister(true, b);
        if !ok {
          return;
        }
      }
      servers := servers + [e];
      return true;
    }

    method Unregister(e: Entry, b: Backend) returns (ok: bool)
      modifies this
      ensures State() == Unregistered(old(State()), e, b)
      ensures ok == (servers != [] || b.Ok())
    {
      var kept: seq<Entry> := [];
      var i := 0;
      while i < |servers|
        invariant 0 <= i <= |servers|
        invariant State() == old(State())
        invariant kept == Retain(servers[..i], e)
      {
        assert servers[..i + 1] == servers[..i] + [servers[i]];
        RetainAppend(servers[..i], e, servers[i]);
        if servers[i] != e {
          kept := kept + [servers[i]];
        }
        i := i + 1;
      }
      assert servers[..i] == servers;
      servers := kept;
      if servers == [] {
        ok := InternalRegister(false, b);
        return;
      }
      return true;
    }

    // device_collection_changed_callback: the servers called, in order.
    method Changed(changed: DeviceType) returns (called: seq<nat>)
      ensures called == Notified(servers, changed)
    {
      called := [];
      var i := 0;
      while i < |servers|
        invariant 0 <= i <= |servers|
        invariant called == Notified(servers[..i], changed)
      {
        assert servers[..i + 1] == servers[..i] + [servers[i]];
        NotifiedAppend(servers[..i], changed, servers[i]);
        if servers[i].devtype.Contains(changed) {
          called := called + [servers[i].server];
        }
        i := i + 1;
      }
      assert servers[..i] == servers;
    }
  }
}
