/** How every method answers and what it leaves, from any reachable state, in terms of what was there before. */
module Outcomes {
  import opened Addresses
  import opened Kernel
  import opened SocketSpec
  import opened Invariants
  import opened World
  import opened Ownership
  import opened Names

  /** `n` further closes after a first one. */
  function CloseTimes(id: nat, o: Outcome, n: nat): Outcome {
    if n == 0 then o
    else
      var b := CloseTimes(id, o, n - 1);
      var c := Close(id, b.s, b.k);
      Outcome(c.s, c.k, b.ok && c.ok)
  }

  lemma {:induction false} FurtherCloses(id: nat, o: Outcome, n: nat)
    requires o.ok && o.s.fd == -1 && !o.s.connected
    ensures var d := CloseTimes(id, o, n);
            && d.ok && d.s == o.s && d.k.(trace := o.k.trace) == o.k
            && o.k.trace <= d.k.trace && forall i :: |o.k.trace| <= i < |d.k.trace| ==> d.k.trace[i] == CloseRequest(id)
  {
    if n == 0 {
    } else {
      FurtherCloses(id, o, n - 1);
    }
  }

  /** Close from any reachable state ends without descriptor and flag, keeps both addresses and every
      other object's descriptor; it fails only for a connected object without a descriptor. Further closes return
      true and ask the kernel nothing. */
  lemma CloseNormalForm(files: set<string>, ops: seq<Op>, id: nat, n: nat)
    requires id in Reached(files, ops).socks
    ensures var w := Reached(files, ops);
            var c := Close(id, w.socks[id], w.k);
            var d := CloseTimes(id, c.(ok := true), n);
            && c.s == w.socks[id].(fd := -1, connected := false)
            && (c.ok <==> !(w.socks[id].connected && w.socks[id].fd == -1))
            && w.socks[id].fd !in c.k.open
            && (forall fd :: IsOpen(w.k, fd) && fd != w.socks[id].fd ==>
                  IsOpen(c.k, fd) && c.k.open[fd] == w.k.open[fd] && c.k.gens[c.k.open[fd]] == w.k.gens[w.k.open[fd]])
            && d.ok && d.s == c.s && d.k.(trace := c.k.trace) == c.k
            && c.k.trace <= d.k.trace && forall i :: |c.k.trace| <= i < |d.k.trace| ==> d.k.trace[i] == CloseRequest(id)
  {
    var w := Reached(files, ops);
    ReachedInv(files, ops);
    assert Good(id, w.socks[id], w.k);
    FurtherCloses(id, Close(id, w.socks[id], w.k).(ok := true), n);
    hide CloseTimes, Reached;
  }

  // ---------- connect and reconnect ----------

  ghost predicate SoundField(s: Sock, k: State) {
    s.fd == -1 || (IsOpen(k, s.fd) && k.gens[k.open[s.fd]].family == s.family)
  }

  /** What every reachable state knows of an object. */
  ghost predicate Sound(s: Sock, k: State) {
    NamesOk(k) && -1 !in k.open &&
    (s.fd != -1 ==> IsOpen(k, s.fd) && var g := k.gens[k.open[s.fd]]; g.alive && g.family == s.family && g.typ == s.typ)
  }

  lemma ReachedSound(files: set<string>, ops: seq<Op>, id: nat)
    requires id in Reached(files, ops).socks
    ensures Sound(Reached(files, ops).socks[id], Reached(files, ops).k)
  {
    ReachedInv(files, ops);
    NamesAlwaysOk(files, ops);
    assert Good(id, Reached(files, ops).socks[id], Reached(files, ops).k);
    hide Reached, NamesOk;
  }

  /** The descriptor an object has, or gets from the kernel. */
  function FdOrNew(s: Sock, k: State, newFd: int): int {
    if s.fd != -1 then s.fd else if Usable(k, newFd) then newFd else -1
  }

  /** Whether a connect succeeds, told before it: a descriptor is there or to be had, the family matches, the kernel
      agrees and, for a Unix address, somebody of the object's type answers there. */
  predicate CanConnect(s: Sock, k: State, addr: Address, a: ConnectAnswer) {
    && FdOrNew(s, k, a.newFd) != -1 && Family(addr) == s.family && a.ok
    && (IsOpen(k, s.fd) ==> !k.gens[k.open[s.fd]].listening)
    && (s.family == AF_UNIX ==> Answers(k, NameOf(addr.data), s.typ))
  }

  /** The generation behind that descriptor. */
  function GenOrNew(s: Sock, k: State): nat {
    if s.fd in k.open then k.open[s.fd] else |k.gens|
  }

  /** A successful attempt of object `s` to connect to `addr`: connected, over a live descriptor with that peer, the
      local address looked up only if none was cached. */
  ghost predicate Connects(o: Outcome, s: Sock, k: State, addr: Address, a: ConnectAnswer) {
    var fd, g := FdOrNew(s, k, a.newFd), GenOrNew(s, k);
    && IsOpen(o.k, fd) && o.k.open[fd] == g
    && var gen := o.k.gens[g];
       && gen.alive && gen.peer == Some(addr.data) && gen.family == Family(addr) && gen.typ == s.typ
       && o.s == s.(fd := fd, remote := Some(addr), connected := true,
                    local := if s.local.Some? then s.local
                             else if a.nameOk then Some(Wrap(s.family, gen.name)) else None)
  }

  /** A failed one: closed, if the kernel call failed under a time limit; else with the flag as it was, and with the
      descriptor held before or made meanwhile. The target is recorded all the same. */
  ghost predicate FailsToConnect(o: Outcome, s: Sock, k: State, addr: Address, timeout: uint64, a: ConnectAnswer) {
    var fd, g := FdOrNew(s, k, a.newFd), GenOrNew(s, k);
    if fd != -1 && Family(addr) == s.family && timeout != NO_TIMEOUT then
      && o.s == s.(fd := -1, remote := Some(addr), connected := false)
      && fd !in o.k.open && g < |o.k.gens| && !o.k.gens[g].alive
    else
      && o.s == s.(fd := fd, remote := Some(addr))
      && (fd != -1 ==> IsOpen(o.k, fd) && o.k.open[fd] == g && o.k.gens[g].alive)
  }

  /** How an attempt to connect ends, every field of the object told. */
  ghost predicate AttemptEnds(o: Outcome, s: Sock, k: State, addr: Address, timeout: uint64, a: ConnectAnswer) {
    && (o.ok <==> CanConnect(s, k, addr, a))
    && if o.ok then Connects(o, s, k, addr, a) else FailsToConnect(o, s, k, addr, timeout, a)
  }

  lemma DialEnds(id: nat, s: Sock, k: State, addr: Address, timeout: uint64, a: ConnectAnswer)
    requires SoundField(s, k) && (s.fd != -1 ==> k.gens[k.open[s.fd]].alive) && -1 !in k.open
    ensures var o := Dial(id, s, k, addr, timeout, a);
            && (o.ok <==> s.fd != -1 && Family(addr) == s.family && ConnectSucceeds(k, s.fd, addr, a.ok))
            && (o.ok ==>
                  && o.k.open == k.open && IsOpen(o.k, s.fd)
                  && var gen := o.k.gens[k.open[s.fd]];
                     && gen.alive && gen.peer == Some(addr.data) && gen.family == s.family
                     && gen.typ == k.gens[k.open[s.fd]].typ
                     && o.s == s.(connected := true,
                                  local := if s.local.Some? then s.local
                                           else if a.nameOk then Some(Wrap(s.family, gen.name)) else None))
  {}

  lemma DialFails(id: nat, s: Sock, k: State, addr: Address, timeout: uint64, a: ConnectAnswer)
    requires SoundField(s, k) && (s.fd != -1 ==> k.gens[k.open[s.fd]].alive) && -1 !in k.open
    requires !Dial(id, s, k, addr, timeout, a).ok
    ensures var o := Dial(id, s, k, addr, timeout, a);
            if s.fd != -1 && Family(addr) == s.family && timeout != NO_TIMEOUT then
              && o.s == s.(fd := -1, connected := false) && s.fd !in o.k.open && |o.k.gens| == |k.gens|
              && !o.k.gens[k.open[s.fd]].alive
            else
              o.s == s && o.k.open == k.open && o.k.gens == k.gens
  {}

  /** The descriptor is made, if there is none, before anything else. */
  lemma ReadyEnds(id: nat, s: Sock, k: State, newFd: int)
    requires Sound(s, k)
    ensures var r := Ready(id, s, k, newFd);
            && r.0 == s.(fd := FdOrNew(s, k, newFd)) && SoundField(r.0, r.1) && -1 !in r.1.open
            && (r.0.fd != -1 ==>
                  && r.1.open[r.0.fd] == GenOrNew(s, k)
                  && var gen := r.1.gens[r.1.open[r.0.fd]];
                     && gen.alive && gen.typ == s.typ
                     && (gen.listening <==> IsOpen(k, s.fd) && k.gens[k.open[s.fd]].listening))
            && (forall n, typ :: Answers(r.1, n, typ) <==> Answers(k, n, typ))
  {
    var r := Ready(id, s, k, newFd);
    forall n, typ ensures Answers(r.1, n, typ) <==> Answers(k, n, typ) {
      if n in k.names && k.names[n].SocketNode? {
        assert LeadsTo(k, n, k.names[n].gen);
      }
    }
    hide NamesOk;
  }

  lemma ConnectEndsSo(id: nat, s: Sock, k: State, addr: Address, timeout: uint64, a: ConnectAnswer)
    requires Sound(s, k)
    ensures AttemptEnds(Connect(id, s, k, addr, timeout, a), s, k, addr, timeout, a)
  {
    var s0, k0 := s.(remote := Some(addr)), Emit(k, ConnectRequest(id, addr));
    SoundAfterRequest(s, s0, k, k0);
    ReadyEnds(id, s0, k0, a.newFd);
    var r := Ready(id, s0, k0, a.newFd);
    var o := Dial(id, r.0, r.1, addr, timeout, a);
    assert Answers(r.1, NameOf(addr.data), s.typ) <==> Answers(k, NameOf(addr.data), s.typ);
    DialEnds(id, r.0, r.1, addr, timeout, a);
    hide Dial, Ready, Sound, Answers;
    assert o.ok <==> CanConnect(s, k, addr, a);
    if o.ok {
      assert Connects(o, s, k, addr, a);
    } else {
      DialFails(id, r.0, r.1, addr, timeout, a);
      assert FailsToConnect(o, s, k, addr, timeout, a);
    }
    hide CanConnect, Connects, FailsToConnect, SoundField;
  }

  lemma SoundAfterRequest(s: Sock, s': Sock, k: State, k': State)
    requires Sound(s, k) && k'.open == k.open && k'.gens == k.gens && k'.names == k.names
    requires s'.fd == s.fd && s'.family == s.family && s'.typ == s.typ
    ensures Sound(s', k')
  {
    assert forall n, g: nat :: LeadsTo(k', n, g) == LeadsTo(k, n, g);
  }

  /** So every connect ends, from any reachable state. */
  lemma ConnectOutcomes(files: set<string>, ops: seq<Op>, id: nat, addr: Address, timeout: uint64, a: ConnectAnswer)
    requires id in Reached(files, ops).socks
    ensures var w := Reached(files, ops);
            AttemptEnds(Connect(id, w.socks[id], w.k, addr, timeout, a), w.socks[id], w.k, addr, timeout, a)
  {
    ReachedSound(files, ops, id);
    hide AttemptEnds, Reached, Sound, Connect;
    ConnectEndsSo(id, Reached(files, ops).socks[id], Reached(files, ops).k, addr, timeout, a);
  }

  /** Reconnect from any reachable state: without a remembered peer it fails and changes nothing; with one it ends as a
      connect to that peer does with the local address forgotten, making a descriptor if there is none. */
  lemma ReconnectOutcomes(files: set<string>, ops: seq<Op>, id: nat, timeout: uint64, a: ConnectAnswer)
    requires id in Reached(files, ops).socks
    ensures var w := Reached(files, ops);
            var s := w.socks[id];
            var o := Reconnect(id, s, w.k, timeout, a);
            if s.remote.None? then !o.ok && o.s == s && o.k == Emit(w.k, ReconnectRequest(id))
            else AttemptEnds(o, s.(local := None), w.k, s.remote.value, timeout, a)
  {
    var s, k := Reached(files, ops).socks[id], Reached(files, ops).k;
    ReachedSound(files, ops, id);
    hide AttemptEnds;
    if s.remote.Some? {
      var s0, k0 := s.(local := None), Emit(k, ReconnectRequest(id));
      SoundAfterRequest(s, s0, k, k0);
      hide Reached, Sound, Connect;
      ConnectEndsSo(id, s0, k0, s.remote.value, timeout, a);
      AttemptIgnoresTrace(Reconnect(id, s, k, timeout, a), s0, k, k0, s.remote.value, timeout, a);
    }
  }

  lemma AttemptIgnoresTrace(
    o: Outcome, s: Sock, k: State, k': State, addr: Address, timeout: uint64, a: ConnectAnswer)
    requires k'.open == k.open && k'.gens == k.gens && k'.names == k.names
    ensures AttemptEnds(o, s, k, addr, timeout, a) == AttemptEnds(o, s, k', addr, timeout, a)
  {}

  // ---------- listen, transfer and the getters ----------

  /** Listen from any reachable state answers what the kernel did, which is asked only with a descriptor. Success
      makes that descriptor listen, failure changes nothing but the trace, and nothing else ever changes. */
  lemma ListenOutcomes(files: set<string>, ops: seq<Op>, id: nat, ok: bool, name: string)
    requires id in Reached(files, ops).socks
    ensures var w := Reached(files, ops);
            var s, k := w.socks[id], w.k;
            var o := Listen(id, s, k, ok, name);
            && o.s == s && o.k.open == k.open && o.k.names == k.names && |o.k.gens| == |k.gens|
            && o.k.trace == (if s.fd == -1 then k.trace else k.trace + [ListenCall(id, s.fd, o.ok)])
            && (o.ok <==> s.fd != -1 && ListenSucceeds(k, s.fd, ok))
            && (!o.ok ==> o.k.gens == k.gens)
            && (o.ok ==>
                  var g := k.open[s.fd];
                  o.k.gens[g] == k.gens[g].(listening := true, name := o.k.gens[g].name) &&
                  forall h :: 0 <= h < |k.gens| && h != g ==> o.k.gens[h] == k.gens[h])
  {
    ReachedSound(files, ops, id);
    hide Reached, NamesOk;
  }

  /** Every send and receive from any reachable state returns the kernel's count if the object is connected and has a
      descriptor, and -1 otherwise; the kernel is asked exactly if the object is connected, and then once. */
  lemma TransferOutcomes(files: set<string>, ops: seq<Op>, id: nat, name: string, count: int)
    requires id in Reached(files, ops).socks
    ensures var w := Reached(files, ops);
            var s, k := w.socks[id], w.k;
            var r := Transfer(id, s, k, name, count);
            && r.1 == (if s.connected && s.fd != -1 then count else -1)
            && r.0.trace == (if s.connected then k.trace + [TransferCall(id, s.fd)] else k.trace)
            && r.0.open == k.open && r.0.names == k.names && |r.0.gens| == |k.gens|
            && (forall h :: 0 <= h < |k.gens| ==>
                  r.0.gens[h] == k.gens[h] ||
                  (IsOpen(k, s.fd) && h == k.open[s.fd] && r.0.gens[h] == k.gens[h].(name := name)))
  {
    ReachedSound(files, ops, id);
    hide Reached, NamesOk;
  }

  /** What the kernel says of a descriptor in a field: its name, ... */
  function NameOfField(s: Sock, k: State, ok: bool): Option<string> {
    if ok && IsOpen(k, s.fd) then Some(k.gens[k.open[s.fd]].name) else None
  }

  /** ... and its peer. */
  function PeerOfField(s: Sock, k: State, ok: bool): Option<string> {
    if ok && IsOpen(k, s.fd) then k.gens[k.open[s.fd]].peer else None
  }

  /** What a getter has to say: the address cached before, else what the kernel answers, as an address of the object's
      family; and if the kernel does not, an unknown address. */
  function GetterSays(cached: Option<Address>, answer: Option<string>, family: int): Address {
    if cached.Some? then cached.value
    else if answer.Some? then Wrap(family, answer.value)
    else UnknownAddress(family, "\0\0\0\0\0\0\0\0\0\0\0\0\0\0")
  }

  /** The two getters from any reachable state. The kernel is asked exactly if nothing is cached, whether the object is
      connected or not; its answer is cached and returned; without one the field stays empty and an unknown address
      of the family is returned. */
  lemma GetterOutcomes(files: set<string>, ops: seq<Op>, id: nat, ok: bool)
    requires id in Reached(files, ops).socks
    ensures var w := Reached(files, ops);
            var s, k := w.socks[id], w.k;
            var r, q := QueryLocal(id, s, k, ok), QueryRemote(id, s, k, ok);
            var name, peer := NameOfField(s, k, ok), PeerOfField(s, k, ok);
            && r.1 == (if s.local.Some? then k else Emit(k, NameCall(id, s.fd, name)))
            && q.1 == (if s.remote.Some? then k else Emit(k, PeerCall(id, s.fd, peer)))
            && (s.local.Some? || name.Some? ==> r.0 == s.(local := Some(GetterSays(s.local, name, s.family))))
            && (s.remote.Some? || peer.Some? ==> q.0 == s.(remote := Some(GetterSays(s.remote, peer, s.family))))
            && (s.local.None? && name.None? ==> r.0 == s) && (s.remote.None? && peer.None? ==> q.0 == s)
            && Shown(r.0.local, s.family) == GetterSays(s.local, name, s.family)
            && Shown(q.0.remote, s.family) == GetterSays(s.remote, peer, s.family)
  {
    NoAnswerBytes(Reached(files, ops).socks[id].family);
    hide Reached, NoAnswer;
  }

  lemma NoAnswerBytes(family: int)
    ensures NoAnswer(family) == UnknownAddress(family, "\0\0\0\0\0\0\0\0\0\0\0\0\0\0")
  {}

  /** No answer can be told from every answer, in the three families that the getters know. */
  lemma NoAnswerTells(family: int, data: string)
    requires family in {AF_UNIX, AF_INET, AF_INET6}
    ensures NoAnswer(family) != Wrap(family, data) && Family(NoAnswer(family)) == Family(Wrap(family, data)) == family
  {}

  // ---------- the factories ----------

  /** The plain UDP factories ask for one descriptor of their family, keep what they got, and raise the flag whether
      they got one or not. The others only construct. */
  lemma FactoryOutcomes(w: World, v6: bool, newFd: int, family: int, typ: int)
    ensures var w' := Step(w, DoCreateUdp(v6, newFd));
            var f := if v6 then AF_INET6 else AF_INET;
            && w'.socks == w.socks[w.nextId :=
                                     Sock(if Usable(w.k, newFd) then newFd else -1, f, SOCK_DGRAM, true, None, None)]
            && w'.k.open == (if Usable(w.k, newFd) then w.k.open[newFd := |w.k.gens|] else w.k.open)
            && w'.k.gens == (if Usable(w.k, newFd) then w.k.gens + [Gen(f, SOCK_DGRAM, true, false, "", false, None)]
                             else w.k.gens)
    ensures var w' := Step(w, DoCreate(family, typ));
            w'.socks == w.socks[w.nextId := Sock(-1, family, typ, false, None, None)] && w'.k == w.k
  {}

  // ---------- bind and accept ----------

  /** The bytes that a successful bind gives the descriptor. */
  function BindsTo(s: Sock, addr: Address, a: BindAnswer): string {
    if Fixes(s.family, addr.data) then addr.data else a.chosen
  }

  /** The trial connection succeeds, told before bind: it gets a number of its own, the kernel agrees and somebody
      listens there. */
  predicate TrialSucceeds(s: Sock, k: State, addr: Address, a: BindAnswer) {
    addr.UnixAddress? && Usable(k, a.probe.newFd) && a.probe.newFd != FdOrNew(s, k, a.newFd) && a.probe.ok &&
    Answers(k, NameOf(addr.data), SOCK_STREAM)
  }

  /** Whether a bind succeeds, told before it: a descriptor that is not bound yet is there or to be had, the family
      matches, the trial connection fails, the kernel agrees, and a Unix name is free or just about to be unlinked. */
  predicate CanBind(s: Sock, k: State, addr: Address, a: BindAnswer) {
    var data := BindsTo(s, addr, a);
    && FdOrNew(s, k, a.newFd) != -1 && Family(addr) == s.family && a.ok && Fixes(s.family, data)
    && (IsOpen(k, s.fd) ==> !k.gens[k.open[s.fd]].bound)
    && !TrialSucceeds(s, k, addr, a)
    && (s.family == AF_UNIX ==>
          && (NameOf(data) in k.names ==> addr.UnixAddress? && a.unlinkOk && NameOf(data) == UnlinkTarget(addr.data))
          && (addr.data == "" ==> NameOf(data).Abstract?))
  }

  /** How a bind ends: the address is recorded and nothing else of the object changes but a descriptor made on the way,
      which stays even on failure. */
  ghost predicate BindEnds(o: Outcome, s: Sock, k: State, addr: Address, a: BindAnswer) {
    && o.s == s.(fd := FdOrNew(s, k, a.newFd), local := Some(addr))
    && (o.ok <==> CanBind(s, k, addr, a))
  }

  /** After a success the descriptor is bound under the bytes that were asked for, or chosen where these fix none. */
  ghost predicate BindBinds(o: Outcome, s: Sock, addr: Address, a: BindAnswer) {
    IsOpen(o.k, o.s.fd) && o.k.gens[o.k.open[o.s.fd]].bound && o.k.gens[o.k.open[o.s.fd]].name == BindsTo(s, addr, a)
  }

  lemma BindOutcomes(files: set<string>, ops: seq<Op>, id: nat, addr: Address, a: BindAnswer)
    requires id in Reached(files, ops).socks
    ensures var w := Reached(files, ops);
            var o := Bind(id, w.nextId, w.socks[id], w.k, addr, a);
            BindEnds(o, w.socks[id], w.k, addr, a) && (o.ok ==> BindBinds(o, w.socks[id], addr, a))
  {
    var w := Reached(files, ops);
    ReachedSound(files, ops, id);
    hide Reached, Sound, Bind, BindEnds, BindBinds;
    BindEndsSo(id, w.nextId, w.socks[id], w.k, addr, a);
    BindBindsSo(id, w.nextId, w.socks[id], w.k, addr, a);
  }

  /** The object and the kernel when bind comes to the probe. */
  lemma BindStarts(id: nat, s: Sock, k: State, addr: Address, a: BindAnswer)
    requires Sound(s, k)
    ensures var r := BindStart(id, s, k, addr, a);
            && r.0 == s.(fd := FdOrNew(s, k, a.newFd), local := Some(addr))
            && NamesOk(r.1) && r.1.names == k.names
            && (r.0.fd != -1 ==>
                  IsOpen(r.1, r.0.fd) &&
                  var gen := r.1.gens[r.1.open[r.0.fd]];
                  gen.family == s.family && (gen.bound <==> IsOpen(k, s.fd) && k.gens[k.open[s.fd]].bound))
            && (addr.UnixAddress? && r.0.fd != -1 ==>
                  (ProbeConnects(r.1, addr, a) <==> TrialSucceeds(s, k, addr, a)))
  {
    var s0, k0 := s.(local := Some(addr)), Emit(k, BindRequest(id, addr));
    SoundAfterRequest(s, s0, k, k0);
    ReadyQuiet(id, s0, k0, a.newFd);
    BindStartAnswers(id, s, k, addr, a, NameOf(addr.data));
    hide Answers, NamesOk;
  }

  lemma BindEndsSo(id: nat, pid: nat, s: Sock, k: State, addr: Address, a: BindAnswer)
    requires Sound(s, k)
    ensures BindEnds(Bind(id, pid, s, k, addr, a), s, k, addr, a)
  {
    var r := BindStart(id, s, k, addr, a);
    BindStarts(id, s, k, addr, a);
    hide Sound, Ready, ProbeConnects, TrialSucceeds, NameOf, UnlinkTarget, Fixes;
    if addr.UnixAddress? {
      ProbeNames(id, pid, r.1, addr, a);
      ProbeFrees(id, pid, r.1, addr, a, NameOf(BindsTo(s, addr, a)));
    }
    hide Probe, NamesOk;
  }

  lemma BindBindsSo(id: nat, pid: nat, s: Sock, k: State, addr: Address, a: BindAnswer)
    requires Sound(s, k)
    ensures var o := Bind(id, pid, s, k, addr, a); o.ok ==> BindBinds(o, s, addr, a)
  {
    var r := BindStart(id, s, k, addr, a);
    BindStarts(id, s, k, addr, a);
    hide Sound, Ready, ProbeConnects, Fixes;
    if addr.UnixAddress? {
      ProbeNames(id, pid, r.1, addr, a);
    }
    hide Probe, SysBind, BindSucceeds, NamesOk;
    SysBindEffect(Probe(id, pid, r.1, addr, a).0, id, r.0.fd, addr, a.ok, a.chosen);
  }

  lemma SysBindEffect(k: State, id: nat, fd: int, addr: Address, ok: bool, chosen: string)
    ensures var r := SysBind(k, id, fd, addr, ok, chosen);
            && r.1 == BindSucceeds(k, fd, addr, ok, chosen) && r.0.open == k.open && |r.0.gens| == |k.gens|
            && (r.1 ==> IsOpen(k, fd) && r.0.gens[k.open[fd]].bound &&
                        r.0.gens[k.open[fd]].name == BoundName(k.gens[k.open[fd]], addr, chosen))
  {}

  /** How an accept can end. A new object has the listener's family and type, is connected over a new
      generation of that family and type, and caches what the kernel said of both ends. A refused descriptor
      stays open. All other descriptors and all names stay as they were. */
  ghost predicate AcceptEnds(id: nat, nid: nat, s: Sock, k: State, a: AcceptAnswer) {
    var o := Accept(id, nid, s, k, a);
    var g := |k.gens|;
    var got := Usable(k, a.newFd) && IsOpen(k, s.fd) && k.gens[k.open[s.fd]].listening;
    && (o.ok <==> got && a.registered)
    && (got ==>
          && o.k.open == k.open[a.newFd := g] && |o.k.gens| == g + 1 && o.k.gens[..g] == k.gens && o.k.names == k.names
          && o.k.gens[g] == Gen(s.family, s.typ, true, true, o.k.gens[g].name, false, Some(a.peer)))
    && (o.ok ==>
          o.s == Sock(a.newFd, s.family, s.typ, true,
                      if a.nameOk then Some(Wrap(s.family, o.k.gens[g].name)) else None,
                      if a.peerOk then Some(Wrap(s.family, a.peer)) else None))
    && (!got ==> o.k.(trace := k.trace) == k)
  }

  lemma AcceptEndsSo(id: nat, nid: nat, s: Sock, k: State, a: AcceptAnswer)
    requires IsOpen(k, s.fd) ==> k.gens[k.open[s.fd]].family == s.family && k.gens[k.open[s.fd]].typ == s.typ
    requires -1 !in k.open
    ensures AcceptEnds(id, nid, s, k, a)
  {}

  /** So it ends from every reachable state, and under a number that no live object holds. */
  lemma AcceptOutcomes(files: set<string>, ops: seq<Op>, id: nat, a: AcceptAnswer)
    requires id in Reached(files, ops).socks
    ensures var w := Reached(files, ops);
            && AcceptEnds(id, w.nextId, w.socks[id], w.k, a)
            && (Accept(id, w.nextId, w.socks[id], w.k, a).ok ==>
                  forall b :: b in w.socks ==> w.socks[b].fd != Accept(id, w.nextId, w.socks[id], w.k, a).s.fd)
  {
    var w := Reached(files, ops);
    ReachedInv(files, ops);
    assert Good(id, w.socks[id], w.k);
    assert -1 !in w.k.open;
    forall b | b in w.socks && Usable(w.k, a.newFd) ensures w.socks[b].fd != a.newFd {
      assert Good(b, w.socks[b], w.k);
    }
    hide Inv, Good, Reached, Accept;
    AcceptEndsSo(id, w.nextId, w.socks[id], w.k, a);
  }
}
