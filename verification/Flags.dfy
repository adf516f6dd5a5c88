/** What the connected flag means, over every run from the start. */
module Flags {
  import opened Addresses
  import opened Kernel
  import opened SocketSpec
  import opened Monitor
  import opened Invariants
  import opened Operations
  import opened World
  import opened Ownership

  /** A connected object either carries the mark of a UDP factory that no close has removed, or holds a
      descriptor that itself, at this generation, connected or came from an accept. */
  lemma ConnectedIsEarned(files: set<string>, ops: seq<Op>, id: nat)
    ensures var w := Reached(files, ops);
            id in w.socks && w.socks[id].connected &&
            (w.socks[id].typ == SOCK_STREAM || id !in Watch(w.k.trace).udp) ==>
              IsOpen(w.k, w.socks[id].fd) && exists i :: EstablishesAt(w.k.trace, i, w.k.open[w.socks[id].fd])
  {
    var w := Reached(files, ops);
    ReachedInv(files, ops);
    if id in w.socks && w.socks[id].connected && (w.socks[id].typ == SOCK_STREAM || id !in Watch(w.k.trace).udp) {
      assert Good(id, w.socks[id], w.k);
      EstablishedByCall(w.k.trace, w.k.open[w.socks[id].fd]);
    }
  }

  /** Every send or receive in the trace of a run goes to a descriptor its issuer owns at that moment; for
      a stream descriptor that generation had succeeded in connecting or been accepted before. Number -1
      is used only under a UDP factory's mark. */
  lemma TransfersAreGuarded(files: set<string>, ops: seq<Op>, i: nat)
    ensures var t := Reached(files, ops).k.trace;
            i < |t| && t[i].TransferCall? ==>
              var m := Watch(t[..i]);
              if t[i].fd == -1 then t[i].id in m.udp
              else
                Mine(m, t[i].id, t[i].fd) &&
                var entry := m.table[t[i].fd];
                (entry.typ == SOCK_STREAM || t[i].id !in m.udp ==>
                   exists j: nat :: j < i && EstablishesAt(t, j, entry.gen))
  {
    var t := Reached(files, ops).k.trace;
    ReachedInv(files, ops);
    if i < |t| && t[i].TransferCall? {
      AcceptedEntry(t, i);
      if t[i].fd != -1 && Watch(t[..i]).table[t[i].fd].gen in Watch(t[..i]).est {
        var gen := Watch(t[..i]).table[t[i].fd].gen;
        EstablishedByCall(t[..i], gen);
        var j: nat :| EstablishesAt(t[..i], j, gen);
        AtPrefix(t, i, j, gen);
        assert EstablishesAt(t, j, gen);
      }
    }
  }

  // ---------- the odd state ----------

  /** The run makes object `id` by one of the plain UDP factories. */
  ghost predicate MadeByUdp(files: set<string>, ops: seq<Op>, id: nat) {
    exists i :: 0 <= i < |ops| && ops[i].DoCreateUdp? && Reached(files, ops[..i]).nextId == id
  }

  /** From entry `n` on object `id` is not closed. */
  ghost predicate NotClosedFrom(t: seq<Event>, n: nat, id: nat) {
    forall i :: n <= i < |t| ==> t[i] != CloseRequest(id)
  }

  ghost predicate NeverClosed(t: seq<Event>, id: nat) {
    NotClosedFrom(t, 0, id)
  }

  /** `k'` has further entries, none of which is the mark of object `x`. */
  ghost predicate Unmarked(k: State, k': State, x: nat) {
    k.trace <= k'.trace && forall i :: |k.trace| <= i < |k'.trace| ==> k'.trace[i] != UdpMark(x)
  }

  lemma ObserveMark(m: View, e: Event, id: nat)
    requires e != UdpMark(id)
    ensures id in Observe(m, e).udp <==> id in m.udp && e != CloseRequest(id)
  {}

  lemma {:induction false} MarkLasts(t: seq<Event>, n: nat, id: nat)
    requires n <= |t| && forall i :: n <= i < |t| ==> t[i] != UdpMark(id)
    ensures id in Watch(t).udp <==> id in Watch(t[..n]).udp && NotClosedFrom(t, n, id)
  {
    if n == |t| {
      assert t[..n] == t;
    } else {
      var p, e := t[..|t| - 1], t[|t| - 1];
      MarkLasts(p, n, id);
      assert p[..n] == t[..n] && t == p + [e];
      WatchOne(p, e);
      ObserveMark(Watch(p), e, id);
      hide Watch, Observe;
    }
  }

  lemma UnmarkedTransitive(k0: State, k1: State, k2: State, x: nat)
    requires Unmarked(k0, k1, x) && Unmarked(k1, k2, x)
    ensures Unmarked(k0, k2, x)
  {
    forall i | |k0.trace| <= i < |k2.trace| ensures k2.trace[i] != UdpMark(x) {
      if i < |k1.trace| {
        assert k2.trace[i] == k1.trace[i];
      }
    }
  }

  lemma CloseUnmarked(id: nat, s: Sock, k: State, x: nat)
    ensures Unmarked(k, Close(id, s, k).k, x)
  {}

  lemma QueriesUnmarked(id: nat, s: Sock, k: State, ok: bool, x: nat)
    ensures Unmarked(k, QueryLocal(id, s, k, ok).1, x) && Unmarked(k, QueryRemote(id, s, k, ok).1, x)
  {}

  lemma ReadyUnmarked(id: nat, s: Sock, k: State, newFd: int, x: nat)
    ensures Unmarked(k, Ready(id, s, k, newFd).1, x)
  {}

  lemma DialUnmarked(id: nat, s: Sock, k: State, addr: Address, timeout: uint64, a: ConnectAnswer, x: nat)
    ensures Unmarked(k, Dial(id, s, k, addr, timeout, a).k, x)
  {
    var c := SysConnect(k, id, s.fd, addr, a.ok, a.name);
    var s1 := s.(connected := true);
    assert Unmarked(k, k, x) && Unmarked(k, c.0, x);
    QueriesUnmarked(id, s1, c.0, a.nameOk, x);
    CloseUnmarked(id, s, c.0, x);
    hide Unmarked, SysConnect, Close, QueryLocal;
    UnmarkedTransitive(k, c.0, QueryLocal(id, s1, c.0, a.nameOk).1, x);
    UnmarkedTransitive(k, c.0, Close(id, s, c.0).k, x);
  }

  lemma ConnectUnmarked(id: nat, s: Sock, k: State, addr: Address, timeout: uint64, a: ConnectAnswer, x: nat)
    ensures Unmarked(k, Connect(id, s, k, addr, timeout, a).k, x)
  {
    var k0 := Emit(k, ConnectRequest(id, addr));
    var s0 := s.(remote := Some(addr));
    assert Unmarked(k, k0, x);
    var r := Ready(id, s0, k0, a.newFd);
    ReadyUnmarked(id, s0, k0, a.newFd, x);
    DialUnmarked(id, r.0, r.1, addr, timeout, a, x);
    hide Unmarked, Dial, Ready;
    UnmarkedTransitive(k, k0, r.1, x);
    UnmarkedTransitive(k, r.1, Dial(id, r.0, r.1, addr, timeout, a).k, x);
  }

  lemma ReconnectUnmarked(id: nat, s: Sock, k: State, timeout: uint64, a: ConnectAnswer, x: nat)
    ensures Unmarked(k, Reconnect(id, s, k, timeout, a).k, x)
  {
    var k1 := Emit(k, ReconnectRequest(id));
    assert Unmarked(k, k1, x);
    hide Unmarked, Connect;
    if s.remote.Some? {
      ConnectUnmarked(id, s.(local := None), k1, s.remote.value, timeout, a, x);
      UnmarkedTransitive(k, k1, Connect(id, s.(local := None), k1, s.remote.value, timeout, a).k, x);
    }
  }

  lemma AcceptUnmarked(id: nat, nid: nat, s: Sock, k: State, a: AcceptAnswer, x: nat)
    ensures Unmarked(k, Accept(id, nid, s, k, a).k, x)
  {}

  lemma ProbeUnmarked(id: nat, pid: nat, k: State, addr: Address, a: BindAnswer, x: nat)
    ensures Unmarked(k, Probe(id, pid, k, addr, a).0, x)
  {
    var f := Fresh(AF_UNIX, SOCK_STREAM);
    var c := Connect(pid, f, k, addr, NO_TIMEOUT, a.probe);
    var u := SysUnlink(c.k, id, GetPath(addr.data), a.unlinkOk);
    assert Unmarked(k, k, x) && Unmarked(c.k, u, x);
    ConnectUnmarked(pid, f, k, addr, NO_TIMEOUT, a.probe, x);
    CloseUnmarked(pid, c.s, c.k, x);
    CloseUnmarked(pid, c.s, u, x);
    hide Unmarked, Connect, Close, SysUnlink;
    UnmarkedTransitive(k, c.k, Close(pid, c.s, c.k).k, x);
    UnmarkedTransitive(k, c.k, u, x);
    UnmarkedTransitive(k, u, Close(pid, c.s, u).k, x);
  }

  lemma SysBindUnmarked(k: State, id: nat, fd: int, addr: Address, ok: bool, chosen: string, x: nat)
    ensures Unmarked(k, SysBind(k, id, fd, addr, ok, chosen).0, x)
  {}

  lemma BindUnmarked(id: nat, pid: nat, s: Sock, k: State, addr: Address, a: BindAnswer, x: nat)
    ensures Unmarked(k, Bind(id, pid, s, k, addr, a).k, x)
  {
    var k0 := Emit(k, BindRequest(id, addr));
    var s0 := s.(local := Some(addr));
    assert Unmarked(k, k0, x);
    var r := Ready(id, s0, k0, a.newFd);
    ReadyUnmarked(id, s0, k0, a.newFd, x);
    var p := Probe(id, pid, r.1, addr, a);
    ProbeUnmarked(id, pid, r.1, addr, a, x);
    var b := SysBind(p.0, id, r.0.fd, addr, a.ok, a.chosen);
    SysBindUnmarked(p.0, id, r.0.fd, addr, a.ok, a.chosen, x);
    hide Unmarked, Ready, Probe, SysBind;
    UnmarkedTransitive(k, k0, r.1, x);
    UnmarkedTransitive(k, r.1, p.0, x);
    UnmarkedTransitive(k, p.0, b.0, x);
  }

  /** Only a plain UDP factory marks, and only the object it makes. */
  lemma StepUnmarked(w: World, op: Op, x: nat)
    requires !(op.DoCreateUdp? && w.nextId == x)
    ensures Unmarked(w.k, Step(w, op).k, x)
  {
    if !op.DoCreate? && !op.DoCreateUdp? && op.id in w.socks {
      var id, nid, s, k := op.id, w.nextId, w.socks[op.id], w.k;
      hide Bind, Connect, Reconnect, Accept, Close, QueryLocal, QueryRemote;
      match op {
        case DoBind(_, addr, a) => BindUnmarked(id, nid, s, k, addr, a, x);
        case DoConnect(_, addr, timeout, a) => ConnectUnmarked(id, s, k, addr, timeout, a, x);
        case DoReconnect(_, timeout, a) => ReconnectUnmarked(id, s, k, timeout, a, x);
        case DoAccept(_, a) => AcceptUnmarked(id, nid, s, k, a, x);
        case DoClose(_) => CloseUnmarked(id, s, k, x);
        case DoDestroy(_) => CloseUnmarked(id, s, k, x);
        case DoGetLocal(_, ok) => QueriesUnmarked(id, s, k, ok, x);
        case DoGetRemote(_, ok) => QueriesUnmarked(id, s, k, ok, x);
        case _ =>
      }
    }
  }

  lemma MadeOne(files: set<string>, before: seq<Op>, op: Op, id: nat)
    ensures MadeByUdp(files, before + [op], id) <==>
            MadeByUdp(files, before, id) || (op.DoCreateUdp? && Reached(files, before).nextId == id)
  {
    var ops := before + [op];
    assert ops[..|before|] == before && ops[|before|] == op;
    forall i | 0 <= i < |before| ensures ops[..i] == before[..i] && ops[i] == before[i] {}
    hide Reached;
    if MadeByUdp(files, before, id) {
      var i :| 0 <= i < |before| && before[i].DoCreateUdp? && Reached(files, before[..i]).nextId == id;
      assert ops[i].DoCreateUdp? && Reached(files, ops[..i]).nextId == id;
    }
    if MadeByUdp(files, ops, id) {
      var i :| 0 <= i < |ops| && ops[i].DoCreateUdp? && Reached(files, ops[..i]).nextId == id;
      if i < |before| {
        assert before[i].DoCreateUdp? && Reached(files, before[..i]).nextId == id;
      }
    }
  }

  lemma FactoryMarks(w: World, op: Op)
    requires op.DoCreateUdp? && Unseen(w.k.trace, w.nextId)
    ensures w.nextId in Watch(Step(w, op).k.trace).udp && NeverClosed(Step(w, op).k.trace, w.nextId)
  {
    hide Watch;
    var n := NewSock(w.nextId, Fresh(if op.v6 then AF_INET6 else AF_INET, SOCK_DGRAM), w.k, op.newFd);
    var t := n.1.trace + [UdpMark(w.nextId)];
    assert Step(w, op).k.trace == t;
    WatchOne(n.1.trace, UdpMark(w.nextId));
    forall i | 0 <= i < |t| ensures t[i] != CloseRequest(w.nextId) {
      if i < |w.k.trace| {
        assert w.k.trace[i] in w.k.trace;
      }
    }
  }

  /** What one step does to the mark: the factory sets it on its object, and else it lasts until a close. */
  lemma MarkStep(w: World, op: Op, id: nat)
    requires Inv(w)
    ensures var t, t' := w.k.trace, Step(w, op).k.trace;
            && t <= t'
            && (NeverClosed(t', id) <==> NeverClosed(t, id) && NotClosedFrom(t', |t|, id))
            && (if op.DoCreateUdp? && w.nextId == id then id in Watch(t').udp && NeverClosed(t', id)
                else id in Watch(t').udp <==> id in Watch(t).udp && NotClosedFrom(t', |t|, id))
  {
    hide Inv, Step, Watch, Unseen;
    StepInv(w, op);
    if op.DoCreateUdp? && w.nextId == id {
      NewestUnseen(w);
      FactoryMarks(w, op);
    } else {
      StepUnmarked(w, op, id);
      assert Step(w, op).k.trace[..|w.k.trace|] == w.k.trace;
      MarkLasts(Step(w, op).k.trace, |w.k.trace|, id);
    }
  }

  /** The observer's mark means: made by a plain UDP factory, and never closed. */
  lemma {:induction false} MarkedExactly(files: set<string>, ops: seq<Op>, id: nat)
    ensures id in Watch(Reached(files, ops).k.trace).udp <==>
            MadeByUdp(files, ops, id) && NeverClosed(Reached(files, ops).k.trace, id)
  {
    if ops == [] {
    } else {
      var before, op := ops[..|ops| - 1], ops[|ops| - 1];
      assert ops == before + [op] && Reached(files, ops) == Step(Reached(files, before), op);
      hide Inv, Reached, Step, Watch, MadeByUdp, NeverClosed, NotClosedFrom;
      MarkedExactly(files, before, id);
      MadeOne(files, before, op, id);
      ReachedInv(files, before);
      MarkStep(Reached(files, before), op, id);
    }
  }

  /** The odd state, connected without a descriptor, is exactly: made by a plain UDP factory, never closed, and no
      successful socket(2) ever. Close returns false in the odd state and only there. */
  lemma OddStateExactly(files: set<string>, ops: seq<Op>, id: nat)
    ensures var w := Reached(files, ops);
            id in w.socks ==>
              var s, t := w.socks[id], w.k.trace;
              && (s.connected && s.fd == -1 <==>
                  MadeByUdp(files, ops, id) && NeverClosed(t, id) && NeverOpened(t, id))
              && (!Close(id, s, w.k).ok <==>
                  MadeByUdp(files, ops, id) && NeverClosed(t, id) && NeverOpened(t, id))
  {
    var w := Reached(files, ops);
    ReachedInv(files, ops);
    MarkedExactly(files, ops, id);
    if id in w.socks {
      assert Good(id, w.socks[id], w.k);
      CloseEmpties(id, w.socks[id], w.k);
    }
    hide Reached, MadeByUdp, NeverClosed;
  }
}
