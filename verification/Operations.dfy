/** Every whole operation of a Socket keeps the invariant of its object and leaves others alone. */
module Operations {
  import opened Addresses
  import opened Kernel
  import opened SocketSpec
  import opened Monitor
  import opened History
  import opened Invariants

  /** An object id that has not acted yet. */
  ghost predicate Unseen(t: seq<Event>, id: nat) {
    forall e :: e in t ==> e.id != id
  }

  lemma {:induction false} UnseenHoldsNothing(t: seq<Event>, id: nat)
    requires Unseen(t, id)
    ensures HoldsNone(Watch(t), id) && id !in Watch(t).udp
  {
    if t == [] {
    } else {
      var p := t[..|t| - 1];
      assert forall e :: e in p ==> e in t;
      UnseenHoldsNothing(p, id);
      assert t[|t| - 1] in t;
    }
  }

  lemma FreshGood(id: nat, family: int, typ: int, k: State)
    requires Linked(k) && Unseen(k.trace, id)
    ensures Good(id, Fresh(family, typ), k)
  {
    UnseenHoldsNothing(k.trace, id);
    CacheSkips(k.trace, 0, id, family);
    assert -1 !in Watch(k.trace).table;
  }

  lemma UnseenElsewhere(id: nat, ids: set<nat>, k: State, k': State)
    requires Unseen(k.trace, id) && Acts(ids, k, k') && id !in ids
    ensures Unseen(k'.trace, id)
  {
    hide Watch, CacheOf;
    forall e | e in k'.trace ensures e.id != id {
      var i :| 0 <= i < |k'.trace| && k'.trace[i] == e;
      if i < |k.trace| {
        assert k'.trace[i] == k'.trace[..|k.trace|][i];
      }
    }
  }

  lemma ActOnlyReflexive(ids: set<nat>, k: State)
    requires Linked(k)
    ensures ActOnly(ids, k, k)
  {}

  lemma ReadyGood(id: nat, s: Sock, k: State, newFd: int)
    requires Good(id, s, k)
    ensures var r := Ready(id, s, k, newFd);
            Good(id, r.0, r.1) && ActOnly({id}, k, r.1) && r.0 == s.(fd := r.0.fd)
  {
    hide Watch, CacheOf;
    if s.fd == -1 {
      NewSockGood(id, s, k, newFd);
    }
  }

  lemma CloseGood(id: nat, s: Sock, k: State)
    requires Good(id, s, k)
    ensures var o := Close(id, s, k); Good(id, o.s, o.k) && ActOnly({id}, k, o.k)
    ensures s.fd != -1 ==> k.open[s.fd] in Watch(Close(id, s, k).k.trace).closed
  {
    hide Watch, CacheOf;
    var k1 := Emit(k, CloseRequest(id));
    CloseRequestGood(id, s, k);
    if s.fd != -1 {
      SysCloseGood(id, s.(connected := false), k1);
      ActOnlyTransitive({id}, k, k1, SysClose(k1, id, s.fd));
    }
  }

  lemma CloseEmpties(id: nat, s: Sock, k: State)
    ensures var o := Close(id, s, k);
            o.s == s.(fd := -1, connected := false) && (o.ok <==> !s.connected || s.fd != -1)
  {}

  lemma DialGood(id: nat, s: Sock, k: State, addr: Address, timeout: uint64, a: ConnectAnswer)
    requires Good(id, s, k)
    ensures var o := Dial(id, s, k, addr, timeout, a); Good(id, o.s, o.k) && ActOnly({id}, k, o.k)
  {
    hide Watch, CacheOf;
    ActOnlyReflexive({id}, k);
    hide Good, ActOnly;
    if s.fd != -1 && Family(addr) == s.family {
      var c := SysConnect(k, id, s.fd, addr, a.ok, a.name);
      SysConnectGood(id, s, k, addr, a.ok, a.name);
      if c.1 {
        var s1 := s.(connected := true);
        QueryLocalGood(id, s1, c.0, a.nameOk);
        ActOnlyTransitive({id}, k, c.0, QueryLocal(id, s1, c.0, a.nameOk).1);
      } else if timeout != NO_TIMEOUT {
        CloseGood(id, s, c.0);
        ActOnlyTransitive({id}, k, c.0, Close(id, s, c.0).k);
      }
    }
  }

  lemma ConnectGood(id: nat, s: Sock, k: State, addr: Address, timeout: uint64, a: ConnectAnswer)
    requires Good(id, s, k)
    ensures var o := Connect(id, s, k, addr, timeout, a); Good(id, o.s, o.k) && ActOnly({id}, k, o.k)
  {
    hide Watch, CacheOf;
    hide Good, ActOnly, Dial;
    var k0 := Emit(k, ConnectRequest(id, addr));
    var s0 := s.(remote := Some(addr));
    RequestGood(id, s, k, ConnectRequest(id, addr));
    var r := Ready(id, s0, k0, a.newFd);
    ReadyGood(id, s0, k0, a.newFd);
    ActOnlyTransitive({id}, k, k0, r.1);
    DialGood(id, r.0, r.1, addr, timeout, a);
    ActOnlyTransitive({id}, k, r.1, Dial(id, r.0, r.1, addr, timeout, a).k);
  }

  lemma ReconnectGood(id: nat, s: Sock, k: State, timeout: uint64, a: ConnectAnswer)
    requires Good(id, s, k)
    ensures var o := Reconnect(id, s, k, timeout, a); Good(id, o.s, o.k) && ActOnly({id}, k, o.k)
  {
    hide Watch, CacheOf;
    RequestGood(id, s, k, ReconnectRequest(id));
    if s.remote.Some? {
      var k1 := Emit(k, ReconnectRequest(id));
      ConnectGood(id, s.(local := None), k1, s.remote.value, timeout, a);
      ActOnlyTransitive({id}, k, k1, Reconnect(id, s, k, timeout, a).k);
    }
  }

  lemma GoodMeans(id: nat, s: Sock, k: State)
    requires Good(id, s, k)
    ensures Linked(k) && (s.fd == -1 ==> HoldsNone(Watch(k.trace), id))
  {}

  /** A step of `id` keeps another object good, and counts as a step of both. */
  lemma BesideGood(id: nat, pid: nat, s: Sock, t: Sock, k: State, k': State)
    requires id != pid && Good(pid, t, k) && Good(id, s, k') && ActOnly({id}, k, k')
    ensures Good(pid, t, k') && ActOnly({id, pid}, k, k') && ActOnly({pid, id}, k, k')
  {
    hide Watch, CacheOf;
    GoodMeans(id, s, k');
    BystanderGood(pid, t, {id}, k, k');
    assert {id, pid} == {pid, id};
    ActOnlyWidens({id}, {id, pid}, k, k');
  }

  /** The probe acts on the kernel only through its own object, which ends without a descriptor. */
  lemma ProbeGood(id: nat, pid: nat, s: Sock, k: State, addr: Address, a: BindAnswer)
    requires Good(id, s, k) && Unseen(k.trace, pid) && pid != id
    ensures var k' := Probe(id, pid, k, addr, a).0;
            Good(id, s, k') && ActOnly({id, pid}, k, k') && HoldsNone(Watch(k'.trace), pid)
  {
    hide Watch, CacheOf;
    var ids := {id, pid};
    var f := Fresh(AF_UNIX, SOCK_STREAM);
    GoodMeans(id, s, k);
    FreshGood(pid, AF_UNIX, SOCK_STREAM, k);
    UnseenHoldsNothing(k.trace, pid);
    ActOnlyReflexive(ids, k);
    hide Good, ActOnly, Linked, HoldsNone, Unseen, Connect, Close, SysUnlink;
    if addr.UnixAddress? {
      var c := Connect(pid, f, k, addr, NO_TIMEOUT, a.probe);
      ConnectGood(pid, f, k, addr, NO_TIMEOUT, a.probe);
      BesideGood(pid, id, c.s, s, k, c.k);
      var k1 := if c.ok then c.k else SysUnlink(c.k, id, GetPath(addr.data), a.unlinkOk);
      if !c.ok {
        UnlinkGood(id, s, c.k, GetPath(addr.data), a.unlinkOk);
        BesideGood(id, pid, s, c.s, c.k, k1);
        ActOnlyTransitive(ids, k, c.k, k1);
      }
      var d := Close(pid, c.s, k1);
      CloseEmpties(pid, c.s, k1);
      CloseGood(pid, c.s, k1);
      GoodMeans(pid, d.s, d.k);
      BesideGood(pid, id, d.s, s, k1, d.k);
      ActOnlyTransitive(ids, k, k1, d.k);
    }
  }

  lemma SysBindKeepsOthersEmpty(id: nat, pid: nat, k: State, fd: int, addr: Address, ok: bool, chosen: string)
    requires HoldsNone(Watch(k.trace), pid)
    ensures HoldsNone(Watch(SysBind(k, id, fd, addr, ok, chosen).0.trace), pid)
  {
    hide Watch, CacheOf;
    WatchOne(k.trace, BindCall(id, fd, SysBind(k, id, fd, addr, ok, chosen).1));
  }

  lemma BindGood(id: nat, pid: nat, s: Sock, k: State, addr: Address, a: BindAnswer)
    requires Good(id, s, k) && Unseen(k.trace, pid) && pid != id
    ensures var o := Bind(id, pid, s, k, addr, a);
            Good(id, o.s, o.k) && ActOnly({id, pid}, k, o.k) && HoldsNone(Watch(o.k.trace), pid)
  {
    hide Watch, CacheOf;
    hide Good, ActOnly, Acts, Linked, HoldsNone, Unseen, Watch, Probe, SysBind, Ready;
    var ids := {id, pid};
    var k0 := Emit(k, BindRequest(id, addr));
    RequestGood(id, s, k, BindRequest(id, addr));
    var r := Ready(id, s.(local := Some(addr)), k0, a.newFd);
    ReadyGood(id, s.(local := Some(addr)), k0, a.newFd);
    ActOnlyTransitive({id}, k, k0, r.1);
    ActOnlyActs({id}, k, r.1);
    UnseenElsewhere(pid, {id}, k, r.1);
    UnseenHoldsNothing(r.1.trace, pid);
    ActOnlyWidens({id}, ids, k, r.1);
    if r.0.fd != -1 && Family(addr) == s.family {
      var p := Probe(id, pid, r.1, addr, a);
      ProbeGood(id, pid, r.0, r.1, addr, a);
      ActOnlyTransitive(ids, k, r.1, p.0);
      if p.1 {
        var b := SysBind(p.0, id, r.0.fd, addr, a.ok, a.chosen);
        SysBindGood(id, r.0, p.0, addr, a.ok, a.chosen);
        ActOnlyWidens({id}, ids, p.0, b.0);
        ActOnlyTransitive(ids, k, p.0, b.0);
        SysBindKeepsOthersEmpty(id, pid, p.0, r.0.fd, addr, a.ok, a.chosen);
      }
    }
  }

  lemma CreateUdpGood(id: nat, family: int, k: State, newFd: int)
    requires Linked(k) && Unseen(k.trace, id)
    ensures var r := CreateUdp(id, family, k, newFd); Good(id, r.0, r.1) && ActOnly({id}, k, r.1)
  {
    hide Watch, CacheOf;
    FreshGood(id, family, SOCK_DGRAM, k);
    var n := NewSock(id, Fresh(family, SOCK_DGRAM), k, newFd);
    NewSockGood(id, Fresh(family, SOCK_DGRAM), k, newFd);
    NeverOpenedOne(k.trace, id, SocketCall(id, SOCK_DGRAM, n.0.fd));
    UdpMarkGood(id, n.0, n.1);
    ActOnlyTransitive({id}, k, n.1, Emit(n.1, UdpMark(id)));
  }

  // ---------- accept ----------

  lemma SysAcceptLinked(id: nat, s: Sock, k: State, a: AcceptAnswer)
    requires Good(id, s, k)
    ensures var r := SysAccept(k, id, s.fd, a.newFd, a.name, a.peer);
            Linked(r.0) && Allowed(Watch(k.trace), AcceptCall(id, s.fd, r.1))
  {
    hide Watch, CacheOf;
    var r := SysAccept(k, id, s.fd, a.newFd, a.name, a.peer);
    var e := AcceptCall(id, s.fd, r.1);
    if r.1 == -1 {
      WatchOne(k.trace, e);
    } else {
      OpenLinked(k, e, r.1, r.0.gens[|k.gens|], Pending);
    }
  }

  /** A descriptor of this family and type that came from an accept. */
  predicate MadeFor(g: Gen, family: int, typ: int) {
    g.family == family && g.typ == typ && g.peer.Some?
  }

  lemma ObserveAccept(m: View, id: nat, on: int, fd: int)
    requires Owns(m, id, on) && (fd != -1 ==> on in m.table && fd !in m.table)
    ensures var m' := Observe(m, AcceptCall(id, on, fd));
            && Owns(m', id, on) && m'.udp == m.udp && m'.est == m.est
            && (on in m.table ==> m'.table[on] == m.table[on])
            && (fd != -1 ==> fd in m'.table && m'.table[fd].holder == Pending)
            && (forall f :: f in m'.table && f != fd ==> f in m.table && m'.table[f] == m.table[f])
  {}

  /** A listener's accept call adds at most a descriptor that nobody owns yet, ... */
  lemma SysAcceptGood(id: nat, s: Sock, k: State, a: AcceptAnswer)
    requires Good(id, s, k)
    ensures var r := SysAccept(k, id, s.fd, a.newFd, a.name, a.peer); Good(id, s, r.0) && Acts({id}, k, r.0)
  {
    hide Watch, CacheOf;
    var r := SysAccept(k, id, s.fd, a.newFd, a.name, a.peer);
    var e := AcceptCall(id, s.fd, r.1);
    SysAcceptLinked(id, s, k, a);
    OneActs(id, k, r.0, e);
    WatchOne(k.trace, e);
    ObserveAccept(Watch(k.trace), id, s.fd, r.1);
    NeverOpenedOne(k.trace, id, e);
    CacheOne(k.trace, id, s.family, e);
    hide Linked, Owns, Acts, Observe, NeverOpened;
  }

  /** ... which then is the only one that waits for a verdict. */
  lemma SysAcceptPends(id: nat, s: Sock, k: State, a: AcceptAnswer)
    requires Good(id, s, k)
    ensures var r := SysAccept(k, id, s.fd, a.newFd, a.name, a.peer);
            && (r.1 != -1 ==> Pends(Watch(r.0.trace), r.1) && MadeFor(r.0.gens[r.0.open[r.1]], s.family, s.typ))
            && (forall f :: Pends(Watch(r.0.trace), f) ==> Pends(Watch(k.trace), f) || f == r.1 != -1)
  {
    hide Watch, CacheOf;
    var r := SysAccept(k, id, s.fd, a.newFd, a.name, a.peer);
    var e := AcceptCall(id, s.fd, r.1);
    SysAcceptLinked(id, s, k, a);
    WatchOne(k.trace, e);
    ObserveAccept(Watch(k.trace), id, s.fd, r.1);
    assert -1 !in Watch(r.0.trace).table;
    hide Linked, Owns, Observe;
  }

  lemma InitVerdictLinked(id: nat, k: State, fd: int, taken: bool)
    requires Linked(k) && Allowed(Watch(k.trace), InitCall(id, fd, taken))
    ensures Linked(Emit(k, InitCall(id, fd, taken)))
  {
    hide Watch, CacheOf;
    WatchOne(k.trace, InitCall(id, fd, taken));
  }

  lemma InitVerdictSeen(m: View, id: nat, fd: int, taken: bool)
    requires HoldsNone(m, id) && fd in m.table && m.table[fd].holder == Pending && -1 !in m.table
    ensures var m' := Observe(m, InitCall(id, fd, taken));
            && Owns(m', id, if taken then fd else -1) && m'.udp == m.udp && fd in m'.table
            && m'.table[fd] == m.table[fd].(holder := if taken then Owner(id) else Dropped)
            && (taken ==> m'.table[fd].gen in m'.est)
  {}

  /** The verdict of `init`, seen from the new object and from everybody else. */
  lemma InitVerdictGood(id: nat, family: int, typ: int, k: State, fd: int, taken: bool)
    requires Linked(k) && Unseen(k.trace, id)
    requires Pends(Watch(k.trace), fd) && MadeFor(k.gens[k.open[fd]], family, typ)
    ensures var k' := Emit(k, InitCall(id, fd, taken));
            var n := Fresh(family, typ);
            Good(id, if taken then n.(fd := fd, connected := true) else n, k') && ActOnly({id}, k, k') &&
            !Pends(Watch(k'.trace), fd)
  {
    var e := InitCall(id, fd, taken);
    UnseenHoldsNothing(k.trace, id);
    CacheSkips(k.trace, 0, id, family);
    CacheOne(k.trace, id, family, e);
    InitVerdictLinked(id, k, fd, taken);
    WatchOne(k.trace, e);
    assert IsOpen(k, fd) && -1 !in Watch(k.trace).table;
    InitVerdictSeen(Watch(k.trace), id, fd, taken);
    OneActsOnly(id, k, Emit(k, e), e);
    hide Linked, ActOnly, Observe, Owns, HoldsNone, Unseen;
  }

  /** accept(2) and the verdict of `init` together. */
  lemma AcceptVerdictGood(id: nat, nid: nat, s: Sock, k: State, a: AcceptAnswer)
    requires Good(id, s, k) && Unseen(k.trace, nid) && nid != id
    ensures var r := SysAccept(k, id, s.fd, a.newFd, a.name, a.peer);
            var taken := r.1 != -1 && a.registered;
            var n := Fresh(s.family, s.typ);
            var k' := if r.1 == -1 then r.0 else Emit(r.0, InitCall(nid, r.1, a.registered));
            Good(id, s, k') && Good(nid, if taken then n.(fd := r.1, connected := true) else n, k') &&
            ActOnly({id, nid}, k, k')
  {
    hide Good, Acts, Linked, Unseen, Watch, Pends, MadeFor, SysAccept;
    var ids := {id, nid};
    var r := SysAccept(k, id, s.fd, a.newFd, a.name, a.peer);
    SysAcceptGood(id, s, k, a);
    SysAcceptPends(id, s, k, a);
    GoodMeans(id, s, r.0);
    UnseenElsewhere(nid, {id}, k, r.0);
    ActsWiden({id}, ids, k, r.0);
    if r.1 == -1 {
      FreshGood(nid, s.family, s.typ, r.0);
    } else {
      var k' := Emit(r.0, InitCall(nid, r.1, a.registered));
      InitVerdictGood(nid, s.family, s.typ, r.0, r.1, a.registered);
      var n := Fresh(s.family, s.typ);
      GoodMeans(nid, if a.registered then n.(fd := r.1, connected := true) else n, k');
      BystanderGood(id, s, {nid}, r.0, k');
      ActsWiden({nid}, ids, r.0, k');
      ActsTransitive(ids, k, r.0, k');
    }
  }

  /** The two getter calls at the end of `init`. */
  lemma QueriesGood(id: nat, s: Sock, k: State, a: AcceptAnswer)
    requires Good(id, s, k)
    ensures var q := QueryLocal(id, s, k, a.nameOk);
            var r := QueryRemote(id, q.0, q.1, a.peerOk);
            Good(id, r.0, r.1) && ActOnly({id}, k, r.1)
  {
    hide Watch, CacheOf;
    hide Good, ActOnly;
    var q := QueryLocal(id, s, k, a.nameOk);
    QueryLocalGood(id, s, k, a.nameOk);
    QueryRemoteGood(id, q.0, q.1, a.peerOk);
    ActOnlyTransitive({id}, k, q.1, QueryRemote(id, q.0, q.1, a.peerOk).1);
  }

  lemma AcceptGood(id: nat, nid: nat, s: Sock, k: State, a: AcceptAnswer)
    requires Good(id, s, k) && Unseen(k.trace, nid) && nid != id
    ensures var o := Accept(id, nid, s, k, a);
            Good(id, s, o.k) && Good(nid, o.s, o.k) && ActOnly({id, nid}, k, o.k) && (!o.ok ==> o.s.fd == -1)
  {
    hide Watch, CacheOf;
    hide Good, Acts, Linked, SysAccept;
    var ids := {id, nid};
    var n := Fresh(s.family, s.typ);
    var r := SysAccept(k, id, s.fd, a.newFd, a.name, a.peer);
    var k1 := if r.1 == -1 then r.0 else Emit(r.0, InitCall(nid, r.1, a.registered));
    AcceptVerdictGood(id, nid, s, k, a);
    var o := Accept(id, nid, s, k, a);
    if r.1 != -1 && a.registered {
      QueriesGood(nid, n.(fd := r.1, connected := true), k1, a);
    } else {
      CloseGood(nid, n, k1);
      assert Close(nid, n, k1).s == n;
    }
    GoodMeans(nid, o.s, o.k);
    ActOnlyWidens({nid}, ids, k1, o.k);
    BystanderGood(id, s, {nid}, k1, o.k);
    ActOnlyTransitive(ids, k, k1, o.k);
  }
}
