/** What one object and the kernel keep between them, and what one step may do to everybody else. */
module Invariants {
  import opened Addresses
  import opened Kernel
  import opened SocketSpec
  import opened Monitor
  import opened History

  /** The kernel is the one the observer infers from the trace, and the trace is accepted. */
  ghost predicate Linked(k: State) {
    var m := Watch(k.trace);
    && m.ok && Consistent(m)
    && m.next == |k.gens|
    && m.table.Keys == k.open.Keys
    && (forall fd :: fd in k.open ==> k.open[fd] == m.table[fd].gen && k.gens[k.open[fd]].typ == m.table[fd].typ)
    && (forall g :: 0 <= g < |k.gens| ==> (k.gens[g].alive <==> g !in m.closed))
  }

  /** Object `id` owns exactly the descriptor in its field. */
  ghost predicate Owns(m: View, id: nat, fd: int) {
    && (fd == -1 || fd in m.table)
    && (forall f :: f in m.table ==> (m.table[f].holder == Owner(id) <==> f == fd))
  }

  /** No successful socket(2) of this object is in the trace. */
  ghost predicate NeverOpened(t: seq<Event>, id: nat) {
    forall e :: e in t && e.SocketCall? && e.id == id ==> e.fd == -1
  }

  /** The connected flag is backed by this very generation, or by the UDP factory's mark. */
  ghost predicate FlagOk(m: View, t: seq<Event>, id: nat, s: Sock) {
    && (s.connected ==> id in m.udp || (s.fd in m.table && m.table[s.fd].gen in m.est))
    && (id in m.udp ==> s.connected && s.typ == SOCK_DGRAM && (s.fd == -1 <==> NeverOpened(t, id)))
  }

  ghost predicate CacheOk(id: nat, s: Sock, k: State) {
    var c := CacheOf(k.trace, id, s.family);
    && s.local == c.local && s.remote == c.remote
    && (c.agrees ==> IsOpen(k, s.fd) && s.local == Some(Wrap(s.family, k.gens[k.open[s.fd]].name)))
    && (c.named ==> IsOpen(k, s.fd) && Named(k.gens[k.open[s.fd]]))
  }

  ghost predicate Good(id: nat, s: Sock, k: State) {
    && Linked(k)
    && Owns(Watch(k.trace), id, s.fd)
    && FlagOk(Watch(k.trace), k.trace, id, s)
    && CacheOk(id, s, k)
    && (s.fd != -1 ==> k.gens[k.open[s.fd]].family == s.family && k.gens[k.open[s.fd]].typ == s.typ)
  }

  /** From `k` to `k'` only the objects in `ids` acted: the new trace entries are theirs, and
      descriptors they do not own stay as they were. */
  ghost predicate Acts(ids: set<nat>, k: State, k': State) {
    var m, m' := Watch(k.trace), Watch(k'.trace);
    && |k.trace| <= |k'.trace| && k'.trace[..|k.trace|] == k.trace
    && (forall i :: |k.trace| <= i < |k'.trace| ==> k'.trace[i].id in ids)
    && (forall fd :: fd in m.table && Foreign(ids, m.table[fd].holder) ==>
          fd in m'.table && m'.table[fd] == m.table[fd])
    && (forall fd :: fd in m'.table && Foreign(ids, m'.table[fd].holder) ==>
          m'.table[fd].holder == Dropped || (fd in m.table && m'.table[fd] == m.table[fd]))
    && m.est <= m'.est && m.closed <= m'.closed
    && (forall id :: id in m'.udp && id !in ids ==> id in m.udp)
    && (forall id :: id in m.udp && id !in ids ==> id in m'.udp)
    && |k.gens| <= |k'.gens|
    && (forall fd :: fd in m.table && Foreign(ids, m.table[fd].holder) && m.table[fd].gen < |k.gens| ==>
          k'.gens[m.table[fd].gen] == k.gens[m.table[fd].gen])
  }

  predicate Pends(m: View, fd: int) {
    fd in m.table && m.table[fd].holder == Pending
  }

  /** ... and every descriptor accepted meanwhile got its verdict. */
  ghost predicate ActOnly(ids: set<nat>, k: State, k': State) {
    Acts(ids, k, k') && forall fd :: Pends(Watch(k'.trace), fd) ==> Pends(Watch(k.trace), fd)
  }

  predicate Foreign(ids: set<nat>, h: Holder) {
    h != Pending && (h.Owner? ==> h.id !in ids)
  }

  lemma ActsTransitive(ids: set<nat>, k0: State, k1: State, k2: State)
    requires Acts(ids, k0, k1) && Acts(ids, k1, k2)
    ensures Acts(ids, k0, k2)
  {
    hide Watch, CacheOf;
    assert k2.trace[..|k0.trace|] == k1.trace[..|k0.trace|];
    forall i | |k0.trace| <= i < |k2.trace| ensures k2.trace[i].id in ids {
      if i < |k1.trace| {
        assert k2.trace[i] == k2.trace[..|k1.trace|][i];
      }
    }
  }

  lemma ActOnlyTransitive(ids: set<nat>, k0: State, k1: State, k2: State)
    requires ActOnly(ids, k0, k1) && ActOnly(ids, k1, k2)
    ensures ActOnly(ids, k0, k2)
  {
    hide Watch, CacheOf;
    ActsTransitive(ids, k0, k1, k2);
  }

  lemma ActOnlyActs(ids: set<nat>, k: State, k': State)
    requires ActOnly(ids, k, k')
    ensures Acts(ids, k, k')
  {}

  lemma ActsWiden(ids: set<nat>, more: set<nat>, k: State, k': State)
    requires Acts(ids, k, k') && ids <= more
    ensures Acts(more, k, k')
  {}

  lemma ActOnlyWidens(ids: set<nat>, more: set<nat>, k: State, k': State)
    requires ActOnly(ids, k, k') && ids <= more
    ensures ActOnly(more, k, k')
  {
    hide Watch, CacheOf;
    ActsWiden(ids, more, k, k');
    hide Acts;
  }

  /** An object that did not act keeps its invariant. */
  lemma BystanderGood(id: nat, s: Sock, ids: set<nat>, k: State, k': State)
    requires Good(id, s, k) && Acts(ids, k, k') && Linked(k') && id !in ids
    ensures Good(id, s, k')
  {
    hide Watch, CacheOf;
    CacheSkips(k'.trace, |k.trace|, id, s.family);
    assert k'.trace[..|k.trace|] == k.trace;
    assert NeverOpened(k'.trace, id) == NeverOpened(k.trace, id) by {
      forall e | e in k'.trace && e.id == id ensures e in k.trace {
        var i :| 0 <= i < |k'.trace| && k'.trace[i] == e;
        assert k'.trace[i] == k.trace[i];
      }
      forall e | e in k.trace ensures e in k'.trace {
        var i :| 0 <= i < |k.trace| && k.trace[i] == e;
        assert k'.trace[i] == k.trace[i];
      }
    }
  }

  // ---------- one trace entry at a time ----------

  lemma RequestGood(id: nat, s: Sock, k: State, e: Event)
    requires Good(id, s, k) && e.id == id
    requires e.BindRequest? || e.ConnectRequest? || e.ReconnectRequest?
    ensures var s' := match e
              case BindRequest(_, addr) => s.(local := Some(addr))
              case ConnectRequest(_, addr) => s.(remote := Some(addr))
              case _ => if s.remote.Some? then s.(local := None) else s;
            Good(id, s', Emit(k, e)) && ActOnly({id}, k, Emit(k, e))
  {
    hide Watch, CacheOf;
    WatchOne(k.trace, e);
    CacheOne(k.trace, id, s.family, e);
  }

  lemma ObserveFrame(m: View, e: Event)
    requires Allowed(m, e)
    ensures var m' := Observe(m, e);
            && (forall fd :: fd in m.table && Foreign({e.id}, m.table[fd].holder) ==>
                  fd in m'.table && m'.table[fd] == m.table[fd])
            && (forall fd :: fd in m'.table && Foreign({e.id}, m'.table[fd].holder) ==>
                  m'.table[fd].holder == Dropped || (fd in m.table && m'.table[fd] == m.table[fd]))
            && m.est <= m'.est && m.closed <= m'.closed
            && (forall id :: id != e.id ==> (id in m'.udp <==> id in m.udp))
  {}

  /** Only an accept leaves a descriptor waiting for its verdict. */
  lemma ObservePending(m: View, e: Event)
    requires Allowed(m, e) && !e.AcceptCall?
    ensures forall fd :: Pends(Observe(m, e), fd) ==> Pends(m, fd)
  {}

  /** One allowed entry by `id` leaves everybody else alone, provided the kernel side does. */
  lemma OneActs(id: nat, k: State, k': State, e: Event)
    requires Linked(k) && k'.trace == k.trace + [e] && e.id == id && Allowed(Watch(k.trace), e)
    requires |k.gens| <= |k'.gens|
    requires forall g :: 0 <= g < |k.gens| && k'.gens[g] != k.gens[g] ==>
               exists fd :: Mine(Watch(k.trace), id, fd) && Watch(k.trace).table[fd].gen == g
    ensures Acts({id}, k, k')
  {
    hide Watch, CacheOf;
    WatchOne(k.trace, e);
    ObserveFrame(Watch(k.trace), e);
    hide Allowed, Observe, Update;
  }

  lemma OneActsOnly(id: nat, k: State, k': State, e: Event)
    requires Linked(k) && k'.trace == k.trace + [e] && e.id == id && Allowed(Watch(k.trace), e)
    requires |k.gens| <= |k'.gens| && !e.AcceptCall?
    requires forall g :: 0 <= g < |k.gens| && k'.gens[g] != k.gens[g] ==>
               exists fd :: Mine(Watch(k.trace), id, fd) && Watch(k.trace).table[fd].gen == g
    ensures ActOnly({id}, k, k')
  {
    hide Watch, CacheOf;
    OneActs(id, k, k', e);
    WatchOne(k.trace, e);
    ObservePending(Watch(k.trace), e);
    hide Acts, Linked, Allowed, Observe, Mine, Pends;
  }

  lemma NeverOpenedOne(t: seq<Event>, id: nat, e: Event)
    ensures NeverOpened(t + [e], id) == (NeverOpened(t, id) && (e.SocketCall? && e.id == id ==> e.fd == -1))
  {}

  /** A call that opens a descriptor, seen by kernel and observer alike. */
  lemma OpenLinked(k: State, e: Event, fd: int, gen: Gen, holder: Holder)
    requires Linked(k) && Allowed(Watch(k.trace), e) && Usable(k, fd) && gen.alive
    requires Update(Watch(k.trace), e) == Add(Watch(k.trace), fd, gen.typ, holder)
    ensures Linked(Emit(k.(open := k.open[fd := |k.gens|], gens := k.gens + [gen]), e))
  {
    hide Watch, CacheOf;
    WatchOne(k.trace, e);
    AddConsistent(Watch(k.trace), fd, gen.typ, holder);
    hide Update, Allowed;
  }

  lemma NewSockLinked(id: nat, s: Sock, k: State, newFd: int)
    requires Good(id, s, k) && s.fd == -1
    ensures var r := NewSock(id, s, k, newFd);
            Linked(r.1) && Allowed(Watch(k.trace), SocketCall(id, s.typ, r.0.fd))
  {
    hide Watch, CacheOf;
    var e := SocketCall(id, s.typ, NewSock(id, s, k, newFd).0.fd);
    assert HoldsNone(Watch(k.trace), id);
    hide FlagOk, CacheOk;
    if Usable(k, newFd) {
      OpenLinked(k, e, newFd, Gen(s.family, s.typ, true, false, "", false, None), Owner(id));
    } else {
      WatchOne(k.trace, e);
    }
  }

  lemma ObserveSocket(m: View, id: nat, typ: int, fd: int)
    requires HoldsNone(m, id) && fd !in m.table
    ensures var m' := Observe(m, SocketCall(id, typ, fd)); Owns(m', id, fd) && m'.udp == m.udp
  {}

  lemma NewSockGood(id: nat, s: Sock, k: State, newFd: int)
    requires Good(id, s, k) && s.fd == -1
    ensures var r := NewSock(id, s, k, newFd); Good(id, r.0, r.1) && ActOnly({id}, k, r.1)
  {
    hide Watch, CacheOf;
    var r := NewSock(id, s, k, newFd);
    var e := SocketCall(id, s.typ, r.0.fd);
    NewSockLinked(id, s, k, newFd);
    WatchOne(k.trace, e);
    assert HoldsNone(Watch(k.trace), id) && r.0.fd !in Watch(k.trace).table;
    ObserveSocket(Watch(k.trace), id, s.typ, r.0.fd);
    OneActsOnly(id, k, r.1, e);
    NeverOpenedOne(k.trace, id, e);
    CacheOne(k.trace, id, s.family, e);
    hide Linked, Owns, ActOnly, NeverOpened, Observe;
  }

  /** Entries that leave the observer's table alone. */
  predicate Plain(e: Event) {
    e.ConnectCall? || e.BindCall? || e.ListenCall? || e.NameCall? || e.PeerCall? || e.TransferCall? || e.UnlinkCall?
  }

  lemma ObservePlain(m: View, e: Event)
    requires Plain(e)
    ensures var m' := Observe(m, e);
            m'.table == m.table && m'.udp == m.udp && m'.closed == m.closed && m'.next == m.next && m.est <= m'.est
  {}

  /** A plain call keeps the descriptors and what they are, and touches only the object's own. */
  ghost predicate PlainEffect(s: Sock, k: State, k': State, e: Event) {
    && k'.trace == k.trace + [e] && k'.open == k.open && |k'.gens| == |k.gens|
    && (forall g :: 0 <= g < |k.gens| ==>
          k'.gens[g].alive == k.gens[g].alive && k'.gens[g].family == k.gens[g].family &&
          k'.gens[g].typ == k.gens[g].typ)
    && (forall g :: 0 <= g < |k.gens| && k'.gens[g] != k.gens[g] ==> s.fd in k.open && g == k.open[s.fd])
  }

  lemma PlainLinked(s: Sock, k: State, k': State, e: Event)
    requires Linked(k) && Plain(e) && Allowed(Watch(k.trace), e) && PlainEffect(s, k, k', e)
    ensures Linked(k')
  {
    hide Watch, CacheOf;
    WatchOne(k.trace, e);
  }

  lemma PlainGood(id: nat, s: Sock, k: State, k': State, e: Event)
    requires Good(id, s, k) && Plain(e) && e.id == id && Allowed(Watch(k.trace), e) && PlainEffect(s, k, k', e)
    ensures Linked(k') && Owns(Watch(k'.trace), id, s.fd) && FlagOk(Watch(k'.trace), k'.trace, id, s)
    ensures s.fd != -1 ==> k'.gens[k'.open[s.fd]].family == s.family && k'.gens[k'.open[s.fd]].typ == s.typ
    ensures ActOnly({id}, k, k')
  {
    hide Watch, CacheOf;
    PlainLinked(s, k, k', e);
    WatchOne(k.trace, e);
    ObservePlain(Watch(k.trace), e);
    NeverOpenedOne(k.trace, id, e);
    assert s.fd in k.open ==> Mine(Watch(k.trace), id, s.fd);
    OneActsOnly(id, k, k', e);
    assert s.fd != -1 ==> IsOpen(k, s.fd);
    hide Linked, Allowed, Observe, ActOnly, NeverOpened, CacheOk;
  }

  lemma QueryLocalGood(id: nat, s: Sock, k: State, ok: bool)
    requires Good(id, s, k)
    ensures var r := QueryLocal(id, s, k, ok); Good(id, r.0, r.1) && ActOnly({id}, k, r.1)
  {
    hide Watch, CacheOf;
    if s.local.None? {
      var r := SysName(k, id, s.fd, ok);
      PlainGood(id, s, k, r.0, NameCall(id, s.fd, r.1));
      CacheOne(k.trace, id, s.family, NameCall(id, s.fd, r.1));
    }
  }

  lemma QueryRemoteGood(id: nat, s: Sock, k: State, ok: bool)
    requires Good(id, s, k)
    ensures var r := QueryRemote(id, s, k, ok); Good(id, r.0, r.1) && ActOnly({id}, k, r.1)
  {
    hide Watch, CacheOf;
    if s.remote.None? {
      var r := SysPeer(k, id, s.fd, ok);
      PlainGood(id, s, k, r.0, PeerCall(id, s.fd, r.1));
      CacheOne(k.trace, id, s.family, PeerCall(id, s.fd, r.1));
    }
  }

  /** What the calls that may rename a descriptor do to the cache of its object. */
  lemma SysConnectCache(id: nat, s: Sock, k: State, addr: Address, ok: bool, name: string)
    requires CacheOk(id, s, k) && IsOpen(k, s.fd) && k.gens[k.open[s.fd]].family == s.family
    ensures CacheOk(id, s, SysConnect(k, id, s.fd, addr, ok, name).0)
  {
    hide Watch, CacheOf;
    CacheOne(k.trace, id, s.family, ConnectCall(id, s.fd, SysConnect(k, id, s.fd, addr, ok, name).1));
    hide CacheOf;
  }

  lemma SysListenCache(id: nat, s: Sock, k: State, ok: bool, name: string)
    requires CacheOk(id, s, k) && IsOpen(k, s.fd) && k.gens[k.open[s.fd]].family == s.family
    ensures CacheOk(id, s, SysListen(k, id, s.fd, ok, name).0)
  {
    hide Watch, CacheOf;
    CacheOne(k.trace, id, s.family, ListenCall(id, s.fd, SysListen(k, id, s.fd, ok, name).1));
    hide CacheOf;
  }

  lemma SysTransferCache(id: nat, s: Sock, k: State, name: string, count: int)
    requires CacheOk(id, s, k) && (IsOpen(k, s.fd) ==> k.gens[k.open[s.fd]].family == s.family)
    ensures CacheOk(id, s, SysTransfer(k, id, s.fd, name, count).0)
  {
    hide Watch, CacheOf;
    CacheOne(k.trace, id, s.family, TransferCall(id, s.fd));
    hide CacheOf;
  }

  lemma SysBindCache(id: nat, s: Sock, k: State, addr: Address, ok: bool, chosen: string)
    requires CacheOk(id, s, k) && IsOpen(k, s.fd) && k.gens[k.open[s.fd]].family == s.family
    requires s.local == Some(addr)
    ensures CacheOk(id, s, SysBind(k, id, s.fd, addr, ok, chosen).0)
  {
    hide Watch, CacheOf;
    CacheOne(k.trace, id, s.family, BindCall(id, s.fd, SysBind(k, id, s.fd, addr, ok, chosen).1));
    hide CacheOf;
  }

  lemma SysConnectGood(id: nat, s: Sock, k: State, addr: Address, ok: bool, name: string)
    requires Good(id, s, k) && s.fd != -1
    ensures var r := SysConnect(k, id, s.fd, addr, ok, name);
            Good(id, if r.1 then s.(connected := true) else s, r.0) && ActOnly({id}, k, r.0)
  {
    hide Watch, CacheOf;
    var r := SysConnect(k, id, s.fd, addr, ok, name);
    var e := ConnectCall(id, s.fd, r.1);
    PlainGood(id, s, k, r.0, e);
    WatchOne(k.trace, e);
    SysConnectCache(id, s, k, addr, ok, name);
    hide Linked, Owns, ActOnly, NeverOpened;
  }

  lemma SysBindGood(id: nat, s: Sock, k: State, addr: Address, ok: bool, chosen: string)
    requires Good(id, s, k) && s.fd != -1 && s.local == Some(addr)
    ensures var r := SysBind(k, id, s.fd, addr, ok, chosen); Good(id, s, r.0) && ActOnly({id}, k, r.0)
  {
    hide Watch, CacheOf;
    var r := SysBind(k, id, s.fd, addr, ok, chosen);
    PlainGood(id, s, k, r.0, BindCall(id, s.fd, r.1));
    SysBindCache(id, s, k, addr, ok, chosen);
    hide Linked, Owns, FlagOk, CacheOk, ActOnly, SysBind;
  }

  lemma ListenGood(id: nat, s: Sock, k: State, ok: bool, name: string)
    requires Good(id, s, k)
    ensures var o := Listen(id, s, k, ok, name); Good(id, o.s, o.k) && ActOnly({id}, k, o.k)
  {
    hide Watch, CacheOf;
    if s.fd != -1 {
      var r := SysListen(k, id, s.fd, ok, name);
      PlainGood(id, s, k, r.0, ListenCall(id, s.fd, r.1));
      SysListenCache(id, s, k, ok, name);
      hide Linked, Owns, FlagOk, CacheOk, ActOnly, SysListen;
    }
  }

  lemma TransferAllowed(id: nat, s: Sock, k: State)
    requires Good(id, s, k) && s.connected
    ensures Allowed(Watch(k.trace), TransferCall(id, s.fd)) && (s.fd == -1 || IsOpen(k, s.fd))
  {}

  lemma TransferGood(id: nat, s: Sock, k: State, name: string, count: int)
    requires Good(id, s, k)
    ensures var k' := Transfer(id, s, k, name, count).0; Good(id, s, k') && ActOnly({id}, k, k')
  {
    hide Watch, CacheOf;
    if s.connected {
      var e := TransferCall(id, s.fd);
      var k' := SysTransfer(k, id, s.fd, name, count).0;
      TransferAllowed(id, s, k);
      assert s.fd == -1 ==> !IsOpen(k, s.fd);
      hide Allowed;
      PlainGood(id, s, k, k', e);
      SysTransferCache(id, s, k, name, count);
      hide Linked, Owns, FlagOk, CacheOk, ActOnly, SysTransfer;
    }
  }

  lemma UnlinkGood(id: nat, s: Sock, k: State, path: string, ok: bool)
    requires Good(id, s, k)
    ensures var k' := SysUnlink(k, id, path, ok); Good(id, s, k') && ActOnly({id}, k, k')
  {
    hide Watch, CacheOf;
    var k' := SysUnlink(k, id, path, ok);
    var e := k'.trace[|k.trace|];
    PlainGood(id, s, k, k', e);
    CacheOne(k.trace, id, s.family, e);
  }

  lemma CloseRequestGood(id: nat, s: Sock, k: State)
    requires Good(id, s, k)
    ensures var k' := Emit(k, CloseRequest(id));
            Good(id, s.(connected := false), k') && ActOnly({id}, k, k')
  {
    hide Watch, CacheOf;
    var e := CloseRequest(id);
    WatchOne(k.trace, e);
    CacheOne(k.trace, id, s.family, e);
    NeverOpenedOne(k.trace, id, e);
    OneActsOnly(id, k, Emit(k, e), e);
  }

  lemma SysCloseLinked(id: nat, k: State, fd: int)
    requires Linked(k) && Mine(Watch(k.trace), id, fd)
    ensures Linked(SysClose(k, id, fd))
  {
    hide Watch, CacheOf;
    WatchOne(k.trace, CloseCall(id, fd));
    hide Watch;
  }

  lemma ObserveClose(m: View, id: nat, fd: int)
    requires Owns(m, id, fd) && fd in m.table && -1 !in m.table
    ensures var m' := Observe(m, CloseCall(id, fd));
            Owns(m', id, -1) && m'.udp == m.udp && m.table[fd].gen in m'.closed
  {}

  lemma SysCloseGood(id: nat, s: Sock, k: State)
    requires Good(id, s, k) && s.fd != -1 && !s.connected
    ensures var k' := SysClose(k, id, s.fd); Good(id, s.(fd := -1), k') && ActOnly({id}, k, k')
    ensures k.open[s.fd] in Watch(SysClose(k, id, s.fd).trace).closed
  {
    hide Watch, CacheOf;
    var e := CloseCall(id, s.fd);
    var k' := SysClose(k, id, s.fd);
    WatchOne(k.trace, e);
    assert Mine(Watch(k.trace), id, s.fd) && -1 !in Watch(k.trace).table;
    ObserveClose(Watch(k.trace), id, s.fd);
    SysCloseLinked(id, k, s.fd);
    CacheOne(k.trace, id, s.family, e);
    OneActsOnly(id, k, k', e);
    hide Linked, Owns, Observe, ActOnly, NeverOpened;
  }

  lemma UdpMarkGood(id: nat, s: Sock, k: State)
    requires Good(id, s, k) && s.typ == SOCK_DGRAM && (s.fd == -1 <==> NeverOpened(k.trace, id))
    ensures var k' := Emit(k, UdpMark(id));
            Good(id, s.(connected := true), k') && ActOnly({id}, k, k')
  {
    hide Watch, CacheOf;
    var e := UdpMark(id);
    WatchOne(k.trace, e);
    CacheOne(k.trace, id, s.family, e);
    NeverOpenedOne(k.trace, id, e);
    OneActsOnly(id, k, Emit(k, e), e);
  }
}
