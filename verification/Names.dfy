/** What the calls of Socket do to the names of Unix sockets: one statement for every step and every run. */
module Names {
  import opened Addresses
  import opened Kernel
  import opened SocketSpec
  import opened World
  import opened Ownership

  /** The name leads to this generation. */
  predicate LeadsTo(k: State, n: UnixName, g: nat) {
    n in k.names && k.names[n] == SocketNode(g)
  }

  predicate Live(k: State, g: nat) {
    g < |k.gens| && k.gens[g].alive
  }

  /** Every socket in the name table is bound to the name it is found under, and every Unix listener is a
      bound stream socket. */
  ghost predicate NamesOk(k: State) {
    && (forall n, g: nat :: LeadsTo(k, n, g) ==>
          g < |k.gens| && k.gens[g].family == AF_UNIX && k.gens[g].bound && NameOf(k.gens[g].name) == n)
    && (forall g :: 0 <= g < |k.gens| && k.gens[g].listening && k.gens[g].family == AF_UNIX ==>
          k.gens[g].bound && k.gens[g].typ == SOCK_STREAM)
  }

  /** Generation `g` is a live stream listener that can be reached under the name `n`. */
  predicate Listener(k: State, n: UnixName, g: nat) {
    Answers(k, n, SOCK_STREAM) && k.names[n].gen == g
  }

  // ---------- what every step does to names ----------

  /** What one generation may become: it dies, listens, gets bound or connected, but is never revived,
      silenced or bound anew. */
  predicate Grows(a: Gen, b: Gen) {
    && b.family == a.family && b.typ == a.typ
    && (b.alive ==> a.alive) && (a.listening ==> b.listening)
    && (a.bound ==> b.bound && (a.family == AF_UNIX ==> b.name == a.name))
  }

  /** From `k` to `k'` the names in `gone` were unlinked and nothing but the generations in `heard` began to
      listen. A name keeps leading to where it led unless it is gone or (if abstract) its socket died, and
      a bound socket gains no name. */
  ghost predicate Moves(k: State, k': State, gone: set<UnixName>, heard: set<nat>) {
    && |k.gens| <= |k'.gens|
    && (forall g :: 0 <= g < |k.gens| ==> Grows(k.gens[g], k'.gens[g]))
    && (forall g :: 0 <= g < |k'.gens| && k'.gens[g].listening && g !in heard ==> g < |k.gens| && k.gens[g].listening)
    && (forall n, g: nat :: LeadsTo(k, n, g) && g < |k.gens| && n !in gone && (n.Pathname? || Live(k', g)) ==>
          LeadsTo(k', n, g))
    && (forall n, g: nat :: LeadsTo(k', n, g) && g < |k.gens| && k.gens[g].bound ==> LeadsTo(k, n, g) && n !in gone)
    && (NamesOk(k) ==> NamesOk(k'))
  }

  ghost predicate Quiet(k: State, k': State) {
    Moves(k, k', {}, {})
  }

  lemma MovesTransitive(
    k0: State, k1: State, k2: State, gone: set<UnixName>, gone': set<UnixName>, heard: set<nat>, heard': set<nat>)
    requires Moves(k0, k1, gone, heard) && Moves(k1, k2, gone', heard')
    ensures Moves(k0, k2, gone + gone', heard + heard')
  {
    hide NamesOk, LeadsTo;
    forall g | 0 <= g < |k0.gens| ensures Grows(k0.gens[g], k2.gens[g]) {
      assert Grows(k0.gens[g], k1.gens[g]) && Grows(k1.gens[g], k2.gens[g]);
    }
    forall n, g: nat | LeadsTo(k0, n, g) && g < |k0.gens| && n !in gone + gone' && (n.Pathname? || Live(k2, g))
      ensures LeadsTo(k2, n, g)
    {
      assert Grows(k1.gens[g], k2.gens[g]);
      assert LeadsTo(k1, n, g);
    }
    forall n, g: nat | LeadsTo(k2, n, g) && g < |k0.gens| && k0.gens[g].bound
      ensures LeadsTo(k0, n, g) && n !in gone + gone'
    {
      assert Grows(k0.gens[g], k1.gens[g]);
      assert LeadsTo(k1, n, g);
    }
  }

  lemma QuietThen(k0: State, k1: State, k2: State, gone: set<UnixName>, heard: set<nat>)
    requires Quiet(k0, k1) && Moves(k1, k2, gone, heard)
    ensures Moves(k0, k2, gone, heard)
  {
    MovesTransitive(k0, k1, k2, {}, gone, {}, heard);
    assert {} + gone == gone && {} + heard == heard;
    hide Moves;
  }

  lemma ThenQuiet(k0: State, k1: State, k2: State, gone: set<UnixName>, heard: set<nat>)
    requires Moves(k0, k1, gone, heard) && Quiet(k1, k2)
    ensures Moves(k0, k2, gone, heard)
  {
    MovesTransitive(k0, k1, k2, gone, {}, heard, {});
    assert gone + {} == gone && heard + {} == heard;
    hide Moves;
  }

  lemma SilentQuiet(k: State, k': State)
    requires k'.gens == k.gens && k'.names == k.names
    ensures Quiet(k, k')
  {
    assert forall n, g: nat :: LeadsTo(k', n, g) == LeadsTo(k, n, g);
  }

  /** A new generation that neither listens nor is found under any name. */
  lemma NewbornQuiet(k: State, k': State, gen: Gen)
    requires k'.gens == k.gens + [gen] && k'.names == k.names && !gen.listening
    ensures Quiet(k, k')
  {
    assert forall n, g: nat :: LeadsTo(k', n, g) == LeadsTo(k, n, g);
  }

  lemma SysConnectQuiet(k: State, id: nat, fd: int, addr: Address, ok: bool, name: string)
    ensures Quiet(k, SysConnect(k, id, fd, addr, ok, name).0)
  {
    var k' := SysConnect(k, id, fd, addr, ok, name).0;
    assert forall n, g: nat :: LeadsTo(k', n, g) == LeadsTo(k, n, g);
  }

  lemma SysTransferQuiet(k: State, id: nat, fd: int, name: string, count: int)
    ensures Quiet(k, SysTransfer(k, id, fd, name, count).0)
  {
    var k' := SysTransfer(k, id, fd, name, count).0;
    assert forall n, g: nat :: LeadsTo(k', n, g) == LeadsTo(k, n, g);
  }

  lemma SysListenMoves(k: State, id: nat, fd: int, ok: bool, name: string)
    ensures Moves(k, SysListen(k, id, fd, ok, name).0, {}, if ListenSucceeds(k, fd, ok) then {k.open[fd]} else {})
  {
    var k' := SysListen(k, id, fd, ok, name).0;
    assert forall n, g: nat :: LeadsTo(k', n, g) == LeadsTo(k, n, g);
  }

  lemma SysBindQuiet(k: State, id: nat, fd: int, addr: Address, ok: bool, chosen: string)
    ensures Quiet(k, SysBind(k, id, fd, addr, ok, chosen).0)
  {
    var k' := SysBind(k, id, fd, addr, ok, chosen).0;
    if BindSucceeds(k, fd, addr, ok, chosen) {
      var b := k.open[fd];
      assert !k.gens[b].bound && k'.gens[b].bound && k'.gens[b].family == k.gens[b].family;
      assert forall n, g: nat :: LeadsTo(k', n, g) ==>
               LeadsTo(k, n, g) || (g == b && NameOf(k'.gens[b].name) == n && k'.gens[b].family == AF_UNIX);
      assert forall n, g: nat :: LeadsTo(k, n, g) ==> LeadsTo(k', n, g);
      assert forall g :: 0 <= g < |k.gens| && g != b ==> k'.gens[g] == k.gens[g];
    } else {
      SilentQuiet(k, k');
    }
  }

  lemma SysUnlinkMoves(k: State, id: nat, path: string, ok: bool)
    ensures Moves(k, SysUnlink(k, id, path, ok), if ok then {Pathname(CString(path))} else {}, {})
  {
    var k' := SysUnlink(k, id, path, ok);
    assert forall n, g: nat :: LeadsTo(k', n, g) == (LeadsTo(k, n, g) && !(ok && n == Pathname(CString(path))));
  }

  lemma SysCloseQuiet(k: State, id: nat, fd: int)
    ensures Quiet(k, SysClose(k, id, fd))
  {
    var k' := SysClose(k, id, fd);
    if IsOpen(k, fd) {
      assert forall n, g: nat :: LeadsTo(k', n, g) == (LeadsTo(k, n, g) && !(n.Abstract? && g == k.open[fd]));
    } else {
      SilentQuiet(k, k');
    }
  }

  lemma CloseQuiet(id: nat, s: Sock, k: State)
    ensures Quiet(k, Close(id, s, k).k)
  {
    var k1 := Emit(k, CloseRequest(id));
    SilentQuiet(k, k1);
    SysCloseQuiet(k1, id, s.fd);
    hide Moves;
    QuietThen(k, k1, SysClose(k1, id, s.fd), {}, {});
  }

  lemma QueriesQuiet(id: nat, s: Sock, k: State, ok: bool)
    ensures Quiet(k, QueryLocal(id, s, k, ok).1) && Quiet(k, QueryRemote(id, s, k, ok).1)
  {
    SilentQuiet(k, QueryLocal(id, s, k, ok).1);
    SilentQuiet(k, QueryRemote(id, s, k, ok).1);
  }

  lemma DialQuiet(id: nat, s: Sock, k: State, addr: Address, timeout: uint64, a: ConnectAnswer)
    ensures Quiet(k, Dial(id, s, k, addr, timeout, a).k)
  {
    SilentQuiet(k, k);
    var c := SysConnect(k, id, s.fd, addr, a.ok, a.name);
    SysConnectQuiet(k, id, s.fd, addr, a.ok, a.name);
    var s1 := s.(connected := true);
    QueriesQuiet(id, s1, c.0, a.nameOk);
    CloseQuiet(id, s, c.0);
    hide Quiet, Moves;
    QuietTransitive(k, c.0, QueryLocal(id, s1, c.0, a.nameOk).1);
    QuietTransitive(k, c.0, Close(id, s, c.0).k);
    hide SysConnect, Close, QueryLocal;
  }

  lemma QuietTransitive(k0: State, k1: State, k2: State)
    requires Quiet(k0, k1) && Quiet(k1, k2)
    ensures Quiet(k0, k2)
  {
    ThenQuiet(k0, k1, k2, {}, {});
  }

  lemma ReadyQuiet(id: nat, s: Sock, k: State, newFd: int)
    ensures Quiet(k, Ready(id, s, k, newFd).1)
  {
    var k' := Ready(id, s, k, newFd).1;
    if k'.gens == k.gens {
      SilentQuiet(k, k');
    } else {
      NewbornQuiet(k, k', k'.gens[|k.gens|]);
    }
  }

  lemma ConnectQuiet(id: nat, s: Sock, k: State, addr: Address, timeout: uint64, a: ConnectAnswer)
    ensures Quiet(k, Connect(id, s, k, addr, timeout, a).k)
  {
    var k0 := Emit(k, ConnectRequest(id, addr));
    var s0 := s.(remote := Some(addr));
    SilentQuiet(k, k0);
    ReadyQuiet(id, s0, k0, a.newFd);
    var r := Ready(id, s0, k0, a.newFd);
    DialQuiet(id, r.0, r.1, addr, timeout, a);
    hide Quiet, Dial, Ready;
    QuietTransitive(k, k0, r.1);
    QuietTransitive(k, r.1, Dial(id, r.0, r.1, addr, timeout, a).k);
  }

  lemma SysAcceptQuiet(k: State, id: nat, on: int, offer: int, name: string, peer: string)
    ensures Quiet(k, SysAccept(k, id, on, offer, name, peer).0)
  {
    var k' := SysAccept(k, id, on, offer, name, peer).0;
    if k'.gens == k.gens {
      SilentQuiet(k, k');
    } else {
      NewbornQuiet(k, k', k'.gens[|k.gens|]);
    }
  }

  lemma InitQuiet(id: nat, s: Sock, k: State, fd: int, a: AcceptAnswer)
    ensures Quiet(k, Init(id, s, k, fd, a).k)
  {
    SilentQuiet(k, Init(id, s, k, fd, a).k);
  }

  lemma AcceptQuiet(id: nat, nid: nat, s: Sock, k: State, a: AcceptAnswer)
    ensures Quiet(k, Accept(id, nid, s, k, a).k)
  {
    var f := Fresh(s.family, s.typ);
    var r := SysAccept(k, id, s.fd, a.newFd, a.name, a.peer);
    SysAcceptQuiet(k, id, s.fd, a.newFd, a.name, a.peer);
    CloseQuiet(nid, f, r.0);
    var i := Init(nid, f, r.0, r.1, a);
    InitQuiet(nid, f, r.0, r.1, a);
    CloseQuiet(nid, f, i.k);
    hide Quiet, SysAccept, Close, Init;
    QuietTransitive(k, r.0, Close(nid, f, r.0).k);
    QuietTransitive(k, r.0, i.k);
    QuietTransitive(k, i.k, Close(nid, f, i.k).k);
  }

  // ---------- bind ----------

  /** The object and the kernel when bind comes to the probe, and whether it does. */
  function BindStart(id: nat, s: Sock, k: State, addr: Address, a: BindAnswer): (Sock, State) {
    Ready(id, s.(local := Some(addr)), Emit(k, BindRequest(id, addr)), a.newFd)
  }

  predicate ReachesProbe(id: nat, s: Sock, k: State, addr: Address, a: BindAnswer) {
    addr.UnixAddress? && s.family == AF_UNIX && BindStart(id, s, k, addr, a).0.fd != -1
  }

  /** The trial connection succeeds: it gets a descriptor and a live listener takes it. */
  predicate ProbeConnects(k: State, addr: Address, a: BindAnswer) {
    Usable(k, a.probe.newFd) && a.probe.ok && Answers(k, NameOf(addr.data), SOCK_STREAM)
  }

  /** Making a descriptor first does not turn a dead path into a live one. */
  lemma BindStartAnswers(id: nat, s: Sock, k: State, addr: Address, a: BindAnswer, n: UnixName)
    ensures Answers(BindStart(id, s, k, addr, a).1, n, SOCK_STREAM) == Answers(k, n, SOCK_STREAM)
  {}

  /** The trial connection: it changes no name, and leaves what was open before alone. */
  lemma ProbeConnectState(pid: nat, k: State, addr: Address, a: ConnectAnswer)
    requires addr.UnixAddress?
    ensures var c := Connect(pid, Fresh(AF_UNIX, SOCK_STREAM), k, addr, NO_TIMEOUT, a);
            && c.ok == (Usable(k, a.newFd) && a.ok && Answers(k, NameOf(addr.data), SOCK_STREAM))
            && c.k.names == k.names && |k.gens| <= |c.k.gens| && c.k.gens[..|k.gens|] == k.gens
            && (if Usable(k, a.newFd) then c.s.fd == a.newFd && c.k.open == k.open[a.newFd := |k.gens|]
                else c.s.fd == -1 && c.k.open == k.open)
  {
    var k0 := Emit(k, ConnectRequest(pid, addr));
    var r := Ready(pid, Fresh(AF_UNIX, SOCK_STREAM).(remote := Some(addr)), k0, a.newFd);
    hide Close;
    assert Answers(r.1, NameOf(addr.data), SOCK_STREAM) == Answers(k, NameOf(addr.data), SOCK_STREAM);
  }

  /** What the probe does to the name table. */
  lemma ProbeNames(id: nat, pid: nat, k: State, addr: Address, a: BindAnswer)
    requires addr.UnixAddress?
    ensures var p := Probe(id, pid, k, addr, a);
            && p.1 == !ProbeConnects(k, addr, a)
            && |k.gens| <= |p.0.gens|
            && (forall g :: 0 <= g < |k.gens| ==> p.0.gens[g] == k.gens[g])
            && (forall fd :: fd in k.open ==> fd in p.0.open && p.0.open[fd] == k.open[fd])
            && (forall n: UnixName :: n.Pathname? ==>
                  (n in p.0.names <==> n in k.names && !(p.1 && a.unlinkOk && n == UnlinkTarget(addr.data))) &&
                  (n in p.0.names ==> p.0.names[n] == k.names[n]))
  {
    ProbeConnectState(pid, k, addr, a.probe);
    hide Connect, Answers;
    var c := Connect(pid, Fresh(AF_UNIX, SOCK_STREAM), k, addr, NO_TIMEOUT, a.probe);
    assert forall g :: 0 <= g < |k.gens| ==> c.k.gens[g] == c.k.gens[..|k.gens|][g];
  }

  /** The same for every name, where the name table is in order: the temporary object had none. */
  lemma ProbeFrees(id: nat, pid: nat, k: State, addr: Address, a: BindAnswer, n: UnixName)
    requires addr.UnixAddress? && NamesOk(k)
    ensures var p := Probe(id, pid, k, addr, a);
            n in p.0.names <==> n in k.names && !(p.1 && a.unlinkOk && n == UnlinkTarget(addr.data))
  {
    ProbeConnectState(pid, k, addr, a.probe);
    hide Connect, Answers;
    assert n in k.names && k.names[n].SocketNode? ==> LeadsTo(k, n, k.names[n].gen);
  }

  /** Nothing that was open is closed, and of the sockets there were at most the binding changes. */
  ghost predicate Harmless(k: State, k': State) {
    && (forall fd :: fd in k.open ==> fd in k'.open && k'.open[fd] == k.open[fd])
    && |k.gens| <= |k'.gens|
    && (forall g :: 0 <= g < |k.gens| ==>
          k'.gens[g] == k.gens[g].(bound := k'.gens[g].bound, name := k'.gens[g].name))
  }

  lemma HarmlessTransitive(k0: State, k1: State, k2: State)
    requires Harmless(k0, k1) && Harmless(k1, k2)
    ensures Harmless(k0, k2)
  {
    forall g | 0 <= g < |k0.gens|
      ensures k2.gens[g] == k0.gens[g].(bound := k2.gens[g].bound, name := k2.gens[g].name)
    {
      assert k1.gens[g] == k0.gens[g].(bound := k1.gens[g].bound, name := k1.gens[g].name);
    }
  }

  lemma StartHarmless(id: nat, s: Sock, k: State, addr: Address, a: BindAnswer)
    ensures Harmless(k, BindStart(id, s, k, addr, a).1)
  {}

  lemma SysBindHarmless(k: State, id: nat, fd: int, addr: Address, ok: bool, chosen: string)
    ensures Harmless(k, SysBind(k, id, fd, addr, ok, chosen).0)
  {}

  lemma BindHarmless(id: nat, pid: nat, s: Sock, k: State, addr: Address, a: BindAnswer)
    ensures Harmless(k, Bind(id, pid, s, k, addr, a).k)
  {
    var r := BindStart(id, s, k, addr, a);
    var p := Probe(id, pid, r.1, addr, a);
    StartHarmless(id, s, k, addr, a);
    if addr.UnixAddress? {
      ProbeNames(id, pid, r.1, addr, a);
    }
    assert Harmless(r.1, p.0);
    SysBindHarmless(p.0, id, r.0.fd, addr, a.ok, a.chosen);
    hide Harmless, Probe, SysBind, Ready;
    HarmlessTransitive(k, r.1, p.0);
    HarmlessTransitive(k, p.0, SysBind(p.0, id, r.0.fd, addr, a.ok, a.chosen).0);
  }

  /** The name that this bind unlinks, if it does: it comes to the probe, the trial connection fails, and
      the kernel carries the unlink out. */
  function Unlinked(id: nat, s: Sock, k: State, addr: Address, a: BindAnswer): set<UnixName> {
    if ReachesProbe(id, s, k, addr, a) && a.unlinkOk && !ProbeConnects(BindStart(id, s, k, addr, a).1, addr, a) then
      {UnlinkTarget(addr.data)}
    else {}
  }

  lemma ProbeMoves(id: nat, pid: nat, k: State, addr: Address, a: BindAnswer)
    requires addr.UnixAddress?
    ensures Moves(k, Probe(id, pid, k, addr, a).0,
                  if a.unlinkOk && !ProbeConnects(k, addr, a) then {UnlinkTarget(addr.data)} else {}, {})
  {
    var f := Fresh(AF_UNIX, SOCK_STREAM);
    var c := Connect(pid, f, k, addr, NO_TIMEOUT, a.probe);
    ProbeConnectState(pid, k, addr, a.probe);
    ConnectQuiet(pid, f, k, addr, NO_TIMEOUT, a.probe);
    hide Quiet, Connect, Answers;
    if c.ok {
      CloseQuiet(pid, c.s, c.k);
      QuietTransitive(k, c.k, Close(pid, c.s, c.k).k);
      QuietMeans(k, Close(pid, c.s, c.k).k);
    } else {
      var gone := if a.unlinkOk then {UnlinkTarget(addr.data)} else {};
      var u := SysUnlink(c.k, id, GetPath(addr.data), a.unlinkOk);
      SysUnlinkMoves(c.k, id, GetPath(addr.data), a.unlinkOk);
      QuietThen(k, c.k, u, gone, {});
      CloseQuiet(pid, c.s, u);
      ThenQuiet(k, u, Close(pid, c.s, u).k, gone, {});
    }
    hide Moves, Close, SysUnlink;
  }

  lemma QuietMeans(k: State, k': State)
    requires Quiet(k, k')
    ensures Moves(k, k', {}, {})
  {}

  lemma BindMoves(id: nat, pid: nat, s: Sock, k: State, addr: Address, a: BindAnswer)
    ensures Moves(k, Bind(id, pid, s, k, addr, a).k, Unlinked(id, s, k, addr, a), {})
  {
    var k0 := Emit(k, BindRequest(id, addr));
    var s0 := s.(local := Some(addr));
    SilentQuiet(k, k0);
    ReadyQuiet(id, s0, k0, a.newFd);
    var r := BindStart(id, s, k, addr, a);
    QuietTransitive(k, k0, r.1);
    QuietMeans(k, r.1);
    hide Moves, Quiet, Ready;
    if r.0.fd != -1 && Family(addr) == s.family {
      var gone := Unlinked(id, s, k, addr, a);
      var p := Probe(id, pid, r.1, addr, a);
      SysBindQuiet(p.0, id, r.0.fd, addr, a.ok, a.chosen);
      if addr.UnixAddress? {
        ProbeMoves(id, pid, r.1, addr, a);
        ProbeNames(id, pid, r.1, addr, a);
        QuietThen(k, r.1, p.0, gone, {});
      }
      ThenQuiet(k, p.0, SysBind(p.0, id, r.0.fd, addr, a.ok, a.chosen).0, gone, {});
      hide Probe, SysBind, ProbeConnects;
    }
  }

  // ---------- steps and runs ----------

  /** The names that a step unlinks: at most one, and only a bind does. */
  function Gone(w: World, op: Op): set<UnixName> {
    if op.DoBind? && op.id in w.socks then Unlinked(op.id, w.socks[op.id], w.k, op.addr, op.bind) else {}
  }

  predicate ListenWorks(w: World, op: Op) {
    op.DoListen? && op.id in w.socks && w.socks[op.id].fd != -1 && ListenSucceeds(w.k, w.socks[op.id].fd, op.ok)
  }

  /** The generation that a step makes listen. */
  function Heard(w: World, op: Op): set<nat> {
    if ListenWorks(w, op) then {w.k.open[w.socks[op.id].fd]} else {}
  }

  lemma ListenMoves(w: World, op: Op)
    requires op.DoListen? && op.id in w.socks
    ensures Moves(w.k, Listen(op.id, w.socks[op.id], w.k, op.ok, op.name).k, {}, Heard(w, op))
  {
    SilentQuiet(w.k, w.k);
    SysListenMoves(w.k, op.id, w.socks[op.id].fd, op.ok, op.name);
    QuietMeans(w.k, w.k);
    hide Moves, SysListen, ListenSucceeds;
  }

  lemma ReconnectQuiet(id: nat, s: Sock, k: State, timeout: uint64, a: ConnectAnswer)
    ensures Quiet(k, Reconnect(id, s, k, timeout, a).k)
  {
    var k1 := Emit(k, ReconnectRequest(id));
    SilentQuiet(k, k1);
    hide Quiet, Connect;
    if s.remote.Some? {
      ConnectQuiet(id, s.(local := None), k1, s.remote.value, timeout, a);
      QuietTransitive(k, k1, Connect(id, s.(local := None), k1, s.remote.value, timeout, a).k);
    }
  }

  lemma CreateUdpQuiet(id: nat, family: int, k: State, newFd: int)
    ensures Quiet(k, CreateUdp(id, family, k, newFd).1)
  {
    var s := Fresh(family, SOCK_DGRAM);
    ReadyQuiet(id, s, k, newFd);
    var k1 := Ready(id, s, k, newFd).1;
    SilentQuiet(k1, Emit(k1, UdpMark(id)));
    QuietTransitive(k, k1, Emit(k1, UdpMark(id)));
    hide Quiet;
  }

  /** One lemma for every operation; what follows in this file is read off from it. */
  lemma StepMoves(w: World, op: Op)
    ensures Moves(w.k, Step(w, op).k, Gone(w, op), Heard(w, op))
  {
    var k := w.k;
    SilentQuiet(k, k);
    hide Moves, Quiet, Unlinked;
    hide Bind, Connect, Reconnect, Accept, Close, Listen, CreateUdp, Transfer, QueryLocal, QueryRemote;
    if op.DoCreateUdp? {
      CreateUdpQuiet(w.nextId, if op.v6 then AF_INET6 else AF_INET, k, op.newFd);
    } else if !op.DoCreate? && op.id in w.socks {
      var id, nid, s := op.id, w.nextId, w.socks[op.id];
      match op {
        case DoBind(_, addr, a) => BindMoves(id, nid, s, k, addr, a);
        case DoConnect(_, addr, timeout, a) => ConnectQuiet(id, s, k, addr, timeout, a);
        case DoReconnect(_, timeout, a) => ReconnectQuiet(id, s, k, timeout, a);
        case DoListen(_, _, _) => ListenMoves(w, op);
        case DoAccept(_, a) => AcceptQuiet(id, nid, s, k, a);
        case DoClose(_) => CloseQuiet(id, s, k);
        case DoDestroy(_) => CloseQuiet(id, s, k);
        case DoGetLocal(_, ok) => QueriesQuiet(id, s, k, ok);
        case DoGetRemote(_, ok) => QueriesQuiet(id, s, k, ok);
        case DoTransfer(_, name, count) => TransferQuiet(id, s, k, name, count);
      }
    }
    if !op.DoBind? && !op.DoListen? {
      QuietMeans(k, Step(w, op).k);
    }
  }

  lemma TransferQuiet(id: nat, s: Sock, k: State, name: string, count: int)
    ensures Quiet(k, Transfer(id, s, k, name, count).0)
  {
    SilentQuiet(k, k);
    SysTransferQuiet(k, id, s.fd, name, count);
    hide Quiet, SysTransfer;
  }

  /** The names that the binds of a run unlink, each judged at its moment. */
  function GoneIn(w: World, ops: seq<Op>): set<UnixName> {
    if ops == [] then {}
    else GoneIn(w, ops[..|ops| - 1]) + Gone(Run(w, ops[..|ops| - 1]), ops[|ops| - 1])
  }

  function HeardIn(w: World, ops: seq<Op>): set<nat> {
    if ops == [] then {}
    else HeardIn(w, ops[..|ops| - 1]) + Heard(Run(w, ops[..|ops| - 1]), ops[|ops| - 1])
  }

  lemma {:induction false} RunMoves(w: World, ops: seq<Op>)
    ensures Moves(w.k, Run(w, ops).k, GoneIn(w, ops), HeardIn(w, ops))
  {
    SilentQuiet(w.k, w.k);
    QuietMeans(w.k, w.k);
    hide Moves, Quiet, Gone, Heard, Step;
    if ops == [] {
    } else {
      var before, op := ops[..|ops| - 1], ops[|ops| - 1];
      var w1 := Run(w, before);
      RunMoves(w, before);
      StepMoves(w1, op);
      MovesTransitive(w.k, w1.k, Step(w1, op).k, GoneIn(w, before), Gone(w1, op), HeardIn(w, before), Heard(w1, op));
    }
  }

  lemma NamesAlwaysOk(files: set<string>, ops: seq<Op>)
    ensures NamesOk(Reached(files, ops).k)
  {
    RunMoves(Start(files), ops);
    assert NamesOk(Start(files).k);
  }
}
