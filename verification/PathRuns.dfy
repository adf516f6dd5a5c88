/** Four concrete runs that show why the path theorems say what they say. */
module PathRuns {
  import opened Addresses
  import opened Kernel
  import opened SocketSpec
  import opened World
  import opened Ownership
  import opened Names
  import opened Paths
  import opened Listeners

  /** The kernel agrees to everything, offering `fd` to the object and `probeFd` to the probe. */
  function Yes(fd: int, probeFd: int): BindAnswer {
    BindAnswer(fd, ConnectAnswer(probeFd, true, "", true), true, true, "")
  }

  function Make(typ: int := SOCK_STREAM): Op {
    DoCreate(AF_UNIX, typ)
  }

  /** The kernel after the probe of a path where nobody listens: one socket more came and went, and the path is free. */
  lemma FreshProbe(id: nat, pid: nat, k: State, addr: Address, fd: int, probeFd: int)
    requires addr.UnixAddress? && NameOf(addr.data).Pathname? && !Answers(k, NameOf(addr.data), SOCK_STREAM)
    requires Usable(k, probeFd) && forall n :: n in k.names ==> n.Pathname?
    ensures var p := Probe(id, pid, k, addr, Yes(fd, probeFd));
            && p.1 && p.0.open == k.open && |p.0.gens| == |k.gens| + 1 && p.0.gens[..|k.gens|] == k.gens
            && p.0.names == k.names - {NameOf(addr.data)}
  {
    var a := Yes(fd, probeFd);
    UnlinkTargetIsName(addr.data);
    ProbeConnectState(pid, k, addr, a.probe);
    hide Connect, Answers;
  }

  /** A fresh object is bound to a path where nobody listens, and the kernel agrees to everything. */
  lemma FreshBind(id: nat, pid: nat, k: State, addr: Address, fd: int, probeFd: int, typ: int := SOCK_STREAM)
    requires addr.UnixAddress? && NameOf(addr.data).Pathname? && !Answers(k, NameOf(addr.data), SOCK_STREAM)
    requires Usable(k, fd) && Usable(k, probeFd) && fd != probeFd && forall n :: n in k.names ==> n.Pathname?
    ensures var s, a, g := Fresh(AF_UNIX, typ), Yes(fd, probeFd), |k.gens|;
            var o := Bind(id, pid, s, k, addr, a);
            && o.s.fd == fd && o.k.open == k.open[fd := g] && |o.k.gens| == g + 2 && o.k.gens[..g] == k.gens
            && o.k.gens[g] == Gen(AF_UNIX, typ, true, true, addr.data, false, None)
            && o.k.names == k.names[NameOf(addr.data) := SocketNode(g)]
            && Usable(BindStart(id, s, k, addr, a).1, probeFd)
  {
    var s, a, g := Fresh(AF_UNIX, typ), Yes(fd, probeFd), |k.gens|;
    var r := BindStart(id, s, k, addr, a);
    BindStartAnswers(id, s, k, addr, a, NameOf(addr.data));
    assert r.1.names == k.names && Usable(r.1, probeFd);
    FreshProbe(id, pid, r.1, addr, fd, probeFd);
    hide Answers, Probe;
    var p := Probe(id, pid, r.1, addr, a);
    assert p.0.gens[g] == p.0.gens[..g + 1][g];
    assert BindSucceeds(p.0, fd, addr, true, "");
  }

  /** A new object and its bind, as one step. */
  lemma CreateThenBind(first: seq<Op>, addr: Address, a: BindAnswer, typ: int := SOCK_STREAM)
    ensures var w := Reached({}, first);
            var id := w.nextId;
            var o := Bind(id, id + 1, Fresh(AF_UNIX, typ), w.k, addr, a);
            && Reached({}, AndBind(first, id, addr, a, typ)) == World(o.k, w.socks[id := o.s], id + 2)
            && Reached({}, first + [Make(typ)]) == World(w.k, w.socks[id := Fresh(AF_UNIX, typ)], id + 1)
  {
    var w := Reached({}, first);
    RunOne(Start({}), first, Make(typ));
    RunOne(Start({}), first + [Make(typ)], DoBind(w.nextId, addr, a));
    hide Bind, Run;
    var id, w1 := w.nextId, Step(w, Make(typ));
    assert w1.socks[id] == Fresh(AF_UNIX, typ);
    var o := Bind(id, id + 1, w1.socks[id], w.k, addr, a);
    assert w1.socks[id := o.s] == w.socks[id := o.s];
  }

  /** A second object, made after `first` and bound to `addr`. */
  function AndBind(first: seq<Op>, id: nat, addr: Address, a: BindAnswer, typ: int := SOCK_STREAM): seq<Op> {
    first + [Make(typ)] + [DoBind(id, addr, a)]
  }

  /** Object 0 is made and bound to `addr` as descriptor 3. */
  function Bound(addr: Address, typ: int := SOCK_STREAM): seq<Op> {
    AndBind([], 0, addr, Yes(3, 4), typ)
  }

  lemma BoundState(addr: Address, typ: int := SOCK_STREAM)
    requires addr.UnixAddress? && NameOf(addr.data).Pathname?
    ensures var w := Reached({}, Bound(addr, typ));
            && w.nextId == 2 && w.socks.Keys == {0} && w.socks[0].fd == 3 && w.socks[0].family == AF_UNIX
            && w.k.open == map[3 := 0] && |w.k.gens| == 2
            && w.k.gens[0] == Gen(AF_UNIX, typ, true, true, addr.data, false, None)
            && w.k.names == map[NameOf(addr.data) := SocketNode(0)]
    ensures Healthy(Reached({}, [] + [Make(typ)]), DoBind(0, addr, Yes(3, 4)))
  {
    CreateThenBind([], addr, Yes(3, 4), typ);
    FreshBind(0, 1, Boot({}), addr, 3, 4, typ);
    assert Reached({}, []) == Start({}) && Boot({}).names == map[];
    hide Bind, Reached, BindStart;
  }

  lemma ListenOf(w: World, id: nat)
    requires id in w.socks && w.socks[id].fd != -1 && IsOpen(w.k, w.socks[id].fd)
    requires var g := w.k.gens[w.k.open[w.socks[id].fd]];
             g.family == AF_UNIX && g.typ == SOCK_STREAM && g.bound && g.peer.None?
    ensures var w' := Step(w, DoListen(id, true, ""));
            var g := w.k.open[w.socks[id].fd];
            && w'.socks == w.socks && w'.nextId == w.nextId + 1
            && w'.k.open == w.k.open && w'.k.names == w.k.names
            && w'.k.gens == w.k.gens[g := w.k.gens[g].(listening := true)]
  {
    assert w.socks[id := w.socks[id]] == w.socks;
  }

  lemma ListeningState(addr: Address)
    requires addr.UnixAddress? && NameOf(addr.data).Pathname?
    ensures var w := Reached({}, Bound(addr) + [DoListen(0, true, "")]);
            && w.nextId == 3 && w.socks.Keys == {0} && w.socks[0].fd == 3
            && w.k.open == map[3 := 0] && |w.k.gens| == 2
            && w.k.names == map[NameOf(addr.data) := SocketNode(0)]
            && Listener(w.k, NameOf(addr.data), 0)
  {
    BoundState(addr);
    RunOne(Start({}), Bound(addr), DoListen(0, true, ""));
    ListenOf(Reached({}, Bound(addr)), 0);
    hide Step, Run;
  }

  /** Object `id` holds generation `g`, which is open and listening. */
  predicate StillListening(w: World, id: nat, g: nat) {
    Holds(w, id, g) && g < |w.k.gens| && w.k.gens[g].alive && w.k.gens[g].listening
  }

  /** The assumption about the probe is needed: when it gets no descriptor, its connect returns false and
      bind removes the path of a listener that stays alive. */
  lemma ProbeFailureRun()
    ensures var addr := FromString("/s");
            var before := Bound(addr) + [DoListen(0, true, "")];
            var w := Reached({}, before);
            var w' := Reached({}, AndBind(before, 3, addr, Yes(5, -1)));
            && Listener(w.k, Pathname("/s"), 0)
            && !Listener(w'.k, Pathname("/s"), 0) && StillListening(w', 0, 0)
  {
    var addr := FromString("/s");
    assert CString("s") == "s" && CString("/s") == "/s";
    FromStringNames("/s");
    UnlinkTargetIsName(addr.data);
    Stolen(addr, addr, Yes(5, -1));
  }

  /** So is the one about abstract addresses: with a healthy probe, binding the abstract name NUL x
      removes the file backslash zero x on which somebody listens. */
  lemma AbstractCollisionRun()
    ensures var addr := FromString("\\0x");
            var before := Bound(addr) + [DoListen(0, true, "")];
            var w := Reached({}, before);
            var w' := Reached({}, AndBind(before, 3, FromString("\0x"), Yes(5, 6)));
            && Listener(w.k, Pathname("\\0x"), 0)
            && !Listener(w'.k, Pathname("\\0x"), 0) && StillListening(w', 0, 0)
  {
    var path, data := "\\0x", "\0x";
    assert CString("x") == "x" && CString("0x") == "0x" && CString(path) == path;
    assert data[1..] == "x" && path[0] != '\0';
    FromStringNames(path);
    FromStringNames(data);
    UnlinkTargetIsName(data);
    Stolen(FromString(path), FromString(data), Yes(5, 6));
  }

  /** The common part: a second object's bind whose trial connection fails takes the path. */
  lemma Stolen(addr: Address, other: Address, a: BindAnswer)
    requires addr.UnixAddress? && NameOf(addr.data).Pathname? && other.UnixAddress?
    requires UnlinkTarget(other.data) == NameOf(addr.data)
    requires a == Yes(5, 6) || a == Yes(5, -1)
    requires NameOf(other.data) != NameOf(addr.data) || a == Yes(5, -1)
    ensures var before := Bound(addr) + [DoListen(0, true, "")];
            var w' := Reached({}, AndBind(before, 3, other, a));
            && Listener(Reached({}, before).k, NameOf(addr.data), 0)
            && !Listener(w'.k, NameOf(addr.data), 0) && StillListening(w', 0, 0)
  {
    var before := Bound(addr) + [DoListen(0, true, "")];
    ListeningState(addr);
    NamesAlwaysOk({}, before);
    CreateThenBind(before, other, a);
    StolenStep(Reached({}, before).k, addr, other, a);
    hide Bind, Listener, NamesOk, Reached, NameOf, UnlinkTarget, AndBind;
  }

  lemma StolenStep(k: State, addr: Address, other: Address, a: BindAnswer)
    requires NameOf(addr.data).Pathname? && other.UnixAddress?
    requires UnlinkTarget(other.data) == NameOf(addr.data)
    requires a == Yes(5, 6) || a == Yes(5, -1)
    requires NameOf(other.data) != NameOf(addr.data) || a == Yes(5, -1)
    requires NamesOk(k) && Listener(k, NameOf(addr.data), 0)
    requires k.names == map[NameOf(addr.data) := SocketNode(0)] && k.open == map[3 := 0]
    ensures var k' := Bind(3, 4, Fresh(AF_UNIX, SOCK_STREAM), k, other, a).k;
            && !Listener(k', NameOf(addr.data), 0)
            && |k'.gens| > 0 && k'.gens[0].alive && k'.gens[0].listening && 3 in k'.open && k'.open[3] == 0
  {
    var s := Fresh(AF_UNIX, SOCK_STREAM);
    var r := BindStart(3, s, k, other, a);
    assert r.0.fd == 5 && r.1.names == k.names;
    BindMoves(3, 4, s, k, other, a);
    BindHarmless(3, 4, s, k, other, a);
    assert LeadsTo(k, NameOf(addr.data), 0);
    hide Bind;
    assert !ProbeConnects(r.1, other, a);
    assert NameOf(addr.data) in Unlinked(3, s, k, other, a);
    assert 3 in k.open;
  }

  lemma TwoBoundState(addr: Address, typ: int := SOCK_STREAM)
    requires addr.UnixAddress? && NameOf(addr.data).Pathname?
    ensures var w := Reached({}, AndBind(Bound(addr, typ), 2, addr, Yes(5, 6)));
            && 0 in w.socks && w.socks[0].fd == 3 && 2 in w.socks && w.socks[2].fd == 5
            && w.k.open == map[3 := 0, 5 := 2] && |w.k.gens| == 4
            && w.k.gens[0] == Gen(AF_UNIX, typ, true, true, addr.data, false, None)
            && w.k.gens[2] == Gen(AF_UNIX, SOCK_STREAM, true, true, addr.data, false, None)
            && w.k.names == map[NameOf(addr.data) := SocketNode(2)]
  {
    BoundState(addr, typ);
    CreateThenBind(Bound(addr, typ), addr, Yes(5, 6));
    SecondBind(Reached({}, Bound(addr, typ)).k, addr);
    hide Bind, Reached, AndBind, Bound, NameOf;
  }

  lemma SecondBind(k: State, addr: Address)
    requires addr.UnixAddress? && NameOf(addr.data).Pathname?
    requires k.open == map[3 := 0] && |k.gens| == 2 && !k.gens[0].listening
    requires k.names == map[NameOf(addr.data) := SocketNode(0)]
    ensures var o := Bind(2, 3, Fresh(AF_UNIX, SOCK_STREAM), k, addr, Yes(5, 6));
            && o.s.fd == 5 && o.k.open == map[3 := 0, 5 := 2] && |o.k.gens| == 4 && o.k.gens[0] == k.gens[0]
            && o.k.gens[2] == Gen(AF_UNIX, SOCK_STREAM, true, true, addr.data, false, None)
            && o.k.names == map[NameOf(addr.data) := SocketNode(2)]
  {
    FreshBind(2, 3, k, addr, 5, 6);
    var o := Bind(2, 3, Fresh(AF_UNIX, SOCK_STREAM), k, addr, Yes(5, 6));
    hide Bind, BindStart, Answers, NameOf;
    assert o.k.gens[0] == o.k.gens[..2][0];
  }

  lemma SecondBindHealthy(addr: Address, typ: int := SOCK_STREAM)
    requires addr.UnixAddress? && NameOf(addr.data).Pathname?
    ensures Healthy(Reached({}, Bound(addr, typ) + [Make()]), DoBind(2, addr, Yes(5, 6)))
  {
    BoundState(addr, typ);
    CreateThenBind(Bound(addr, typ), addr, Yes(5, 6));
    FreshBind(2, 3, Reached({}, Bound(addr, typ)).k, addr, 5, 6);
    hide Bind, Reached, BindStart, AndBind, Bound, Answers;
  }

  lemma HealthyOne(ops: seq<Op>, op: Op)
    requires HealthyRun(Start({}), ops) && Healthy(Reached({}, ops), op)
    ensures HealthyRun(Start({}), ops + [op])
  {
    assert (ops + [op])[..|ops + [op]| - 1] == ops;
    hide Healthy;
  }

  lemma TwoBoundHealthy(addr: Address, typ: int := SOCK_STREAM)
    requires addr.UnixAddress? && NameOf(addr.data).Pathname?
    ensures HealthyRun(Start({}), AndBind(Bound(addr, typ), 2, addr, Yes(5, 6)))
  {
    BoundState(addr, typ);
    SecondBindHealthy(addr, typ);
    assert forall w, t :: Healthy(w, Make(t));
    hide Healthy;
    HealthyOne([], Make(typ));
    HealthyOne([] + [Make(typ)], DoBind(0, addr, Yes(3, 4)));
    HealthyOne(Bound(addr, typ), Make());
    HealthyOne(Bound(addr, typ) + [Make()], DoBind(2, addr, Yes(5, 6)));
  }

  /** All binds of the two-listener run are healthy, so the whole run is. */
  lemma TwoListenersHealthy(addr: Address)
    requires addr.UnixAddress? && NameOf(addr.data).Pathname?
    ensures HealthyRun(
              Start({}),
              AndBind(Bound(addr), 2, addr, Yes(5, 6)) + [DoListen(2, true, "")] + [DoListen(0, true, "")])
  {
    TwoBoundHealthy(addr);
    var l0, l2 := DoListen(0, true, ""), DoListen(2, true, "");
    var bound := AndBind(Bound(addr), 2, addr, Yes(5, 6));
    assert forall w :: Healthy(w, l0) && Healthy(w, l2);
    hide Healthy;
    HealthyOne(bound, l2);
    HealthyOne(bound + [l2], l0);
  }

  /** A datagram object binds a path, then a stream object binds it too. Both binds are healthy, and the datagram
      socket, still open and alive, has lost its path. */
  lemma DatagramRun(addr: Address)
    requires addr.UnixAddress? && NameOf(addr.data).Pathname?
    ensures var before := Bound(addr, SOCK_DGRAM);
            var ops := AndBind(before, 2, addr, Yes(5, 6));
            var w, w' := Reached({}, before), Reached({}, ops);
            && HealthyRun(Start({}), ops)
            && LeadsTo(w.k, NameOf(addr.data), 0) && Live(w.k, 0) && w.k.gens[0].typ == SOCK_DGRAM
            && !LeadsTo(w'.k, NameOf(addr.data), 0) && Live(w'.k, 0) && Holds(w', 0, 0)
  {
    BoundState(addr, SOCK_DGRAM);
    TwoBoundState(addr, SOCK_DGRAM);
    TwoBoundHealthy(addr, SOCK_DGRAM);
    hide Reached, HealthyRun, Bound, AndBind;
  }

  /** Two objects bind the same path before either listens; then both listen. Every bind of the run is healthy,
      both listeners are alive and bound to the same path, and the first cannot be reached. */
  lemma TwoListenersRun(addr: Address)
    requires addr.UnixAddress? && NameOf(addr.data).Pathname?
    ensures var bound := AndBind(Bound(addr), 2, addr, Yes(5, 6));
            var ops := bound + [DoListen(2, true, "")] + [DoListen(0, true, "")];
            var w := Reached({}, ops);
            && HealthyRun(Start({}), ops)
            && StillListening(w, 0, 0) && StillListening(w, 2, 2)
            && ListensUnder(w.k, NameOf(addr.data), 0) && ListensUnder(w.k, NameOf(addr.data), 2)
            && Listener(w.k, NameOf(addr.data), 2) && !Listener(w.k, NameOf(addr.data), 0)
  {
    var bound := AndBind(Bound(addr), 2, addr, Yes(5, 6));
    var l2 := bound + [DoListen(2, true, "")];
    TwoListenersHealthy(addr);
    BoundState(addr);
    TwoBoundState(addr);
    RunOne(Start({}), bound, DoListen(2, true, ""));
    RunOne(Start({}), l2, DoListen(0, true, ""));
    BothListen(Reached({}, bound), addr);
    hide HealthyRun, Step;
  }

  lemma BothListen(w: World, addr: Address)
    requires 0 in w.socks && w.socks[0].fd == 3 && 2 in w.socks && w.socks[2].fd == 5
    requires w.k.open == map[3 := 0, 5 := 2] && |w.k.gens| == 4
    requires w.k.gens[0] == w.k.gens[2] == Gen(AF_UNIX, SOCK_STREAM, true, true, addr.data, false, None)
    requires w.k.names == map[NameOf(addr.data) := SocketNode(2)]
    ensures var w' := Step(Step(w, DoListen(2, true, "")), DoListen(0, true, ""));
            && StillListening(w', 0, 0) && StillListening(w', 2, 2)
            && ListensUnder(w'.k, NameOf(addr.data), 0) && ListensUnder(w'.k, NameOf(addr.data), 2)
            && Listener(w'.k, NameOf(addr.data), 2) && !Listener(w'.k, NameOf(addr.data), 0)
  {
    hide Step;
    ListenOf(w, 2);
    ListenOf(Step(w, DoListen(2, true, "")), 0);
  }
}
