/** Who keeps a name, who loses it, and to which bind. */
module Paths {
  import opened Addresses
  import opened Kernel
  import opened SocketSpec
  import opened Monitor
  import opened World
  import opened Ownership
  import opened Names

  // ---------- who keeps a name through a run ----------

  /** A name that leads to a socket goes on doing so through any run exactly if no bind of the run unlinks it;
      an abstract one as long as the socket lives. */
  lemma EntrySurvivesExactly(w: World, rest: seq<Op>, n: UnixName, g: nat)
    requires NamesOk(w.k) && LeadsTo(w.k, n, g) && (n.Pathname? || Live(Run(w, rest).k, g))
    ensures LeadsTo(Run(w, rest).k, n, g) <==> n !in GoneIn(w, rest)
  {
    RunMoves(w, rest);
  }

  /** Only paths are ever unlinked. */
  lemma {:induction false} OnlyPathsGo(w: World, ops: seq<Op>, n: UnixName)
    requires n in GoneIn(w, ops)
    ensures n.Pathname?
  {
    if n in GoneIn(w, ops[..|ops| - 1]) {
      OnlyPathsGo(w, ops[..|ops| - 1], n);
    }
  }

  /** A generation that was alive and no longer is was closed in between, by its owner. */
  lemma DiedByOwnClose(w: World, w': World, g: nat) returns (i: nat)
    requires Inv(w) && Inv(w') && w.k.trace <= w'.k.trace
    requires Live(w.k, g) && g < |w'.k.gens| && !w'.k.gens[g].alive
    ensures |w.k.trace| <= i && ClosesAt(w'.k.trace, i, g)
    ensures Mine(Watch(w'.k.trace[..i]), w'.k.trace[i].id, w'.k.trace[i].fd)
  {
    var t, t' := w.k.trace, w'.k.trace;
    ClosedByOneCall(t', g);
    ClosedByOneCall(t, g);
    i :| ClosesAt(t', i, g);
    assert t == t'[..|t|];
    if i < |t| {
      AtPrefix(t', |t|, i, g);
    }
    AcceptedEntry(t', i);
  }

  /** Some call between `w` and `w'` closes generation `g`, and its issuer owns what it closes. */
  ghost predicate ClosedByOwner(w: World, w': World, g: nat) {
    exists i :: |w.k.trace| <= i && ClosesAt(w'.k.trace, i, g) &&
                Mine(Watch(w'.k.trace[..i]), w'.k.trace[i].id, w'.k.trace[i].fd)
  }

  lemma ClosedIsDead(w: World, w': World, g: nat)
    requires Inv(w') && ClosedByOwner(w, w', g)
    ensures !Live(w'.k, g)
  {
    ClosedByOneCall(w'.k.trace, g);
  }

  /** A reachable listener stays reachable through any run exactly if no bind of the run unlinks its name and its
      owner does not close it. Nothing ever unlinks an abstract name. */
  lemma ListenerSurvivesExactly(w: World, rest: seq<Op>, n: UnixName, g: nat)
    requires Inv(w) && NamesOk(w.k) && Listener(w.k, n, g)
    ensures var w' := Run(w, rest);
            Listener(w'.k, n, g) <==> n !in GoneIn(w, rest) && !ClosedByOwner(w, w', g)
    ensures n.Abstract? ==> n !in GoneIn(w, rest)
  {
    var w' := Run(w, rest);
    RunMoves(w, rest);
    RunInv(w, rest);
    assert LeadsTo(w.k, n, g) && Live(w.k, g) && Grows(w.k.gens[g], w'.k.gens[g]);
    if n in GoneIn(w, rest) {
      OnlyPathsGo(w, rest, n);
    }
    hide Inv, NamesOk, GoneIn, HeardIn, Run, ClosedByOwner;
    assert Live(w'.k, g) ==> (Listener(w'.k, n, g) <==> LeadsTo(w'.k, n, g));
    hide Moves;
    if Live(w'.k, g) {
      if ClosedByOwner(w, w', g) {
        ClosedIsDead(w, w', g);
      }
    } else {
      DeadIsClosed(w, w', g);
    }
  }

  lemma DeadIsClosed(w: World, w': World, g: nat)
    requires Inv(w) && Inv(w') && w.k.trace <= w'.k.trace && Live(w.k, g) && g < |w'.k.gens| && !Live(w'.k, g)
    ensures ClosedByOwner(w, w', g)
  {
    var i := DiedByOwnClose(w, w', g);
  }

  /** The same for every world reached from the start, whatever led there. */
  lemma ListenersKeepTheirPath(files: set<string>, first: seq<Op>, rest: seq<Op>, n: UnixName, g: nat)
    requires Listener(Reached(files, first).k, n, g)
    ensures var w, w' := Reached(files, first), Run(Reached(files, first), rest);
            && (Listener(w'.k, n, g) <==> n !in GoneIn(w, rest) && !ClosedByOwner(w, w', g))
            && (n.Abstract? ==> n !in GoneIn(w, rest))
  {
    NamesAlwaysOk(files, first);
    ReachedInv(files, first);
    hide Inv, Listener, NamesOk, ClosedByOwner, GoneIn;
    ListenerSurvivesExactly(Reached(files, first), rest, n, g);
  }

  /** What the program may expect of the system during a bind to a Unix address: the probe gets a
      descriptor, a live listener takes the connection; and, for an abstract address, the file that
      getPath names for it is not where somebody listens. */
  predicate Healthy(w: World, op: Op) {
    op.DoBind? && op.id in w.socks && ReachesProbe(op.id, w.socks[op.id], w.k, op.addr, op.bind) ==>
      var k1 := BindStart(op.id, w.socks[op.id], w.k, op.addr, op.bind).1;
      Usable(k1, op.bind.probe.newFd) && op.bind.probe.ok &&
      (NameOf(op.addr.data).Pathname? || !Answers(k1, UnlinkTarget(op.addr.data), SOCK_STREAM))
  }

  /** A healthy bind unlinks no name at which somebody listens. */
  lemma HealthySpares(w: World, op: Op, n: UnixName)
    requires Healthy(w, op) && n in Gone(w, op)
    ensures !Answers(w.k, n, SOCK_STREAM)
  {
    var s := w.socks[op.id];
    BindStartAnswers(op.id, s, w.k, op.addr, op.bind, n);
    hide BindStart, Answers;
    if NameOf(op.addr.data).Pathname? {
      UnlinkTargetIsName(op.addr.data);
    }
  }

  /** Every bind of the run is healthy at its moment. */
  ghost predicate HealthyRun(w: World, ops: seq<Op>) {
    ops == [] || (HealthyRun(w, ops[..|ops| - 1]) && Healthy(Run(w, ops[..|ops| - 1]), ops[|ops| - 1]))
  }

  lemma HealthyStepKeeps(w: World, op: Op, n: UnixName, g: nat)
    requires NamesOk(w.k) && Listener(w.k, n, g) && Healthy(w, op)
    ensures Live(Step(w, op).k, g) ==> Listener(Step(w, op).k, n, g)
  {
    StepMoves(w, op);
    if n in Gone(w, op) {
      HealthySpares(w, op, n);
    }
    assert LeadsTo(w.k, n, g) && Grows(w.k.gens[g], Step(w, op).k.gens[g]);
    hide Step, Gone, Heard, Healthy, NamesOk;
  }

  lemma {:induction false} HealthyKeeps(w: World, ops: seq<Op>, n: UnixName, g: nat)
    requires NamesOk(w.k) && Listener(w.k, n, g) && HealthyRun(w, ops)
    ensures Live(Run(w, ops).k, g) ==> Listener(Run(w, ops).k, n, g)
  {
    if ops == [] {
    } else {
      var w1, op := Run(w, ops[..|ops| - 1]), ops[|ops| - 1];
      hide Step, Healthy, NamesOk, Listener, Moves;
      HealthyKeeps(w, ops[..|ops| - 1], n, g);
      RunMoves(w, ops[..|ops| - 1]);
      MovesMeans(w.k, w1.k, GoneIn(w, ops[..|ops| - 1]), HeardIn(w, ops[..|ops| - 1]), g);
      StepMoves(w1, op);
      MovesMeans(w1.k, Step(w1, op).k, Gone(w1, op), Heard(w1, op), g);
      if Live(w1.k, g) {
        HealthyStepKeeps(w1, op, n, g);
      }
    }
  }

  lemma MovesMeans(k: State, k': State, gone: set<UnixName>, heard: set<nat>, g: nat)
    requires Moves(k, k', gone, heard)
    ensures NamesOk(k) ==> NamesOk(k')
    ensures |k.gens| <= |k'.gens|
    ensures g < |k.gens| ==> Grows(k.gens[g], k'.gens[g])
  {}

  /** Path safety: as long as every bind on the way is healthy, a reachable listener stays reachable at its
      name until the object that owns it closes it. */
  lemma HealthyRunKeepsListener(w: World, rest: seq<Op>, n: UnixName, g: nat)
    requires Inv(w) && NamesOk(w.k) && Listener(w.k, n, g) && HealthyRun(w, rest)
    ensures Listener(Run(w, rest).k, n, g) || ClosedByOwner(w, Run(w, rest), g)
  {
    var w' := Run(w, rest);
    HealthyKeeps(w, rest, n, g);
    RunInv(w, rest);
    RunMoves(w, rest);
    MovesMeans(w.k, w'.k, GoneIn(w, rest), HeardIn(w, rest), g);
    assert Live(w.k, g);
    hide Inv, HealthyRun, Run, Moves, NamesOk, ClosedByOwner, Listener;
    if !Live(w'.k, g) {
      DeadIsClosed(w, w', g);
    }
  }

  /** In every reachable world a bind takes a name away from the socket it leads to (stream or datagram, listening
      or not yet) exactly if it comes to the probe, the unlink aims at that name and is carried out, and the
      trial connection fails. The socket itself stays as it was. */
  lemma BindTakesPathExactly(
    files: set<string>, ops: seq<Op>, id: nat, addr: Address, a: BindAnswer, n: UnixName, g: nat)
    requires LeadsTo(Reached(files, ops).k, n, g) && id in Reached(files, ops).socks
    requires n.Pathname? || Live(Reached(files, ops).k, g)
    ensures var w := Reached(files, ops);
            var s := w.socks[id];
            var k' := Step(w, DoBind(id, addr, a)).k;
            && (!LeadsTo(k', n, g) <==>
                ReachesProbe(id, s, w.k, addr, a) && UnlinkTarget(addr.data) == n && a.unlinkOk &&
                !ProbeConnects(BindStart(id, s, w.k, addr, a).1, addr, a))
            && g < |w.k.gens| <= |k'.gens| && k'.gens[g] == w.k.gens[g]
            && (Listener(w.k, n, g) ==> (Listener(k', n, g) <==> LeadsTo(k', n, g)))
  {
    var w := Reached(files, ops);
    var s := w.socks[id];
    NamesAlwaysOk(files, ops);
    BindMoves(id, w.nextId, s, w.k, addr, a);
    BindHarmless(id, w.nextId, s, w.k, addr, a);
    hide Inv, Bind, Reached, BindStart, ProbeConnects, UnlinkTarget, ReachesProbe;
  }

  // ---------- what bind achieves ----------

  /** The object is of the Unix family and has no descriptor yet or an unbound one. */
  predicate Bindable(s: Sock, k: State) {
    s.family == AF_UNIX &&
    (s.fd != -1 ==> IsOpen(k, s.fd) && k.gens[k.open[s.fd]].family == AF_UNIX && !k.gens[k.open[s.fd]].bound)
  }

  /** When the kernel does its part, binding an unbound object to a path succeeds exactly if the trial
      connection failed; then the path leads to the object and the object remembers the address. */
  lemma BindSucceedsExactly(id: nat, pid: nat, s: Sock, k: State, addr: Address, a: BindAnswer)
    requires addr.UnixAddress? && NameOf(addr.data).Pathname? && Bindable(s, k)
    requires (s.fd == -1 ==> Usable(k, a.newFd)) && a.unlinkOk && a.ok
    ensures var o := Bind(id, pid, s, k, addr, a);
            && (o.ok <==> !ProbeConnects(BindStart(id, s, k, addr, a).1, addr, a))
            && o.s.local == Some(addr)
            && (o.ok ==> IsOpen(o.k, o.s.fd) && NameOf(addr.data) in o.k.names &&
                         o.k.names[NameOf(addr.data)] == SocketNode(o.k.open[o.s.fd]) &&
                         o.k.gens[o.k.open[o.s.fd]].name == addr.data)
  {
    var r := BindStart(id, s, k, addr, a);
    assert IsOpen(r.1, r.0.fd) && !r.1.gens[r.1.open[r.0.fd]].bound && r.1.gens[r.1.open[r.0.fd]].family == AF_UNIX;
    ProbeNames(id, pid, r.1, addr, a);
    UnlinkTargetIsName(addr.data);
    hide Ready, Probe, ProbeConnects;
    var p := Probe(id, pid, r.1, addr, a);
    if p.1 {
      var b := SysBind(p.0, id, r.0.fd, addr, a.ok, a.chosen);
      assert b.1;
    }
  }

  /** A datagram socket is not protected by the trial connection. A bind of its path takes the path exactly if it
      comes to the probe and the kernel carries the unlink out; a bind that merely renders to that path also needs
      its own trial to fail. The datagram socket stays as it was. When the kernel allows everything, a bind of
      the path succeeds and replaces it. */
  lemma DatagramPathIsTaken(id: nat, pid: nat, s: Sock, k: State, addr: Address, a: BindAnswer, n: UnixName, g: nat)
    requires NamesOk(k) && n.Pathname? && LeadsTo(k, n, g) && k.gens[g].typ == SOCK_DGRAM
    ensures var o := Bind(id, pid, s, k, addr, a);
            && (!LeadsTo(o.k, n, g) <==>
                ReachesProbe(id, s, k, addr, a) && UnlinkTarget(addr.data) == n && a.unlinkOk &&
                (NameOf(addr.data) == n || !ProbeConnects(BindStart(id, s, k, addr, a).1, addr, a)))
            && g < |o.k.gens| && o.k.gens[g] == k.gens[g]
            && (addr.UnixAddress? && NameOf(addr.data) == n && Bindable(s, k) && a.unlinkOk && a.ok &&
                (s.fd == -1 ==> Usable(k, a.newFd)) ==>
                  o.ok && n in o.k.names && o.k.names[n] != SocketNode(g))
  {
    BindMoves(id, pid, s, k, addr, a);
    BindHarmless(id, pid, s, k, addr, a);
    BindStartAnswers(id, s, k, addr, a, n);
    assert !Answers(k, n, SOCK_STREAM);
    if addr.UnixAddress? && NameOf(addr.data) == n {
      UnlinkTargetIsName(addr.data);
      if Bindable(s, k) && a.unlinkOk && a.ok && (s.fd == -1 ==> Usable(k, a.newFd)) {
        BindSucceedsExactly(id, pid, s, k, addr, a);
      }
    }
    hide Bind, BindStart, NameOf, UnlinkTarget, BindSucceeds;
  }
}
