/** When two live listeners are bound to one name, when a listener cannot be reached, and how a name that its
    listener left behind is taken over. */
module Listeners {
  import opened Addresses
  import opened Kernel
  import opened SocketSpec
  import opened Invariants
  import opened World
  import opened Ownership
  import opened Names
  import opened Paths

  /** Generation `g` is a live Unix listener bound to the name `n`, reachable or not. */
  predicate ListensUnder(k: State, n: UnixName, g: nat) {
    Live(k, g) && k.gens[g].listening && k.gens[g].family == AF_UNIX && NameOf(k.gens[g].name) == n
  }

  /** Every live listener can be reached at the name it is bound to. */
  ghost predicate AllReachable(k: State) {
    forall n, g :: ListensUnder(k, n, g) ==> Listener(k, n, g)
  }

  /** Two live listeners are bound to one name. */
  ghost predicate Shared(k: State) {
    exists n, g, h :: g != h && ListensUnder(k, n, g) && ListensUnder(k, n, h)
  }

  /** The step unlinks a name at which somebody listens. */
  ghost predicate Robs(w: World, op: Op) {
    exists n :: n in Gone(w, op) && Answers(w.k, n, SOCK_STREAM)
  }

  /** The step makes generation `g` listen under the name `n`. */
  predicate Opens(w: World, op: Op, n: UnixName, g: nat) {
    ListenWorks(w, op) && w.k.open[w.socks[op.id].fd] == g &&
    g < |w.k.gens| && w.k.gens[g].family == AF_UNIX && NameOf(w.k.gens[g].name) == n
  }

  /** What every reachable world knows of an object's descriptor. */
  lemma HeldIsLive(w: World, id: nat)
    requires Inv(w) && id in w.socks && w.socks[id].fd != -1
    ensures var fd := w.socks[id].fd;
            IsOpen(w.k, fd) && Live(w.k, w.k.open[fd]) && w.k.gens[w.k.open[fd]].family == w.socks[id].family
  {
    assert Good(id, w.socks[id], w.k);
  }

  /** A listen that is not allowed to is no step at all for the generations; one that works changes only its own. */
  lemma ListenStep(w: World, op: Op)
    requires op.DoListen?
    ensures var k' := Step(w, op).k;
            && k'.names == w.k.names && |k'.gens| == |w.k.gens|
            && (forall g: nat :: g < |w.k.gens| && g !in Heard(w, op) ==> k'.gens[g] == w.k.gens[g])
            && (forall g :: g in Heard(w, op) ==>
                  g < |w.k.gens| && k'.gens[g].listening && k'.gens[g].alive == w.k.gens[g].alive &&
                  k'.gens[g].family == w.k.gens[g].family &&
                  (w.k.gens[g].family == AF_UNIX ==> k'.gens[g].name == w.k.gens[g].name))
  {}

  /** Who listens under a name after a step: those who did and still live, and the one who begins to. */
  lemma ListensUnderStep(w: World, op: Op, n: UnixName, g: nat)
    requires NamesOk(w.k) && ListensUnder(Step(w, op).k, n, g)
    ensures ListensUnder(w.k, n, g) || Opens(w, op, n, g)
  {
    StepMoves(w, op);
    if op.DoListen? {
      ListenStep(w, op);
      hide Step;
    } else {
      hide Step;
    }
    hide Gone;
  }

  /** Whoever begins to listen under a name, or did so before and is not touched by another's listen, does so after. */
  lemma ListenersAfterListen(w: World, op: Op, n: UnixName, g: nat)
    requires Inv(w) && op.DoListen? && (Opens(w, op, n, g) || ListensUnder(w.k, n, g))
    ensures ListensUnder(Step(w, op).k, n, g)
  {
    ListenStep(w, op);
    if ListenWorks(w, op) {
      HeldIsLive(w, op.id);
    }
    hide Step, Inv;
  }

  /** The step makes an object listen under a name where another live listener is. */
  ghost predicate ListensBeside(w: World, op: Op) {
    exists n, g, h :: Opens(w, op, n, g) && h != g && ListensUnder(w.k, n, h)
  }

  /** The step makes an object listen whose name no longer leads to it. */
  ghost predicate ListensAway(w: World, op: Op) {
    exists n, g :: Opens(w, op, n, g) && !LeadsTo(w.k, n, g)
  }

  /** Exactly one kind of step makes two live listeners share a name: a listen beside another listener. */
  lemma SharingStepExactly(w: World, op: Op)
    requires Inv(w) && NamesOk(w.k) && !Shared(w.k)
    ensures Shared(Step(w, op).k) <==> ListensBeside(w, op)
  {
    var k' := Step(w, op).k;
    hide Step, Inv, NamesOk, Opens, ListensUnder;
    if Shared(k') {
      var n, g: nat, h: nat :| g != h && ListensUnder(k', n, g) && ListensUnder(k', n, h);
      ListensUnderStep(w, op, n, g);
      ListensUnderStep(w, op, n, h);
      OpensOne(w, op, n, g, n, h);
    }
    if ListensBeside(w, op) {
      var n, g: nat, h: nat :| Opens(w, op, n, g) && h != g && ListensUnder(w.k, n, h);
      OpensOne(w, op, n, g, n, g);
      ListenersAfterListen(w, op, n, g);
      ListenersAfterListen(w, op, n, h);
    }
  }

  lemma OpensOne(w: World, op: Op, n: UnixName, g: nat, m: UnixName, h: nat)
    ensures Opens(w, op, n, g) && Opens(w, op, m, h) ==> n == m && g == h
    ensures Opens(w, op, n, g) ==> op.DoListen? && Gone(w, op) == {}
  {}

  /** Where every listener is reachable, no two share a name, and the guard of such a listen is: the name leads
      to a listener, but not to this object. */
  lemma ReachableNotShared(w: World, op: Op)
    requires NamesOk(w.k) && AllReachable(w.k)
    ensures !Shared(w.k)
    ensures ListensBeside(w, op) <==>
            exists n, g :: Opens(w, op, n, g) && !LeadsTo(w.k, n, g) && Answers(w.k, n, SOCK_STREAM)
  {
    if ListensBeside(w, op) {
      var n, g: nat, h: nat :| Opens(w, op, n, g) && h != g && ListensUnder(w.k, n, h);
      assert Listener(w.k, n, h);
      assert Opens(w, op, n, g) && !LeadsTo(w.k, n, g) && Answers(w.k, n, SOCK_STREAM);
    }
    if n, g: nat :| Opens(w, op, n, g) && !LeadsTo(w.k, n, g) && Answers(w.k, n, SOCK_STREAM) {
      var h := w.k.names[n].gen;
      assert LeadsTo(w.k, n, h);
      assert ListensUnder(w.k, n, h);
    }
  }

  lemma RobbedUnreachable(w: World, op: Op, n: UnixName)
    requires NamesOk(w.k) && n in Gone(w, op) && Answers(w.k, n, SOCK_STREAM)
    ensures !AllReachable(Step(w, op).k)
  {
    var g := w.k.names[n].gen;
    var s := w.socks[op.id];
    assert LeadsTo(w.k, n, g) && ListensUnder(w.k, n, g);
    StepMoves(w, op);
    BindHarmless(op.id, w.nextId, s, w.k, op.addr, op.bind);
    assert Step(w, op).k == Bind(op.id, w.nextId, s, w.k, op.addr, op.bind).k;
    hide Step, Bind, Gone, Heard;
    assert ListensUnder(Step(w, op).k, n, g) && !LeadsTo(Step(w, op).k, n, g);
  }

  /** A listen makes a Unix object reachable exactly if the name it was bound to still leads to it. */
  lemma ListenReachableExactly(w: World, op: Op, n: UnixName, g: nat)
    requires Inv(w) && NamesOk(w.k) && Opens(w, op, n, g)
    ensures Listener(Step(w, op).k, n, g) <==> LeadsTo(w.k, n, g)
  {
    HeldIsLive(w, op.id);
    ListenStep(w, op);
    hide Step, Inv;
  }

  lemma AwayUnreachable(w: World, op: Op, n: UnixName, g: nat)
    requires Inv(w) && NamesOk(w.k) && Opens(w, op, n, g) && !LeadsTo(w.k, n, g)
    ensures !AllReachable(Step(w, op).k)
  {
    hide Step, Inv, NamesOk, ListensUnder, Listener, Opens;
    OpensOne(w, op, n, g, n, g);
    ListenersAfterListen(w, op, n, g);
    ListenReachableExactly(w, op, n, g);
  }

  lemma StaysReachable(w: World, op: Op, n: UnixName, g: nat)
    requires NamesOk(w.k) && AllReachable(w.k) && !Robs(w, op) && !ListensAway(w, op)
    requires ListensUnder(Step(w, op).k, n, g)
    ensures Listener(Step(w, op).k, n, g)
  {
    ListensUnderStep(w, op, n, g);
    StepMoves(w, op);
    assert ListensUnder(w.k, n, g) ==> Listener(w.k, n, g);
    assert LeadsTo(w.k, n, g);
    hide Step, Gone;
    assert Listener(w.k, n, g) || Opens(w, op, n, g);
    if Opens(w, op, n, g) {
      OpensOne(w, op, n, g, n, g);
    }
  }

  /** A step keeps every listener reachable exactly if it unlinks no name at which somebody listens, and makes
      nobody listen whose name does not lead to it. */
  lemma StaysReachableExactly(w: World, op: Op)
    requires Inv(w) && NamesOk(w.k) && AllReachable(w.k)
    ensures AllReachable(Step(w, op).k) <==> !Robs(w, op) && !ListensAway(w, op)
  {
    hide Step, Inv, NamesOk, Opens, ListensUnder, Listener, LeadsTo;
    if n :| n in Gone(w, op) && Answers(w.k, n, SOCK_STREAM) {
      RobbedUnreachable(w, op, n);
    } else if n, g: nat :| Opens(w, op, n, g) && !LeadsTo(w.k, n, g) {
      AwayUnreachable(w, op, n, g);
    } else {
      forall n, g: nat | ListensUnder(Step(w, op).k, n, g) ensures Listener(Step(w, op).k, n, g) {
        StaysReachable(w, op, n, g);
      }
    }
  }

  lemma HealthyRobsNobody(w: World, op: Op)
    requires Healthy(w, op)
    ensures !Robs(w, op)
  {
    forall n | n in Gone(w, op) ensures !Answers(w.k, n, SOCK_STREAM) {
      HealthySpares(w, op, n);
    }
  }

  /** No step of the run takes a listener's name or makes an object listen whose name has left it. */
  ghost predicate OrderlyRun(w: World, ops: seq<Op>) {
    ops == [] ||
    (OrderlyRun(w, ops[..|ops| - 1]) &&
     var w1, op := Run(w, ops[..|ops| - 1]), ops[|ops| - 1];
     !Robs(w1, op) && !ListensAway(w1, op))
  }

  lemma {:induction false} OrderlyReachable(files: set<string>, ops: seq<Op>)
    requires OrderlyRun(Start(files), ops)
    ensures AllReachable(Reached(files, ops).k)
  {
    if ops == [] {
    } else {
      var before := ops[..|ops| - 1];
      OrderlyReachable(files, before);
      NamesAlwaysOk(files, before);
      ReachedInv(files, before);
      StaysReachableExactly(Reached(files, before), ops[|ops| - 1]);
      hide Step, Inv, NamesOk, AllReachable, Robs, ListensAway;
    }
  }

  /** In an orderly run every live listener is reachable at its name, and no two share one. In any run a name leads
      to one listener at most, and a listener is reached by one name at most. */
  lemma OneListenerPerPath(files: set<string>, ops: seq<Op>, n: UnixName, m: UnixName, g: nat, h: nat)
    ensures var k := Reached(files, ops).k;
            && (OrderlyRun(Start(files), ops) && ListensUnder(k, n, g) ==>
                  Listener(k, n, g) && (ListensUnder(k, n, h) ==> g == h))
            && (Listener(k, n, g) && Listener(k, m, h) ==> (n == m <==> g == h))
  {
    hide Reached, OrderlyRun;
    var k := Reached(files, ops).k;
    NamesAlwaysOk(files, ops);
    assert Listener(k, n, g) ==> LeadsTo(k, n, g);
    assert Listener(k, m, h) ==> LeadsTo(k, m, h);
    if OrderlyRun(Start(files), ops) {
      OrderlyReachable(files, ops);
    }
  }

  /** Whenever two live listeners share a name, a listen beside another listener began it. */
  lemma {:induction false} SharingBegins(files: set<string>, ops: seq<Op>) returns (i: nat)
    requires Shared(Reached(files, ops).k)
    ensures i < |ops| && !Shared(Reached(files, ops[..i]).k) && ListensBeside(Reached(files, ops[..i]), ops[i])
  {
    var n := |ops| - 1;
    if Shared(Reached(files, ops[..n]).k) {
      i := SharingBegins(files, ops[..n]);
      assert ops[..n][..i] == ops[..i];
    } else {
      NamesAlwaysOk(files, ops[..n]);
      ReachedInv(files, ops[..n]);
      SharingStepExactly(Reached(files, ops[..n]), ops[n]);
      i := n;
    }
    hide Step, Inv, NamesOk, Shared, ListensBeside;
  }

  // ---------- stale paths ----------

  /** The step makes somebody listen under this name. */
  ghost predicate OpensAt(w: World, op: Op, n: UnixName) {
    exists g :: Opens(w, op, n, g)
  }

  ghost predicate NobodyOpens(w: World, ops: seq<Op>, n: UnixName) {
    ops == [] ||
    (NobodyOpens(w, ops[..|ops| - 1], n) && !OpensAt(Run(w, ops[..|ops| - 1]), ops[|ops| - 1], n))
  }

  /** A path at which nobody can be reached stays so until somebody listens under it. */
  lemma {:induction false} StaysUnanswered(w: World, ops: seq<Op>, n: UnixName)
    requires NamesOk(w.k) && !Answers(w.k, n, SOCK_STREAM) && NobodyOpens(w, ops, n)
    ensures !Answers(Run(w, ops).k, n, SOCK_STREAM)
  {
    if ops == [] {
    } else {
      var before, op := ops[..|ops| - 1], ops[|ops| - 1];
      var w1 := Run(w, before);
      hide Step, Answers, NamesOk, Moves, OpensAt;
      StaysUnanswered(w, before, n);
      RunMoves(w, before);
      MovesMeans(w.k, w1.k, GoneIn(w, before), HeardIn(w, before), 0);
      if Answers(Step(w1, op).k, n, SOCK_STREAM) {
        AnswersStep(w1, op, n);
      }
    }
  }

  lemma AnswersStep(w: World, op: Op, n: UnixName)
    requires NamesOk(w.k) && Answers(Step(w, op).k, n, SOCK_STREAM)
    ensures Answers(w.k, n, SOCK_STREAM) || OpensAt(w, op, n)
  {
    var k' := Step(w, op).k;
    var g := k'.names[n].gen;
    StepMoves(w, op);
    assert LeadsTo(k', n, g) && ListensUnder(k', n, g);
    ListensUnderStep(w, op, n, g);
    hide Step;
  }

  /** Stale-path recovery: once the object listening at a path has closed, and however long after, as long as nobody
      else began to listen there, another Unix object can bind that path: the left-over entry is unlinked and
      replaced, even if the probe gets no descriptor. */
  lemma StalePathRecovery(
    files: set<string>, ops: seq<Op>, a: nat, rest: seq<Op>, b: nat, addr: Address, ans: BindAnswer)
    requires addr.UnixAddress? && NameOf(addr.data).Pathname?
    requires var w := Reached(files, ops);
             a in w.socks && w.socks[a].fd in w.k.open && Listener(w.k, NameOf(addr.data), w.k.open[w.socks[a].fd])
    requires var w1 := Step(Reached(files, ops), DoClose(a));
             var w2 := Run(w1, rest);
             && NobodyOpens(w1, rest, NameOf(addr.data))
             && b in w2.socks && Bindable(w2.socks[b], w2.k)
             && (w2.socks[b].fd == -1 ==> Usable(w2.k, ans.newFd)) && ans.unlinkOk && ans.ok
    ensures var w1 := Step(Reached(files, ops), DoClose(a));
            var w2 := Run(w1, rest);
            var o := Bind(b, w2.nextId, w2.socks[b], w2.k, addr, ans);
            && NameOf(addr.data) in w1.k.names
            && o.ok && o.s.local == Some(addr) && IsOpen(o.k, o.s.fd) && NameOf(addr.data) in o.k.names
            && o.k.names[NameOf(addr.data)] == SocketNode(o.k.open[o.s.fd])
  {
    var w := Reached(files, ops);
    var w1 := Step(w, DoClose(a));
    var w2 := Run(w1, rest);
    ReachedInv(files, ops);
    NamesAlwaysOk(files, ops);
    StepMoves(w, DoClose(a));
    CloseUnanswers(w, a, NameOf(addr.data));
    hide Inv, Moves, Step, Run, NobodyOpens, Answers, Bind, NameOf;
    StaysUnanswered(w1, rest, NameOf(addr.data));
    BindStartAnswers(b, w2.socks[b], w2.k, addr, ans, NameOf(addr.data));
    BindSucceedsExactly(b, w2.nextId, w2.socks[b], w2.k, addr, ans);
    hide BindStart;
  }

  lemma CloseUnanswers(w: World, a: nat, n: UnixName)
    requires Inv(w) && a in w.socks && w.socks[a].fd in w.k.open
    requires n.Pathname? && Listener(w.k, n, w.k.open[w.socks[a].fd])
    ensures !Answers(Step(w, DoClose(a)).k, n, SOCK_STREAM) && n in Step(w, DoClose(a)).k.names
  {
    assert Good(a, w.socks[a], w.k);
    assert Step(w, DoClose(a)).k == Close(a, w.socks[a], w.k).k;
  }
}
