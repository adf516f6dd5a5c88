/** What the descriptor manager knows, computed from the trace, and what follows for accept. */
module Manager {
  import opened Kernel
  import opened SocketSpec
  import opened Monitor
  import opened Invariants
  import opened World
  import opened Ownership

  /** The numbers that the descriptor manager holds a context for. A hooked socket(2) adds the number it got and a
      hooked close(2) removes its own; nothing else does either. `off` are the trace entries that were made while the
      hook was disabled. */
  function Known(t: seq<Event>, off: set<nat>): set<int> {
    if t == [] then {}
    else
      var n := |t| - 1;
      var before := Known(t[..n], off);
      match t[n]
      case SocketCall(_, _, fd) => if fd == -1 || n in off then before else before + {fd}
      case CloseCall(_, fd) => if n in off then before else before - {fd}
      case _ => before
  }

  /** Entry `i` is a socket(2) made with the hook enabled that got the number, and no close of the number after it was
      made with the hook enabled. */
  ghost predicate Registered(t: seq<Event>, off: set<nat>, i: nat, fd: int) {
    i < |t| && t[i].SocketCall? && t[i].fd == fd && fd != -1 && i !in off &&
    forall j :: i < j < |t| && t[j].CloseCall? && t[j].fd == fd ==> j in off
  }

  /** The manager knows a number exactly if it is registered by some entry. */
  lemma {:induction false} KnownExactly(t: seq<Event>, off: set<nat>, fd: int)
    ensures fd in Known(t, off) <==> exists i :: Registered(t, off, i, fd)
  {
    if t == [] {
    } else {
      var n := |t| - 1;
      var p := t[..n];
      KnownExactly(p, off, fd);
      if i: nat :| Registered(p, off, i, fd) && fd in Known(t, off) {
        assert Registered(t, off, i, fd);
      } else if t[n].SocketCall? && t[n].fd == fd && fd in Known(t, off) {
        assert Registered(t, off, n, fd);
      }
      if i: nat :| Registered(t, off, i, fd) && i < n {
        assert Registered(p, off, i, fd);
      }
    }
  }

  /** Entry `i` closed a registered number while the hook was disabled. */
  ghost predicate LeftBehind(t: seq<Event>, off: set<nat>, i: nat, fd: int) {
    i < |t| && t[i].CloseCall? && t[i].fd == fd && i in off && exists j: nat :: j < i && Registered(t, off, j, fd)
  }

  lemma {:induction false} ClosedSince(t: seq<Event>, j: nat, fd: int) returns (i: nat)
    requires j < |t| && t[j].SocketCall? && t[j].fd == fd && fd != -1
    requires Watch(t).ok && fd !in Watch(t).table
    ensures j < i < |t| && t[i].CloseCall? && t[i].fd == fd
  {
    var n := |t| - 1;
    var p := t[..n];
    if j == n {
      assert false;
    } else if fd in Watch(p).table {
      ClosesOnly(Watch(p), t[n], fd);
      i := n;
    } else {
      i := ClosedSince(p, j, fd);
    }
  }

  /** Of a number that is not open the manager knows exactly if it was left behind. */
  lemma KnownClosedExactly(t: seq<Event>, off: set<nat>, fd: int)
    requires Watch(t).ok && fd !in Watch(t).table
    ensures fd in Known(t, off) <==> exists i :: LeftBehind(t, off, i, fd)
  {
    KnownExactly(t, off, fd);
    if j: nat :| Registered(t, off, j, fd) {
      var i := ClosedSince(t, j, fd);
      assert LeftBehind(t, off, i, fd);
    }
    hide Known;
  }

  lemma ClosesOnly(m: View, e: Event, fd: int)
    requires Allowed(m, e) && fd in m.table && fd !in Observe(m, e).table
    ensures e.CloseCall? && e.fd == fd
  {}

  /** The kernel has a connection for this listener. */
  predicate Offered(w: World, id: nat, a: AcceptAnswer) {
    id in w.socks && Usable(w.k, a.newFd) && IsOpen(w.k, w.socks[id].fd) &&
    w.k.gens[w.k.open[w.socks[id].fd]].listening
  }

  /** When `init` gets the manager's true answer, accept returns an object exactly if there is a connection and its
      number was left behind by a close with the hook disabled. With the hook enabled all along none ever does. */
  lemma AcceptsExactly(files: set<string>, ops: seq<Op>, off: set<nat>, id: nat, a: AcceptAnswer)
    requires var w := Reached(files, ops);
             id in w.socks && (a.registered <==> a.newFd in Known(w.k.trace, off))
    ensures var w := Reached(files, ops);
            var o := Accept(id, w.nextId, w.socks[id], w.k, a);
            && (o.ok <==> Offered(w, id, a) && exists i :: LeftBehind(w.k.trace, off, i, a.newFd))
            && (off == {} ==> !o.ok)
  {
    var w := Reached(files, ops);
    ReachedInv(files, ops);
    assert Linked(w.k);
    hide Inv, Reached, LeftBehind;
    if Usable(w.k, a.newFd) {
      KnownClosedExactly(w.k.trace, off, a.newFd);
    }
    NoneLeftBehind(w.k.trace, a.newFd);
    hide Linked;
  }

  lemma NoneLeftBehind(t: seq<Event>, fd: int)
    ensures !exists i :: LeftBehind(t, {}, i, fd)
  {}

  /** A number whose descriptor `init` refused. */
  predicate Refused(m: View, fd: int, gen: nat) {
    fd in m.table && m.table[fd].gen == gen && m.table[fd].holder == Dropped
  }

  lemma ObserveRefusal(m: View, id: nat, nid: nat, on: int, fd: int)
    requires on in m.table && fd !in m.table && fd != -1
    ensures Refused(Observe(Observe(Observe(m, AcceptCall(id, on, fd)), InitCall(nid, fd, false)), CloseRequest(nid)),
                    fd, m.next)
  {}

  lemma RefusalSeen(id: nat, nid: nat, s: Sock, k: State, a: AcceptAnswer)
    requires s.fd in Watch(k.trace).table && a.newFd !in Watch(k.trace).table && !a.registered
    requires Usable(k, a.newFd) && IsOpen(k, s.fd) && k.gens[k.open[s.fd]].listening
    ensures Refused(Watch(Accept(id, nid, s, k, a).k.trace), a.newFd, Watch(k.trace).next)
  {
    var t, fd := k.trace, a.newFd;
    var t1 := t + [AcceptCall(id, s.fd, fd)];
    var t2 := t1 + [InitCall(nid, fd, false)];
    assert Accept(id, nid, s, k, a).k.trace == t2 + [CloseRequest(nid)];
    WatchOne(t, AcceptCall(id, s.fd, fd));
    WatchOne(t1, InitCall(nid, fd, false));
    WatchOne(t2, CloseRequest(nid));
    hide Watch, Observe, Accept, Refused;
    ObserveRefusal(Watch(t), id, nid, s.fd, fd);
  }

  lemma RefusedStep(w: World, op: Op, fd: int, gen: nat)
    requires Inv(w) && Refused(Watch(w.k.trace), fd, gen)
    ensures Refused(Watch(Step(w, op).k.trace), fd, gen)
  {
    StepActs(w, op);
    hide Inv, Step, Watch;
  }

  lemma {:induction false} RefusedRun(w: World, rest: seq<Op>, fd: int, gen: nat)
    requires Inv(w) && Refused(Watch(w.k.trace), fd, gen)
    ensures Inv(Run(w, rest)) && Refused(Watch(Run(w, rest).k.trace), fd, gen)
  {
    if rest == [] {
    } else {
      hide Inv, Step, Watch, Refused;
      var w1, op := Run(w, rest[..|rest| - 1]), rest[|rest| - 1];
      RefusedRun(w, rest[..|rest| - 1], fd, gen);
      RefusedStep(w1, op, fd, gen);
      StepInv(w1, op);
    }
  }

  lemma RefusedIsOpen(w: World, fd: int, gen: nat)
    requires Inv(w) && Refused(Watch(w.k.trace), fd, gen)
    ensures IsOpen(w.k, fd) && w.k.open[fd] == gen && w.k.gens[gen].alive
    ensures forall id :: id in w.socks ==> w.socks[id].fd != fd
  {
    assert Linked(w.k);
    forall id | id in w.socks ensures w.socks[id].fd != fd {
      assert Good(id, w.socks[id], w.k);
    }
  }

  /** A connection that `init` refuses leaves its descriptor open for good: after any further run the number still
      stands for it, and no object holds it. */
  lemma RefusedForGood(files: set<string>, ops: seq<Op>, id: nat, a: AcceptAnswer, rest: seq<Op>)
    requires Offered(Reached(files, ops), id, a) && !a.registered
    ensures var w := Reached(files, ops);
            var w' := Run(Step(w, DoAccept(id, a)), rest);
            && IsOpen(w'.k, a.newFd) && w'.k.open[a.newFd] == |w.k.gens| && w'.k.gens[|w.k.gens|].alive
            && forall b :: b in w'.socks ==> w'.socks[b].fd != a.newFd
  {
    var w, op := Reached(files, ops), DoAccept(id, a);
    var w1 := Step(w, op);
    ReachedInv(files, ops);
    assert Linked(w.k);
    assert w.socks[id].fd in Watch(w.k.trace).table && a.newFd !in Watch(w.k.trace).table;
    RefusalSeen(id, w.nextId, w.socks[id], w.k, a);
    assert w1.k == Accept(id, w.nextId, w.socks[id], w.k, a).k;
    assert Watch(w.k.trace).next == |w.k.gens|;
    hide Inv, Linked, Step, Watch, Refused, Accept, Reached;
    StepInv(w, op);
    RefusedRun(w1, rest, a.newFd, |w.k.gens|);
    RefusedIsOpen(Run(w1, rest), a.newFd, |w.k.gens|);
  }
}
