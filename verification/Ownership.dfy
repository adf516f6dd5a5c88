/** Who owns which descriptor, over every run from the start. */
module Ownership {
  import opened Kernel
  import opened Monitor
  import opened Invariants
  import opened World

  /** The world after `ops`, from an empty one with the given files on disk. */
  function Reached(files: set<string>, ops: seq<Op>): World {
    Run(Start(files), ops)
  }

  lemma ReachedInv(files: set<string>, ops: seq<Op>)
    ensures Inv(Reached(files, ops))
  {
    StartInv(files);
    RunInv(Start(files), ops);
  }

  /** The generation in the field of a live object. */
  predicate Holds(w: World, id: nat, gen: nat) {
    id in w.socks && w.socks[id].fd != -1 && w.socks[id].fd in w.k.open && w.k.open[w.socks[id].fd] == gen
  }

  /** Entry `e` gives object `id` the number `fd` at generation `gen`. */
  predicate Obtains(m: View, e: Event, id: nat, fd: int, gen: nat) {
    e.id == id &&
    match e
    case SocketCall(_, _, f) => f == fd && fd != -1 && m.next == gen
    case InitCall(_, f, taken) => f == fd && taken && Points(m, fd, gen)
    case _ => false
  }

  ghost predicate ObtainsAt(t: seq<Event>, i: nat, id: nat, fd: int, gen: nat) {
    i < |t| && Obtains(Watch(t[..i]), t[i], id, fd, gen)
  }

  lemma ObtainedStep(m: View, e: Event, fd: int)
    requires fd in Observe(m, e).table && Observe(m, e).table[fd].holder.Owner?
    ensures var entry := Observe(m, e).table[fd];
            if fd in m.table && m.table[fd] == entry then !(e.CloseCall? && e.fd == fd)
            else Obtains(m, e, entry.holder.id, fd, entry.gen)
  {}

  /** The observer's owner of a number obtained it at that generation, and has not closed it since. */
  lemma {:induction false} OwnerObtained(t: seq<Event>, fd: int) returns (i: nat)
    requires Watch(t).ok && fd in Watch(t).table && Watch(t).table[fd].holder.Owner?
    ensures ObtainsAt(t, i, Watch(t).table[fd].holder.id, fd, Watch(t).table[fd].gen)
    ensures forall j :: i < j < |t| ==> !(t[j].CloseCall? && t[j].fd == fd)
  {
    var n := |t| - 1;
    var p, e := t[..n], t[n];
    ObtainedStep(Watch(p), e, fd);
    if fd in Watch(p).table && Watch(p).table[fd] == Watch(t).table[fd] {
      i := OwnerObtained(p, fd);
      assert t[..n][..i] == t[..i];
    } else {
      i := n;
    }
    hide Obtains, Observe;
  }

  /** Two live objects never hold the same number, however the kernel recycles numbers; what an object
      holds is open, at the generation the object itself obtained and has not closed since. */
  lemma ExclusiveOwnership(files: set<string>, ops: seq<Op>, a: nat) returns (i: nat)
    ensures var w := Reached(files, ops);
            a in w.socks && w.socks[a].fd != -1 ==>
              && IsOpen(w.k, w.socks[a].fd)
              && (forall b :: b in w.socks && b != a ==> w.socks[b].fd != w.socks[a].fd)
              && ObtainsAt(w.k.trace, i, a, w.socks[a].fd, w.k.open[w.socks[a].fd])
              && (forall j :: i < j < |w.k.trace| ==> !(w.k.trace[j].CloseCall? && w.k.trace[j].fd == w.socks[a].fd))
  {
    var w := Reached(files, ops);
    ReachedInv(files, ops);
    i := 0;
    if a in w.socks && w.socks[a].fd != -1 {
      assert Good(a, w.socks[a], w.k);
      i := OwnerObtained(w.k.trace, w.socks[a].fd);
      forall b | b in w.socks && b != a ensures w.socks[b].fd != w.socks[a].fd {
        assert Good(b, w.socks[b], w.k);
      }
    }
  }

  /** Successful socket(2) and accept(2) calls. */
  function OpenedCalls(t: seq<Event>): nat {
    if t == [] then 0
    else
      var e := t[|t| - 1];
      OpenedCalls(t[..|t| - 1]) + if (e.SocketCall? || e.AcceptCall?) && e.fd != -1 then 1 else 0
  }

  lemma {:induction false} NextCountsOpened(t: seq<Event>)
    requires Watch(t).ok
    ensures Watch(t).next == OpenedCalls(t)
  {
    if t == [] {
    } else {
      NextCountsOpened(t[..|t| - 1]);
    }
  }

  /** Conservation: every descriptor ever opened is in exactly one of three places: held by one live
      object, closed by one close call, or refused by one verdict of `init`. */
  lemma Conservation(files: set<string>, ops: seq<Op>, gen: nat)
    ensures var w := Reached(files, ops);
            var t := w.k.trace;
            && |w.k.gens| == OpenedCalls(t)
            && (gen < |w.k.gens| <==>
                (exists i :: ClosesAt(t, i, gen)) || (exists i :: RefusesAt(t, i, gen)) ||
                (exists id :: Holds(w, id, gen)))
            && !((exists i :: ClosesAt(t, i, gen)) && (exists i :: RefusesAt(t, i, gen)))
            && !((exists i :: ClosesAt(t, i, gen)) && (exists id :: Holds(w, id, gen)))
            && !((exists i :: RefusesAt(t, i, gen)) && (exists id :: Holds(w, id, gen)))
            && (forall i, j :: ClosesAt(t, i, gen) && ClosesAt(t, j, gen) ==> i == j)
            && (forall a, b :: Holds(w, a, gen) && Holds(w, b, gen) ==> a == b)
  {
    var w := Reached(files, ops);
    var t, m := w.k.trace, Watch(w.k.trace);
    ReachedInv(files, ops);
    NextCountsOpened(t);
    ClosedByOneCall(t, gen);
    DroppedByRefusal(t, gen);
    forall id | Holds(w, id, gen)
      ensures Mine(m, id, w.socks[id].fd) && gen !in m.closed && !IsDropped(m, gen) && gen < m.next
    {
      assert Good(id, w.socks[id], w.k);
    }
    if gen < m.next && gen !in m.closed && !IsDropped(m, gen) {
      var fd := CountedIsClosedOrOpen(t, gen);
      var id := m.table[fd].holder.id;
      assert Good(id, w.socks[id], w.k);
      assert Holds(w, id, gen);
    }
  }

  /** Destroying every object leaves open exactly the descriptors that `init` refused; objects that are
      gone, among them every temporary of bind, own nothing at any time. */
  lemma OnlyRefusedOutlive(files: set<string>, ops: seq<Op>, fd: int)
    ensures var w := Reached(files, ops);
            var m := Watch(w.k.trace);
            && (forall id :: id !in w.socks ==> !Mine(m, id, fd))
            && (w.socks == map[] && fd in w.k.open ==> exists i :: RefusesAt(w.k.trace, i, w.k.open[fd]))
            && (fd in w.k.open && (exists i :: RefusesAt(w.k.trace, i, w.k.open[fd])) ==> forall id :: !Mine(m, id, fd))
  {
    var w := Reached(files, ops);
    ReachedInv(files, ops);
    if fd in w.k.open {
      DroppedByRefusal(w.k.trace, w.k.open[fd]);
    }
  }

  /** Every close in the trace of a run targets a descriptor that is open and owned by its issuer. */
  lemma ClosesAreOwned(files: set<string>, ops: seq<Op>, i: nat)
    ensures var t := Reached(files, ops).k.trace;
            i < |t| && t[i].CloseCall? ==>
              var m := Watch(t[..i]);
              Mine(m, t[i].id, t[i].fd) && m.table[t[i].fd].gen !in m.closed &&
              forall j :: j != i ==> !ClosesAt(t, j, m.table[t[i].fd].gen)
  {
    var t := Reached(files, ops).k.trace;
    ReachedInv(files, ops);
    if i < |t| && t[i].CloseCall? {
      AcceptedEntry(t, i);
      AcceptedConsistent(t[..i]);
      ClosedByOneCall(t, Watch(t[..i]).table[t[i].fd].gen);
      assert ClosesAt(t, i, Watch(t[..i]).table[t[i].fd].gen);
    }
  }

  /** No call of any kind ever reaches a number that belongs to another object. */
  lemma CallsStayHome(files: set<string>, ops: seq<Op>, i: nat)
    ensures var t := Reached(files, ops).k.trace;
            i < |t| && (Plain(t[i]) || t[i].CloseCall?) && !t[i].UnlinkCall? && t[i].fd != -1 ==>
              Mine(Watch(t[..i]), t[i].id, t[i].fd)
  {
    ReachedInv(files, ops);
    if i < |Reached(files, ops).k.trace| {
      AcceptedEntry(Reached(files, ops).k.trace, i);
    }
  }
}
