/** A reference observer that knows nothing of Socket: it reads a trace, counts generations, and keeps
    for every open number its generation and holder. `ok` turns false for good at the first call
    that is issued on a descriptor its issuer does not own. */
module Monitor {
  import opened Addresses
  import opened Kernel

  datatype Holder = Owner(id: nat) | Pending | Dropped

  datatype Entry = Entry(gen: nat, typ: int, holder: Holder)

  /** `est`: generations that succeeded in connecting or were taken over by `init`;
      `udp`: objects marked by a UDP factory and not closed since. */
  datatype View = View(
    table: map<int, Entry>,
    next: nat,
    closed: set<nat>,
    est: set<nat>,
    udp: set<nat>,
    ok: bool)

  predicate Mine(m: View, id: nat, fd: int) {
    fd in m.table && m.table[fd].holder == Owner(id)
  }

  predicate HoldsNone(m: View, id: nat) {
    forall fd :: fd in m.table ==> m.table[fd].holder != Owner(id)
  }

  function Add(m: View, fd: int, typ: int, holder: Holder): View {
    m.(table := m.table[fd := Entry(m.next, typ, holder)], next := m.next + 1)
  }

  predicate MayTransfer(m: View, id: nat, fd: int) {
    if fd == -1 then id in m.udp
    else Mine(m, id, fd) && (m.table[fd].gen in m.est || (id in m.udp && m.table[fd].typ == SOCK_DGRAM))
  }

  predicate Allowed(m: View, e: Event) {
    match e
    case SocketCall(id, _, fd) => fd == -1 || (fd >= 0 && fd !in m.table && HoldsNone(m, id))
    case AcceptCall(id, on, fd) => fd == -1 || (fd >= 0 && fd !in m.table && Mine(m, id, on))
    case InitCall(id, fd, _) => fd in m.table && m.table[fd].holder == Pending && HoldsNone(m, id)
    case ConnectCall(id, fd, _) => Mine(m, id, fd)
    case BindCall(id, fd, _) => Mine(m, id, fd)
    case ListenCall(id, fd, _) => Mine(m, id, fd)
    case NameCall(id, fd, answer) => Mine(m, id, fd) || (fd == -1 && answer.None?)
    case PeerCall(id, fd, answer) => Mine(m, id, fd) || (fd == -1 && answer.None?)
    case TransferCall(id, fd) => MayTransfer(m, id, fd)
    case CloseCall(id, fd) => Mine(m, id, fd)
    case _ => true
  }

  function Update(m: View, e: Event): View {
    match e
    case SocketCall(id, typ, fd) => if fd == -1 then m else Add(m, fd, typ, Owner(id))
    case AcceptCall(_, on, fd) => if fd == -1 || on !in m.table then m else Add(m, fd, m.table[on].typ, Pending)
    case InitCall(id, fd, taken) =>
      if fd !in m.table then m
      else
        var entry := m.table[fd];
        if taken then m.(table := m.table[fd := entry.(holder := Owner(id))], est := m.est + {entry.gen})
        else m.(table := m.table[fd := entry.(holder := Dropped)])
    case ConnectCall(_, fd, ok) => if ok && fd in m.table then m.(est := m.est + {m.table[fd].gen}) else m
    case CloseCall(_, fd) =>
      if fd in m.table then m.(table := m.table - {fd}, closed := m.closed + {m.table[fd].gen}) else m
    case CloseRequest(id) => m.(udp := m.udp - {id})
    case UdpMark(id) => m.(udp := m.udp + {id})
    case _ => m
  }

  function Observe(m: View, e: Event): View {
    Update(m, e).(ok := m.ok && Allowed(m, e))
  }

  function Watch(t: seq<Event>): View {
    if t == [] then View(map[], 0, {}, {}, {}, true) else Observe(Watch(t[..|t| - 1]), t[|t| - 1])
  }

  lemma WatchOne(t: seq<Event>, e: Event)
    ensures Watch(t + [e]) == Observe(Watch(t), e)
  {
    assert (t + [e])[..|t + [e]| - 1] == t;
  }

  /** What an accepted trace keeps: numbers are non-negative, open generations are distinct and not
      closed, and every generation counted so far is either closed or open. */
  ghost predicate Consistent(m: View) {
    && (forall fd :: fd in m.table ==> fd >= 0 && m.table[fd].gen < m.next && m.table[fd].gen !in m.closed)
    && (forall f, g :: f in m.table && g in m.table && m.table[f].gen == m.table[g].gen ==> f == g)
    && (forall g :: g in m.closed ==> g < m.next)
    && (forall g :: g in m.est ==> g < m.next)
  }

  lemma AddConsistent(m: View, fd: int, typ: int, holder: Holder)
    requires Consistent(m) && fd >= 0 && fd !in m.table
    ensures Consistent(Add(m, fd, typ, holder))
  {}

  lemma ObserveConsistent(m: View, e: Event)
    requires Consistent(m) && m.ok && Allowed(m, e)
    ensures Consistent(Observe(m, e))
  {
    if e.SocketCall? && e.fd != -1 {
      AddConsistent(m, e.fd, e.typ, Owner(e.id));
      hide Add;
    } else if e.AcceptCall? && e.fd != -1 {
      AddConsistent(m, e.fd, m.table[e.on].typ, Pending);
      hide Add;
    }
  }

  lemma {:induction false} AcceptedConsistent(t: seq<Event>)
    requires Watch(t).ok
    ensures Consistent(Watch(t))
  {
    if t == [] {
    } else {
      AcceptedConsistent(t[..|t| - 1]);
      ObserveConsistent(Watch(t[..|t| - 1]), t[|t| - 1]);
    }
  }

  /** Acceptance of a trace is acceptance of each of its entries at its moment. */
  lemma {:induction false} AcceptedEntry(t: seq<Event>, i: nat)
    requires Watch(t).ok && i < |t|
    ensures Watch(t[..i]).ok && Allowed(Watch(t[..i]), t[i])
  {
    if i == |t| - 1 {
    } else {
      AcceptedEntry(t[..|t| - 1], i);
      assert t[..|t| - 1][..i] == t[..i];
    }
  }

  /** The number `fd` stands for generation `gen`. */
  predicate Points(m: View, fd: int, gen: nat) {
    fd in m.table && m.table[fd].gen == gen
  }

  predicate Closes(m: View, e: Event, gen: nat) {
    e.CloseCall? && Points(m, e.fd, gen)
  }

  /** A successful connect or a taking `init`. */
  predicate Establishes(m: View, e: Event, gen: nat) {
    ((e.ConnectCall? && e.ok) || (e.InitCall? && e.taken)) && Points(m, e.fd, gen)
  }

  predicate Refuses(m: View, e: Event, gen: nat) {
    e.InitCall? && !e.taken && Points(m, e.fd, gen)
  }

  /** Entry `i` of the trace does so at its moment. */
  ghost predicate ClosesAt(t: seq<Event>, i: nat, gen: nat) {
    i < |t| && Closes(Watch(t[..i]), t[i], gen)
  }

  ghost predicate EstablishesAt(t: seq<Event>, i: nat, gen: nat) {
    i < |t| && Establishes(Watch(t[..i]), t[i], gen)
  }

  ghost predicate RefusesAt(t: seq<Event>, i: nat, gen: nat) {
    i < |t| && Refuses(Watch(t[..i]), t[i], gen)
  }

  lemma AtPrefix(t: seq<Event>, n: nat, i: nat, gen: nat)
    requires i < n <= |t|
    ensures ClosesAt(t[..n], i, gen) == ClosesAt(t, i, gen)
    ensures EstablishesAt(t[..n], i, gen) == EstablishesAt(t, i, gen)
    ensures RefusesAt(t[..n], i, gen) == RefusesAt(t, i, gen)
  {
    assert t[..n][..i] == t[..i] && t[..n][i] == t[i];
  }

  lemma ClosedStep(m: View, e: Event, gen: nat)
    requires Consistent(m)
    ensures gen in Observe(m, e).closed <==> gen in m.closed || Closes(m, e, gen)
    ensures !(gen in m.closed && Closes(m, e, gen))
  {}

  lemma {:induction false} ClosedBySomeCall(t: seq<Event>, gen: nat)
    requires Watch(t).ok
    ensures gen in Watch(t).closed <==> exists i :: ClosesAt(t, i, gen)
  {
    if t == [] {
    } else {
      var n := |t| - 1;
      var p := t[..n];
      ClosedBySomeCall(p, gen);
      AcceptedConsistent(p);
      ClosedStep(Watch(p), t[n], gen);
      forall i: nat | i < n ensures ClosesAt(t, i, gen) == ClosesAt(p, i, gen) {
        AtPrefix(t, n, i, gen);
      }
      hide Closes, Observe, Consistent;
      if gen in Watch(p).closed {
        var i :| ClosesAt(p, i, gen);
        assert ClosesAt(t, i, gen);
      } else if gen in Watch(t).closed {
        assert ClosesAt(t, n, gen);
      }
    }
  }

  lemma NotClosedAgain(t: seq<Event>, i: nat, j: nat, gen: nat)
    requires Watch(t).ok && i < j < |t| && ClosesAt(t, i, gen)
    ensures !ClosesAt(t, j, gen)
  {
    AcceptedEntry(t, j);
    AcceptedConsistent(t[..j]);
    AtPrefix(t, j, i, gen);
    ClosedBySomeCall(t[..j], gen);
    ClosedStep(Watch(t[..j]), t[j], gen);
  }

  /** In an accepted trace a generation is closed exactly if one close call hits it, and no two do. */
  lemma ClosedByOneCall(t: seq<Event>, gen: nat)
    requires Watch(t).ok
    ensures gen in Watch(t).closed <==> exists i :: ClosesAt(t, i, gen)
    ensures forall i, j :: ClosesAt(t, i, gen) && ClosesAt(t, j, gen) ==> i == j
  {
    ClosedBySomeCall(t, gen);
    forall i, j | ClosesAt(t, i, gen) && ClosesAt(t, j, gen) && i < j ensures false {
      NotClosedAgain(t, i, j, gen);
    }
    hide ClosesAt, Watch;
  }

  lemma EstablishedStep(m: View, e: Event, gen: nat)
    ensures gen in Observe(m, e).est <==> gen in m.est || Establishes(m, e, gen)
  {}

  /** An established generation is one that a successful connect or a taking `init` hit. */
  lemma {:induction false} EstablishedByCall(t: seq<Event>, gen: nat)
    ensures gen in Watch(t).est <==> exists i :: EstablishesAt(t, i, gen)
  {
    if t == [] {
    } else {
      var n := |t| - 1;
      var p := t[..n];
      EstablishedByCall(p, gen);
      EstablishedStep(Watch(p), t[n], gen);
      forall i: nat | i < n ensures EstablishesAt(t, i, gen) == EstablishesAt(p, i, gen) {
        AtPrefix(t, n, i, gen);
      }
      hide Establishes, Observe;
      if gen in Watch(p).est {
        var i :| EstablishesAt(p, i, gen);
        assert EstablishesAt(t, i, gen);
      } else if gen in Watch(t).est {
        assert EstablishesAt(t, n, gen);
      }
    }
  }

  ghost predicate IsDropped(m: View, gen: nat) {
    exists fd :: fd in m.table && m.table[fd].gen == gen && m.table[fd].holder == Dropped
  }

  lemma DroppedStep(m: View, e: Event, gen: nat)
    requires Consistent(m) && Allowed(m, e)
    ensures IsDropped(Observe(m, e), gen) <==> IsDropped(m, gen) || Refuses(m, e, gen)
  {
    var m' := Observe(m, e);
    if IsDropped(m, gen) {
      var fd :| fd in m.table && m.table[fd].gen == gen && m.table[fd].holder == Dropped;
      assert fd in m'.table && m'.table[fd] == m.table[fd];
    } else if Refuses(m, e, gen) {
      assert m'.table[e.fd].holder == Dropped;
    }
  }

  /** The dropped descriptors of an accepted trace are exactly those that `init` refused. */
  lemma {:induction false} DroppedByRefusal(t: seq<Event>, gen: nat)
    requires Watch(t).ok
    ensures IsDropped(Watch(t), gen) <==> exists i :: RefusesAt(t, i, gen)
  {
    if t == [] {
    } else {
      var n := |t| - 1;
      var p := t[..n];
      DroppedByRefusal(p, gen);
      AcceptedConsistent(p);
      DroppedStep(Watch(p), t[n], gen);
      forall i: nat | i < n ensures RefusesAt(t, i, gen) == RefusesAt(p, i, gen) {
        AtPrefix(t, n, i, gen);
      }
      hide Refuses, Observe, Consistent, IsDropped;
      if IsDropped(Watch(p), gen) {
        var i :| RefusesAt(p, i, gen);
        assert RefusesAt(t, i, gen);
      } else if IsDropped(Watch(t), gen) {
        assert RefusesAt(t, n, gen);
      }
    }
  }

  /** Every generation counted in an accepted trace is closed or still open. */
  lemma {:induction false} CountedIsClosedOrOpen(t: seq<Event>, gen: nat) returns (fd: int)
    requires Watch(t).ok && gen < Watch(t).next && gen !in Watch(t).closed
    ensures fd in Watch(t).table && Watch(t).table[fd].gen == gen
  {
    var p, e := t[..|t| - 1], t[|t| - 1];
    if gen < Watch(p).next {
      fd := CountedIsClosedOrOpen(p, gen);
    } else {
      fd := e.fd;
    }
  }
}
