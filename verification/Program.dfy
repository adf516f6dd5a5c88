/** A program over Socket objects: it calls the methods of the class, and refines the world of values. */
module Programs {
  import Spec = SocketSpec
  import opened World
  import opened Sockets
  import opened Ownership

  class Program {
    const system: System
    var sockets: map<nat, Socket>
    var nextId: nat

    ghost predicate Valid()
      reads this, sockets.Values
    {
      forall id :: id in sockets ==> id < nextId && sockets[id].id == id && sockets[id].system == system
    }

    /** The fields of every live object. */
    function Socks(): map<nat, Spec.Sock>
      reads this`sockets, sockets.Values
    {
      map id | id in sockets :: sockets[id].Fields()
    }

    function View(): World
      reads this, system, sockets.Values
    {
      World(system.state, Socks(), nextId)
    }

    constructor (files: set<string>)
      ensures Valid() && View() == Start(files) && fresh(system) && fresh(sockets.Values)
    {
      system := new System(files);
      sockets := map[];
      nextId := 0;
    }

    /** One operation; an identity that is not in use is ignored. */
    method Do(op: Op)
      requires Valid()
      modifies this, system, sockets.Values
      ensures Valid() && View() == Step(old(View()), op)
      ensures fresh(sockets.Values - old(sockets.Values))
    {
      if op.DoCreate? || op.DoCreateUdp? {
        Create(op);
      } else if op.id in sockets {
        if op.DoAccept? {
          Accept(op);
        } else {
          Act(op);
        }
      }
    }

    method Create(op: Op)
      requires Valid() && (op.DoCreate? || op.DoCreateUdp?)
      modifies this, system
      ensures Valid() && View() == Step(old(View()), op)
      ensures fresh(sockets.Values - old(sockets.Values))
    {
      hide Spec.CreateUdp, StepOn;
      var s: Socket;
      if op.DoCreate? {
        s := new Socket(system, nextId, op.family, op.typ);
      } else {
        s := CreateUDPSocket(system, nextId, op.v6, op.newFd);
      }
      Keep(s);
    }

    method Accept(op: Op)
      requires Valid() && op.DoAccept? && op.id in sockets
      modifies this, system
      ensures Valid() && View() == Step(old(View()), op)
      ensures fresh(sockets.Values - old(sockets.Values))
    {
      hide Spec.Accept, Spec.CreateUdp, Apply;
      var conn := sockets[op.id].Accept(nextId, op.acc);
      if conn != null {
        Keep(conn);
      } else {
        nextId := nextId + 1;
        assert Socks() == old(Socks())[op.id := old(Socks())[op.id]];
      }
    }

    /** The object that spends the next identity is among the live ones from now on. */
    method Keep(s: Socket)
      requires Valid() && s.id == nextId && s.system == system
      modifies this
      ensures Valid() && nextId == old(nextId) + 1
      ensures sockets == old(sockets)[s.id := s] && sockets.Values <= old(sockets.Values) + {s}
      ensures Socks() == old(Socks())[s.id := s.Fields()]
    {
      sockets := sockets[nextId := s];
      nextId := nextId + 1;
    }

    method Act(op: Op)
      requires Valid() && !op.DoCreate? && !op.DoCreateUdp? && !op.DoAccept? && op.id in sockets
      modifies this, system, sockets.Values
      ensures Valid() && View() == Step(old(View()), op)
      ensures fresh(sockets.Values - old(sockets.Values))
    {
      hide Apply, Spec.Accept, Spec.CreateUdp, Spec.Fresh;
      CallOn(op);
      if op.DoDestroy? {
        Drop(op.id);
        assert Socks() == old(Socks()) - {op.id};
      }
      nextId := nextId + 1;
    }

    method Drop(id: nat)
      requires Valid()
      modifies this`sockets
      ensures Valid() && sockets == old(sockets) - {id} && sockets.Values <= old(sockets.Values)
      ensures Socks() == old(Socks()) - {id}
    {
      sockets := sockets - {id};
    }

    /** The method call on the object that the operation names, and on no other. */
    method CallOn(op: Op)
      requires Valid() && !op.DoCreate? && !op.DoCreateUdp? && !op.DoAccept? && op.id in sockets
      modifies system, sockets.Values
      ensures Valid()
      ensures var r := Apply(op, nextId, old(Socks())[op.id], old(system.state));
              Socks() == old(Socks())[op.id := r.0] && system.state == r.1
    {
      hide Apply;
      Call(sockets[op.id], op);
    }

    /** The method call that an operation stands for. */
    method Call(s: Socket, op: Op)
      requires !op.DoCreate? && !op.DoCreateUdp? && !op.DoAccept? && s.id == op.id && s.system == system
      modifies s, system
      ensures (s.Fields(), system.state) == Apply(op, nextId, old(s.Fields()), old(system.state))
    {
      match op
      case DoBind(_, addr, a) => var _ := s.Bind(addr, nextId, a);
      case DoConnect(_, addr, timeout, a) => var _ := s.Connect(addr, timeout, a);
      case DoReconnect(_, timeout, a) => var _ := s.Reconnect(timeout, a);
      case DoListen(_, ok, name) => var _ := s.Listen(ok, name);
      case DoClose(_) => var _ := s.Close();
      case DoDestroy(_) => var _ := s.Close();
      case DoGetLocal(_, ok) => var _ := s.GetLocalAddress(ok);
      case DoGetRemote(_, ok) => var _ := s.GetRemoteAddress(ok);
      case DoTransfer(_, name, count) => var _ := s.Transfer(name, count);
    }

    /** Any sequence of operations does to the objects what Run does to their values. */
    method DoAll(ops: seq<Op>)
      requires Valid()
      modifies this, system, sockets.Values
      ensures Valid() && View() == Run(old(View()), ops)
      ensures fresh(sockets.Values - old(sockets.Values))
    {
      for i := 0 to |ops|
        invariant Valid() && View() == Run(old(View()), ops[..i])
        invariant fresh(sockets.Values - old(sockets.Values))
      {
        RunOne(old(View()), ops[..i], ops[i]);
        assert ops[..i + 1] == ops[..i] + [ops[i]];
        Do(ops[i]);
      }
      assert ops[..|ops|] == ops;
    }
  }

  /** Whatever the lemmas say of every reached world, they say of the objects after these calls. */
  method Execute(files: set<string>, ops: seq<Op>) returns (p: Program)
    ensures fresh(p) && p.Valid() && p.View() == Reached(files, ops)
  {
    p := new Program(files);
    p.DoAll(ops);
  }
}
