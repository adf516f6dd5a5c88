/** What the two address caches of an object should hold, computed from the trace alone. */
module History {
  import opened Addresses
  import opened Kernel

  /** `agrees`: the local address was filled by a query, and since then nothing happened that could
      change the name of the descriptor it was asked from; or a bind recorded it and left the kernel nothing
      to choose. `named`: the descriptor was bound, connected or accepted, or has a port, so that listening and
      transferring leave its name alone. */
  datatype Cache = Cache(local: Option<Address>, remote: Option<Address>, agrees: bool, named: bool)

  /** The recorded address is the one that its bytes alone would give, and fixes a name. */
  predicate Exact(local: Option<Address>, family: int) {
    local.Some? && local.value == Wrap(family, local.value.data) && Fixes(family, local.value.data)
  }

  /** What a call does that lets the kernel name an internet socket. */
  function MayRename(c: Cache, family: int): Cache {
    if family == AF_UNIX then c else c.(agrees := false)
  }

  function CacheStep(c: Cache, id: nat, family: int, e: Event): Cache {
    if e.id != id then c
    else
      match e
      case BindRequest(_, addr) => c.(local := Some(addr), agrees := false)
      case ReconnectRequest(_) => if c.remote.Some? then c.(local := None, agrees := false) else c
      case ConnectRequest(_, addr) => c.(remote := Some(addr))
      case NameCall(_, _, Some(data)) =>
        if c.local.Some? then c
        else c.(local := Some(Wrap(family, data)), agrees := true, named := c.named || HasPort(data))
      case PeerCall(_, _, Some(data)) =>
        if c.remote.None? then c.(remote := Some(Wrap(family, data))) else c
      case InitCall(_, _, true) => c.(named := true)
      case BindCall(_, _, true) => c.(agrees := Exact(c.local, family), named := true)
      case ConnectCall(_, _, true) => MayRename(c, family).(named := true)
      case ListenCall(_, _, true) => if c.named then c else MayRename(c, family)
      case TransferCall(_, _) => if c.named then c else MayRename(c, family)
      case CloseCall(_, _) => c.(agrees := false, named := false)
      case _ => c
  }

  function CacheOf(t: seq<Event>, id: nat, family: int): Cache {
    if t == [] then Cache(None, None, false, false)
    else CacheStep(CacheOf(t[..|t| - 1], id, family), id, family, t[|t| - 1])
  }

  lemma CacheOne(t: seq<Event>, id: nat, family: int, e: Event)
    ensures CacheOf(t + [e], id, family) == CacheStep(CacheOf(t, id, family), id, family, e)
  {
    assert (t + [e])[..|t + [e]| - 1] == t;
  }

  /** Entries of other objects do not matter. */
  lemma {:induction false} CacheSkips(t: seq<Event>, n: nat, id: nat, family: int)
    requires n <= |t| && forall i :: n <= i < |t| ==> t[i].id != id
    ensures CacheOf(t, id, family) == CacheOf(t[..n], id, family)
  {
    if n < |t| {
      CacheSkips(t[..|t| - 1], n, id, family);
      assert t[..|t| - 1][..n] == t[..n];
    } else {
      assert t[..n] == t;
    }
  }

  /** The argument of the latest connect of object `id`. */
  function LastConnect(t: seq<Event>, id: nat): Option<Address> {
    if t == [] then None
    else
      var e := t[|t| - 1];
      if e.ConnectRequest? && e.id == id then Some(e.addr) else LastConnect(t[..|t| - 1], id)
  }

  /** The first peer name that the kernel gave to object `id`. */
  function FirstPeer(t: seq<Event>, id: nat): Option<string> {
    if t == [] then None
    else
      var before := FirstPeer(t[..|t| - 1], id);
      var e := t[|t| - 1];
      if before.None? && e.PeerCall? && e.id == id then e.answer else before
  }

  /** Closed form of the remote address. */
  lemma {:induction false} RemoteIsLastConnectElseFirstPeer(t: seq<Event>, id: nat, family: int)
    ensures CacheOf(t, id, family).remote ==
            if LastConnect(t, id).Some? then LastConnect(t, id)
            else if FirstPeer(t, id).Some? then Some(Wrap(family, FirstPeer(t, id).value))
            else None
  {
    if t == [] {
    } else {
      RemoteIsLastConnectElseFirstPeer(t[..|t| - 1], id, family);
    }
  }
}
