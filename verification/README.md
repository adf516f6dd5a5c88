# Socket lifecycle: a verified model of src/socket.cc

`Socket` wraps a kernel descriptor in four mutable fields: the number, a connected flag, and two lazily
cached addresses. Its methods stop at different points when a system call fails and leave different
partial states behind. This project models any number of `Socket` objects over one kernel that recycles
descriptor numbers, and proves what every sequence of whole operations keeps.

## How it is built

- `Addresses.dfy`, `Kernel.dfy`: addresses as bytes, and the operating system as far as the code can tell.
  Each descriptor ever made has a generation, so reuse of a number is visible. The name table of Unix
  addresses outlives the sockets bound in it. Every choice the kernel is free to make (which number, success
  or failure, which name) is an argument, and the theorems hold for all of them. The kernel keeps a trace of
  system calls and method calls.
- `SocketSpec.dfy`: each method as a function on (object, kernel). `Socket.dfy`: the class with its
  fields, early assignments, early returns, temporary probe object and destructor calls, each method proved
  to do what its function says. `World.dfy` and `Program.dfy`: many objects, arbitrary operation sequences,
  on values and on objects; `Programs.Execute` ties the two, so every theorem about a reached world
  speaks about the objects.
- `Monitor.dfy`, `History.dfy` and `Manager.Known`: references that know nothing of `Socket` and read only the
  trace. The first decides who owns which number and accepts or rejects each call, the second computes what the
  address caches should hold, the third what the descriptor manager knows.
- `Invariants.dfy`, `Operations.dfy`, `World.dfy`: one inductive invariant, one trace entry at a time, then
  one operation at a time, then for all runs. An object that does not act keeps its invariant because the
  acting one touches only what it owns.
- `Names.dfy`: the same for the name table, in one statement about every step and every run
  (`Names.StepMoves`, `Names.RunMoves`) from which the results about Unix names are read off.
- `Ownership.dfy`, `Flags.dfy`, `Caches.dfy`, `Agreement.dfy`, `Outcomes.dfy`, `Paths.dfy`, `Listeners.dfy`,
  `PathRuns.dfy`, `Runs.dfy`, `StaleRuns.dfy`, `Timeouts.dfy`: the results. `Outcomes.dfy` says of every method
  what it answers and leaves, in terms of the state before it.

`files` is the set of file names on disk at the start and `ops` the operations performed; `Reached(files,
ops)` is the world after them. `dafny verify --verification-time-limit 0 dfyconfig.toml` covers all files.

## What came out

- A descriptor is always in exactly one of three places: in one live object, closed by one call, or dropped
  because `init` refused it. The dropped ones are never closed by anybody.
- A bind to a Unix path spares a live listener if the probe gets a descriptor and the kernel takes the
  connection. `PathRuns.ProbeFailureRun` loses a live listener's path without the first; the guard in
  `Paths.BindTakesPathExactly` shows that both are needed.
- For an abstract address the probe and the unlink look at different names, because `getPath` renders the
  leading NUL as a backslash and a zero. `PathRuns.AbstractCollisionRun` removes an unrelated listener's file.
- Exactly when a name is lost over a whole run is `Paths.ListenersKeepTheirPath`: a bind of the run unlinked it, or
  the owner closed the listener. `Paths.BindTakesPathExactly` gives the guard of the one bind, for stream and
  datagram sockets alike.
- Two live listeners may carry the same path although every bind was healthy (`PathRuns.TwoListenersRun`): both
  bound it before either listened. `Listeners.SharingStepExactly` names the one kind of step that brings this
  about, a listen beside another listener, and `Listeners.StaysReachableExactly` the two guards under which a
  step leaves every listener reachable. A run that meets them never has two listeners at one name.
- A live datagram socket is not protected by the trial connection at all (`Paths.DatagramPathIsTaken`,
  `PathRuns.DatagramRun`).
- A cached local address can be wrong after connect: close then connect keeps it across descriptors
  (`StaleRuns.StaleLocalAddressRun`), and a query before connect caches a name that connect then changes
  (`StaleRuns.StaleByQueryRun`). `Agreement.ConnectAgreesExactly` says when it is right. An internet socket can
  rely on an empty cache, or on a cached name that already has a port and a host; in every other case the
  model lets the kernel choose another name. Reconnect empties the cache first and is always right.
- Bind caches the address it was asked for, and nothing replaces it: with port zero the cached address is wrong
  (`StaleRuns.StaleByBindRun`), and `Agreement.BindAgreesExactly` says for which addresses it is right. A query
  before the first send is wrong after it (`StaleRuns.StaleByTransferRun`, `Agreement.UseAgreesExactly`).
- With the hook enabled all along, no accept ever returns an object: the descriptor manager knows an accepted
  number only if an earlier close of that number ran with the hook disabled (`Manager.AcceptsExactly`), and
  what `init` refuses stays open for good (`Manager.RefusedForGood`).
- `UnixAddress("")` names not the unnamed address but the abstract name of no bytes (`Addresses.FromStringNames`).
- Close returns false in exactly one kind of state, left by a UDP factory whose `socket` call failed.

## Assumptions

- An operation is one atomic step. The code takes no lock, and nothing here covers two threads inside one
  object, or another process acting between probe and bind.
- Objects are not copied (`include/socket.h:13` with `include/noncopyable.h:10-11`), `isConnected` returns the
  flag (`include/socket.h:167`), and the default time limit is `(uint64_t)-1` (`include/socket.h:100`).
- The descriptor manager's answer in `init` is a free boolean in every theorem but those of `Manager.dfy`. There it
  is what the hooked socket(2) and close(2) left behind, the only two places that add or remove a number (lines
  241-251 and 387-401 of the hook source); each trace entry may have been made with the hook on or off.
- A Unix connection succeeds only if a live socket of the same type answers at that name, and a stream one
  only if it listens; whether it then succeeds is the kernel's choice. Internet connections succeed or fail
  freely. The kernel may rename an internet socket on connect unless it has a port and a host, and on listen and
  transfer as long as it has no port and was neither bound, connected nor accepted. A bind to an internet address
  with a port, or to a named Unix address, gives exactly that name; with port zero the kernel chooses a name
  with a port. The port is the first two bytes after the family field.

## Model

| member | source | states |
|---|---|---|
| Sockets.Socket.constructor | src/socket.cc:73-75 | a new object has no descriptor, flag or address |
| Sockets.CreateTCP | src/socket.cc:29-32 | the TCP factories only construct |
| Sockets.CreateUDP | src/socket.cc:34-37 | the UDP factory with an address only constructs, leaving the flag down |
| Sockets.CreateUDPSocket | src/socket.cc:44-61 | the plain UDP factories raise the flag whether or not socket(2) succeeded |
| Sockets.Socket.NewSock | src/socket.cc:478-487 | the field becomes what socket(2) returned, -1 included |
| Sockets.Socket.Close | src/socket.cc:255-268 | whole new state of object and kernel, and the result, as the specification of close gives it |
| Sockets.Socket.GetLocalAddress | src/socket.cc:389-424 | queries only an empty cache, fills it on success, answers with an unknown address of the family otherwise |
| Sockets.Socket.GetRemoteAddress | src/socket.cc:352-387 | the same for the peer |
| Sockets.Socket.Connect | src/socket.cc:201-239 | whole new state and result on every path, including the closing one under a time limit |
| Sockets.Socket.Reconnect | src/socket.cc:192-199 | drops the local address only when a peer is known, then connects to that peer |
| Sockets.Socket.Bind | src/socket.cc:157-190 | whole new state and result, with the temporary probe object made, used and destroyed inside |
| Sockets.Socket.Listen | src/socket.cc:241-253 | nothing of the object changes; the kernel is asked only with a descriptor |
| Sockets.Socket.Init | src/socket.cc:144-155 | takes the descriptor over and fills both caches, or leaves the object alone |
| Sockets.Socket.Accept | src/socket.cc:130-142 | returns a new object exactly when one was accepted and taken over |
| Sockets.Socket.Transfer | src/socket.cc:270-350 | with the flag up the kernel is asked once with the number in the field and its count returned; with the flag down nothing is asked and the answer is -1 |
| Programs.Program.DoAll | src/socket.cc:29-350 | any sequence of method calls on live objects does to them what the run on values does |
| Programs.Execute | src/socket.cc:29-350 | from nothing, the objects end as the reached world of the theorems below |
| World.RunInv | src/socket.cc:29-350 | every run keeps the invariant of all objects, kernel and trace, and only appends to the trace |
| Operations.ConnectGood | src/socket.cc:201-239 | connect keeps its object's invariant and touches no descriptor of another object |
| Operations.BindGood | src/socket.cc:157-190 | so does bind, and its temporary object ends owning nothing |
| Operations.AcceptGood | src/socket.cc:130-155 | so does accept, for the listener and for the new object |
| Ownership.ExclusiveOwnership | src/socket.cc:138-160 | live objects hold different numbers; what one holds is open at the generation it itself obtained and has not closed since |
| Ownership.OwnerObtained | src/socket.cc:478-487 | the observer's owner of a number got it by its own socket(2) or `init`, with no close of it since |
| Ownership.Conservation | src/socket.cc:130-154 | each opened descriptor is held by one object, or closed by one call, or refused by `init`, and only one of these |
| Ownership.OnlyRefusedOutlive | src/socket.cc:77 | destroyed and temporary objects own nothing; when all are gone only refused descriptors are open |
| Ownership.ClosesAreOwned | src/socket.cc:261-263 | every close call hits an open descriptor of its issuer, and no generation is closed twice |
| Ownership.CallsStayHome | src/socket.cc:255-350 | no call on a number ever reaches a descriptor of another object, however numbers are recycled |
| Monitor.ClosedByOneCall | src/socket.cc:255-268 | in a trace without foreign calls, closed means hit by exactly one close call |
| Monitor.DroppedByRefusal | src/socket.cc:138-141 | dropped means refused by a verdict of `init`, in both directions |
| Monitor.EstablishedByCall | src/socket.cc:235 | established means hit by a successful connect or a taking `init`, in both directions |
| Flags.ConnectedIsEarned | src/socket.cc:147-148 | a connected stream object holds an open descriptor that itself connected or was accepted; a new descriptor never inherits the flag |
| Flags.TransfersAreGuarded | src/socket.cc:270-350 | every send and receive uses a descriptor its issuer owns then, and on streams one established before |
| Flags.OddStateExactly | src/socket.cc:44-61 | connected without a descriptor if and only if the run made the object by a plain UDP factory, never closed it, and no socket(2) of it ever succeeded; close fails if and only if so |
| Flags.MarkedExactly | src/socket.cc:44-61 | the observer's mark stands exactly for an object that the run made by such a factory and never closed |
| Outcomes.CloseNormalForm | src/socket.cc:255-268 | close ends without descriptor and flag, keeps both addresses and all other descriptors, and fails only for a connected object without a descriptor; repeating it returns true and asks the kernel nothing |
| Outcomes.ConnectOutcomes | src/socket.cc:201-239 | exactly when connect succeeds, told from the state before it, and every field of the object then; a timed kernel failure ends closed; every other failure keeps flag and descriptor; the target is recorded always |
| Outcomes.ReconnectOutcomes | src/socket.cc:192-199 | without a remembered peer reconnect fails and changes nothing; with one it ends exactly as a connect to that peer with the local address forgotten, descriptor or not |
| Outcomes.BindOutcomes | src/socket.cc:157-190 | exactly when bind succeeds, told from the state before it, and under which bytes; the address is recorded always; a descriptor is kept even on failure; flag and remote address never change |
| Outcomes.ListenOutcomes | src/socket.cc:241-253 | listen answers what the kernel did, asked only with a descriptor; success makes that descriptor listen, failure changes nothing |
| Outcomes.TransferOutcomes | src/socket.cc:270-350 | the kernel's count with flag and descriptor, -1 otherwise; one kernel call exactly with the flag up |
| Outcomes.GetterOutcomes | src/socket.cc:352-424 | both getters: the kernel is asked exactly with an empty cache, connected or not; what it says is cached and returned, else an unknown address of the family |
| Outcomes.NoAnswerTells | src/socket.cc:370-373 | that unknown address is never one that the kernel could have answered in a known family |
| Outcomes.FactoryOutcomes | src/socket.cc:29-71 | the plain UDP factories make a connected object of their family with the descriptor they got or none; the others only construct |
| Outcomes.AcceptOutcomes | src/socket.cc:130-155 | exactly when accept succeeds, every field of the new object and its descriptor, under a number no live object holds; a refused descriptor stays open, all other descriptors and names as they were |
| Caches.CachesFollowHistory | src/socket.cc:352-424 | both caches equal functions of the trace: bind and reconnect rule the local one, latest connect else first peer answer the remote one |
| History.RemoteIsLastConnectElseFirstPeer | src/socket.cc:201-202 | the closed form of the remote address, for any trace |
| Caches.RemoteStays | src/socket.cc:192-202 | through any run a remote address is changed by nothing but a connect of the same object |
| Agreement.FilledCacheAgrees | src/socket.cc:389-424 | a queried local address is the present name of the descriptor until the object is bound, reconnected or closed, an internet socket connects again, or listens or transfers while it has no name of its own |
| Agreement.UseAgreesExactly | src/socket.cc:241-350 | a send, receive or listen: agreement after it if and only if nothing or that very name was cached; and, before the call, when it is certain whatever the kernel picks |
| Agreement.TransfersKeepAgreement | src/socket.cc:270-350 | an agreeing address survives any number of sends, receives, listens, accepts and queries of its object, whatever other objects do |
| Agreement.ReconnectBegins | src/socket.cc:192-199 | such agreement begins at every successful reconnect |
| Agreement.ConnectBegins | src/socket.cc:235-237 | and at every successful connect with nothing cached |
| Agreement.AcceptBegins | src/socket.cc:144-154 | and, for the new object, at every successful accept |
| Agreement.ReconnectRestoresAgreement | src/socket.cc:192-199 | a successful reconnect from any reachable state leaves the present name or nothing |
| Agreement.ReconnectedStaysInAgreement | src/socket.cc:192-199 | and that agreement lasts through any further run, whatever is sent, until a bind, reconnect, close or another internet connect of the object |
| Agreement.ConnectAgreesExactly | src/socket.cc:235-237 | a connect without close: agreement after it if and only if nothing or that very name was cached; and, before the call, when it is certain whatever the kernel answers |
| Agreement.CloseConnectKeepsOldAddress | src/socket.cc:235-237 | the same for close then connect: an old address stays on a new descriptor, right if and only if it is the name the kernel gives |
| Agreement.BindAgreesExactly | src/socket.cc:157-190 | after a successful bind the cached address is the real one if and only if the address asked for left the kernel nothing to choose: a named Unix address or an internet address with a port |
| Agreement.BindBeginsExactly | src/socket.cc:157-190 | and exactly then agreement begins that listening and transfers keep |
| StaleRuns.StaleByBindRun | src/socket.cc:157-190 | a run in which binding port zero leaves a wrong cached address |
| StaleRuns.StaleByTransferRun | src/socket.cc:270-350 | a run in which sending makes a queried address wrong |
| StaleRuns.StaleLocalAddressRun | src/socket.cc:235-237 | a run in which close and connect make it wrong |
| StaleRuns.StaleByQueryRun | src/socket.cc:389-424 | a run in which a query before connect makes it wrong, on one descriptor |
| Addresses.FamilyFixesClass | src/socket.cc:357-370 | the class that the getters make for the family of an address is its own class, unless it is an unknown address carrying a known family |
| Addresses.FromStringNames | src/socket.cc:173-176 | what the address that bind probes names when the UnixAddress constructor (lines 457-471 of the address source) made it: an abstract name, a path, or for the empty string the abstract name of no bytes |
| Addresses.GetPathReadsBack | src/socket.cc:179 | getPath (lines 481-491 of the address source) gives a constructed path back, and shows the leading NUL of an abstract name as a backslash and a zero |
| Addresses.UnlinkTargetIsName | src/socket.cc:176-179 | with getPath (lines 481-491 of the address source), the file unlinked is the name probed if and only if the address is a path; otherwise it is the backslash-zero file |
| Names.RunMoves | src/socket.cc:130-350 | what any run does to the name table: nothing is revived, silenced or bound anew, a name is lost only by an unlink or (if abstract) its socket's death, and a bound socket gains none |
| Paths.EntrySurvivesExactly | src/socket.cc:173-181 | through any run a name goes on leading to its socket, of any type, if and only if no bind of the run unlinks it |
| Paths.ListenersKeepTheirPath | src/socket.cc:173-190 | through any run a listener stays reachable if and only if no bind of the run unlinks its name and its owner does not close it; abstract names are never unlinked |
| Paths.HealthyRunKeepsListener | src/socket.cc:173-190 | healthy binds never make a listener unreachable before its owner closes it |
| Paths.HealthySpares | src/socket.cc:173-181 | a probe with a descriptor and an accepting kernel spares every name at which somebody listens, for abstract addresses unless somebody listens at the rendered one |
| Paths.BindTakesPathExactly | src/socket.cc:173-181 | in every reachable world, the exact guard under which a bind takes a name from the socket, of any type, that it leads to; the socket itself stays as it was |
| Paths.BindSucceedsExactly | src/socket.cc:157-190 | with a cooperating kernel, binding a path succeeds if and only if the trial connection failed, and then the path leads to the object |
| Paths.DatagramPathIsTaken | src/socket.cc:175-180 | the same guard for a datagram socket, where the trial connection to the path itself never helps |
| Listeners.OneListenerPerPath | src/socket.cc:183-190 | in an orderly run every live listener is reachable at its name and no two share one; in any run a name leads to one listener at most |
| Listeners.StaysReachableExactly | src/socket.cc:173-253 | a step leaves every listener reachable if and only if it unlinks no listener's name and makes nobody listen whose name does not lead to it |
| Listeners.SharingStepExactly | src/socket.cc:241-253 | a step makes two live listeners share a name if and only if it is a successful listen beside another live listener |
| Listeners.ReachableNotShared | src/socket.cc:241-253 | where all are reachable nobody shares, and the guard of such a listen is that the name leads to a listener other than the object |
| Listeners.SharingBegins | src/socket.cc:241-253 | whenever a run ends with two listeners at one name, one listen of it, at a moment when none were shared, began that |
| Listeners.StalePathRecovery | src/socket.cc:173-190 | after the listener at a path closed, and after any run in which nobody listens there again, another object's bind replaces the left-over entry and succeeds |
| Runs.Ipv6Run | src/socket.cc:201-239 | an IPv6 object connects to an IPv6 address and caches IPv6 addresses |
| Runs.Ipv4Run | src/socket.cc:201-239 | an IPv4 object connects to an IPv4 address and refuses an IPv6 one, keeping the descriptor it made |
| Runs.ReconnectRun | src/socket.cc:192-199 | connect, close, reconnect: connected again over a new descriptor to the same peer, under its new name |
| Runs.RefusedConnectRun | src/socket.cc:217-234 | a refused connect keeps the descriptor exactly with the time limit 2^64-1 |
| Runs.OddStateRun | src/socket.cc:44-61 | both plain UDP factories with a failing socket(2) reach the odd state |
| Runs.UdpRun | src/socket.cc:44-61 | with a working one the object sends at once |
| PathRuns.ProbeFailureRun | src/socket.cc:175-180 | a run in which the probe has no descriptor and a live listener loses its path |
| PathRuns.AbstractCollisionRun | src/socket.cc:173-180 | a run in which a healthy bind to an abstract address removes a live listener's file |
| PathRuns.DatagramRun | src/socket.cc:157-190 | a healthy run after which a live datagram socket has lost its path |
| Manager.KnownExactly | src/socket.cc:144-154 | the descriptor manager knows a number if and only if a hooked socket(2) got it and no hooked close of it came after |
| Manager.KnownClosedExactly | src/socket.cc:144-154 | of a number that is not open it knows if and only if a close with the hook disabled followed such a socket(2), and no hooked one did |
| Manager.AcceptsExactly | src/socket.cc:130-154 | with the manager's true answer, accept returns an object if and only if a connection is there and its number was left behind so; with the hook always enabled it never does |
| Manager.RefusedForGood | src/socket.cc:138-141 | a refused connection's number stays open, for the same descriptor and held by nobody, through any further run |
| PathRuns.TwoListenersRun | src/socket.cc:157-190 | a healthy run after which two live listeners are bound to one path and only one is reachable |
| Timeouts.RoundTripExactly | src/socket.cc:87-92 | shape and sign of the microseconds; the hooked setsockopt gets the value back if and only if the seconds fit an int |
| Timeouts.SetThenGet | src/socket.cc:79-107 | where the hooked setsockopt (lines 506-523 of the hook source) records, a setter then its getter returns the value if and only if it fits, without touching the other timeout; where it does not, the getter answers as before, -1 if nothing was ever recorded |
| Timeouts.OrderPreserved | src/socket.cc:102-107 | on values that fit, the conversion keeps and reflects the order and is injective |

## Left out

- Sockets.Socket.Transfer: buffers, lengths, flags and destinations of send and receive are not modelled, only the guard, the number used and the count returned; all eight variants share it.
- Sockets.Socket.Init: the descriptor manager's answer is an argument; that a known number passes its `isScoket` and `isClose` tests, and other users of the manager, are not modelled.
- Sockets.Socket.NewSock: `initSock` and all other socket options have no effect on the modelled state; the protocol number, 0 in every factory, is not carried.
- Programs.Execute: subclasses that override the virtual methods are not modelled.
- Other processes, and sockets not made through `Socket`: names present at the start are left-overs that nobody answers at.
- Directories, links and relative paths: two different path strings are two different files.
- Real renaming rules for internet addresses: where the kernel may choose a name it may choose any, so the model allows more than Linux does.
- Null address pointers, over-long Unix paths (the constructor throws) and addresses changed after being passed in.
- `getOption`, `setOption`, `getError`, the cancel functions, logging and output: one-branch wrappers or formatting.
- `src/tcpserver.cc`, fibers, scheduler, timers and the I/O manager: not part of this model; the hook layer appears only where it records a timeout or a descriptor.
