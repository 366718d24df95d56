/**
 * The backend record of lib/src/network/mod.rs: a lifecycle status, connection
 * accounting and a retry policy that gates new connections.
 */
module Backends {
  import opened Wrappers

  /** What a retry policy permits right now. */
  datatype RetryAction = Okay | Wait

  /**
   * The retry policy as the backend sees it: `can_try` and `fail`. How the
   * exponential backoff turns failures and elapsed time into a verdict is not
   * part of this model, so the verdict after a failure is left open.
   */
  class RetryPolicy {
    var verdict: Option<RetryAction>
    /** How many failures the policy has been told about. */
    var tries: nat

    /** A fresh policy permits the first attempt. */
    constructor ()
      ensures verdict == Some(Okay) && tries == 0
    {
      verdict := Some(Okay);
      tries := 0;
    }

    function CanTry(): Option<RetryAction>
      reads this
    {
      verdict
    }

    /** Records one failed attempt; the policy may then wait or block. */
    method Fail()
      modifies this
      ensures tries == old(tries) + 1
    {
      tries := tries + 1;
      verdict := *;
    }
  }

  datatype BackendStatus = Normal | Closing | Closed

  datatype SocketAddr = SocketAddr(ip: string, port: nat)

  datatype BackendProtocol = TCP | TLS

  /** The connected socket, plain or wrapped in TLS. */
  datatype BackendSocket = Tcp(peer: SocketAddr) | Tls(peer: SocketAddr)

  datatype ConnectionError = NoHostGiven | NoRequestLineGiven | HostNotFound | NoBackendAvailable | ToBeDefined

  function SocketFor(protocol: BackendProtocol, address: SocketAddr): BackendSocket
  {
    match protocol
    case TCP => Tcp(address)
    case TLS => Tls(address)
  }

  class Backend {
    const id: nat
    const instanceId: string
    const address: SocketAddr
    var status: BackendStatus
    const retryPolicy: RetryPolicy
    var activeConnections: nat
    var failures: nat

    /** A closed backend has no connection left. */
    ghost predicate Valid()
      reads this
    {
      status == Closed ==> activeConnections == 0
    }

    constructor (instanceId: string, address: SocketAddr, id: nat)
      ensures this.id == id && this.instanceId == instanceId && this.address == address
      ensures status == Normal && activeConnections == 0 && failures == 0
      ensures fresh(retryPolicy) && retryPolicy.CanTry() == Some(Okay) && retryPolicy.tries == 0
      ensures Valid()
    {
      this.id := id;
      this.instanceId := instanceId;
      this.address := address;
      status := Normal;
      retryPolicy := new RetryPolicy();
      activeConnections := 0;
      failures := 0;
    }

    /** Marks the backend as draining, whatever its status was. */
    method SetClosing()
      modifies this`status
      ensures status == Closing
      ensures old(Valid()) ==> Valid()
    {
      status := Closing;
    }

    /** A new connection may be opened only in Normal status and when the policy says Okay. */
    function CanOpen(): (r: bool)
      reads this, retryPolicy
      ensures r <==> status == Normal && retryPolicy.CanTry() == Some(Okay)
      ensures retryPolicy.CanTry().None? ==> !r
    {
      match retryPolicy.CanTry()
      case Some(action) => status == Normal && action == Okay
      case None => false
    }

    /** Counts one more connection, in Normal status only. */
    method IncConnections() returns (r: Option<nat>)
      modifies this`activeConnections
      ensures old(status) == Normal ==>
        activeConnections == old(activeConnections) + 1 && r == Some(activeConnections)
      ensures old(status) != Normal ==>
        activeConnections == old(activeConnections) && r == None
      ensures old(Valid()) ==> Valid()
    {
      if status == Normal {
        activeConnections := activeConnections + 1;
        r := Some(activeConnections);
      } else {
        r := None;
      }
    }

    /** Counts one connection less; the count never goes below zero. */
    method DecConnections() returns (r: Option<nat>)
      modifies this`activeConnections, this`status
      // at zero: the backend is forced to Closed, so a second call does the same again
      ensures old(activeConnections) == 0 ==>
        status == Closed && activeConnections == 0 && r == None
      ensures old(activeConnections) > 0 && old(status) == Normal ==>
        status == Normal && activeConnections == old(activeConnections) - 1 && r == Some(activeConnections)
      ensures old(activeConnections) > 0 && old(status) == Closed ==>
        status == Closed && activeConnections == old(activeConnections) && r == None
      // a draining backend becomes Closed exactly when its last connection goes
      ensures old(activeConnections) > 0 && old(status) == Closing ==>
        activeConnections == old(activeConnections) - 1 &&
        (if activeConnections == 0 then status == Closed && r == None
         else status == Closing && r == Some(activeConnections))
      ensures old(Valid()) ==> Valid()
    {
      if activeConnections == 0 {
        status := Closed;
        return None;
      }
      match status
      case Normal =>
        activeConnections := activeConnections - 1;
        r := Some(activeConnections);
      case Closed =>
        r := None;
      case Closing =>
        activeConnections := activeConnections - 1;
        if activeConnections == 0 {
          status := Closed;
          r := None;
        } else {
          r := Some(activeConnections);
        }
    }

    /**
     * Opens a connection to the backend. `connects` is the outcome of the
     * transport (TCP, or TCP then a TLS handshake), which this model does not
     * perform. The retry policy is not consulted, and a success does not reset it.
     */
    method TryConnect(protocol: BackendProtocol, connects: bool) returns (r: Result<BackendSocket, ConnectionError>)
      modifies this`activeConnections, this`failures, retryPolicy
      ensures old(status) != Normal ==>
        r == Failure(NoBackendAvailable) && unchanged(this) && unchanged(retryPolicy)
      ensures old(status) == Normal && connects ==>
        r == Success(SocketFor(protocol, address)) &&
        activeConnections == old(activeConnections) + 1 && failures == old(failures) &&
        unchanged(retryPolicy)
      ensures old(status) == Normal && !connects ==>
        r == Failure(NoBackendAvailable) &&
        activeConnections == old(activeConnections) && failures == old(failures) + 1 &&
        retryPolicy.tries == old(retryPolicy.tries) + 1
      ensures old(Valid()) ==> Valid()
    {
      if status != Normal {
        return Failure(NoBackendAvailable);
      }
      if connects {
        r := Success(SocketFor(protocol, address));
        var _ := IncConnections();
      } else {
        r := Failure(NoBackendAvailable);
        retryPolicy.Fail();
        failures := failures + 1;
      }
    }
  }

  /**
   * A client of the record: whatever mix of operations the event loop and the
   * configuration apply, a Closed backend keeps no connection.
   */
  method Lifecycle(ops: seq<BackendOp>, instanceId: string, address: SocketAddr, id: nat)
    returns (b: Backend)
    ensures fresh(b) && b.Valid()
  {
    b := new Backend(instanceId, address, id);
    var i := 0;
    while i < |ops|
      invariant 0 <= i <= |ops|
      invariant fresh(b) && fresh(b.retryPolicy) && b.Valid()
    {
      match ops[i] {
        case SetClosing => b.SetClosing();
        case Inc => var _ := b.IncConnections();
        case Dec => var _ := b.DecConnections();
        case Connect(p, ok) => var _ := b.TryConnect(p, ok);
      }
      i := i + 1;
    }
  }

  datatype BackendOp = SetClosing | Inc | Dec | Connect(protocol: BackendProtocol, connects: bool)
}
