/**
 * socketconnector TCPConnectionImpl: an application-side handle on a managed TCP
 * connection. Every operation goes to the handle's current owner (a managed connection
 * proxy); the connector detaches the handle (invalidate) or moves it to another proxy
 * (reassign). A detached handle refuses getId and send and ignores disconnect and close.
 */
module TcpConnections {
  import opened JavaLang

  /** The id toString reports for a detached handle. */
  const NO_ID: int := -1
  const DETACHED: string := "Connection is detached"

  /** What a managed connection proxy is asked to do, in order, as far as handles are concerned. */
  datatype ProxyCall = Sent(message: seq<bv8>) | Disconnected | CleanupRequested

  /** ManagedTCPConnectionProxy, seen through the calls a handle makes on it. */
  class ManagedProxy {
    const id: int
    var calls: seq<ProxyCall>

    constructor (id: int)
      ensures this.id == id && calls == []
    {
      this.id := id;
      calls := [];
    }

    method Send(message: seq<bv8>)
      modifies this`calls
      ensures calls == old(calls) + [Sent(message)]
    {
      calls := calls + [Sent(message)];
    }

    method Disconnect()
      modifies this`calls
      ensures calls == old(calls) + [Disconnected]
    {
      calls := calls + [Disconnected];
    }

    method RequestCleanup()
      modifies this`calls
      ensures calls == old(calls) + [CleanupRequested]
    {
      calls := calls + [CleanupRequested];
    }
  }

  class TcpConnection {
    /** The current owner; null when the handle is detached. */
    var owner: ManagedProxy?

    constructor (owner: ManagedProxy?)
      ensures this.owner == owner
    {
      this.owner := owner;
    }

    /** The objects an operation on the handle may change: its owner, if any. */
    function OwnerFrame(): set<object>
      reads this
    {
      if owner == null then {} else {owner}
    }

    /** getIdInternal(): the owner's id, or nothing when detached. */
    function IdInternal(): (r: Option<int>)
      reads this
      ensures r.None? <==> owner == null
      ensures r.Some? ==> r.value == owner.id
    {
      if owner == null then None else Some(owner.id)
    }

    /** getId(): the owner's id; a detached handle raises "Connection is detached". */
    function GetId(): (r: Result<int>)
      reads this
      ensures r.Err? <==> IdInternal().None?
      ensures r.Err? ==> r.message == DETACHED
      ensures r.Ok? ==> IdInternal() == Some(r.value)
    {
      match IdInternal()
      case None => Err(DETACHED)
      case Some(id) => Ok(id)
    }

    /** The id toString() shows: the owner's id, or NO_ID when detached. */
    function DisplayedId(): (r: int)
      reads this
      ensures owner == null ==> r == NO_ID
      ensures GetId().Ok? ==> r == GetId().value
    {
      IdInternal().GetOr(NO_ID)
    }

    /** send(message): forwarded to the owner; a detached handle raises and nothing is sent. */
    method Send(message: seq<bv8>) returns (r: Outcome)
      modifies OwnerFrame()
      ensures owner == old(owner)
      ensures owner == null ==> r == Fail(DETACHED)
      ensures owner != null ==> r == Pass && owner.calls == old(owner.calls) + [Sent(message)]
    {
      var local := owner;
      if local == null {
        return Fail(DETACHED);
      }
      local.Send(message);
      r := Pass;
    }

    /** disconnect(): forwarded to the owner; ignored when detached. */
    method Disconnect()
      modifies OwnerFrame()
      ensures owner == old(owner)
      ensures owner != null ==> owner.calls == old(owner.calls) + [Disconnected]
    {
      var local := owner;
      if local != null {
        local.Disconnect();
      }
    }

    /** close(): asks the owner to clean the connection up; ignored when detached. */
    method Close()
      modifies OwnerFrame()
      ensures owner == old(owner)
      ensures owner != null ==> owner.calls == old(owner.calls) + [CleanupRequested]
    {
      var local := owner;
      if local != null {
        local.RequestCleanup();
      }
    }

    /** reassign(newOwner): later operations go to the new owner. */
    method Reassign(newOwner: ManagedProxy?)
      modifies this`owner
      ensures owner == newOwner
      ensures newOwner != null ==> GetId() == Ok(newOwner.id)
    {
      owner := newOwner;
    }

    /** invalidate(): the handle is detached until it is reassigned. */
    method Invalidate()
      modifies this`owner
      ensures owner == null
      ensures GetId() == Err(DETACHED) && DisplayedId() == NO_ID
    {
      owner := null;
    }
  }

  /**
   * A handle moved from one proxy to another sends to the second only, and a detached
   * handle refuses to send and leaves both proxies as they were.
   */
  method HandleLifecycle(message: seq<bv8>) {
    var first := new ManagedProxy(1);
    var second := new ManagedProxy(2);
    var handle := new TcpConnection(first);
    var r1 := handle.Send(message);
    handle.Reassign(second);
    var r2 := handle.Send(message);
    assert r1 == r2 == Pass;
    assert first.calls == [Sent(message)] && second.calls == [Sent(message)];
    handle.Invalidate();
    var r3 := handle.Send(message);
    handle.Close();
    assert r3 == Fail(DETACHED);
    assert first.calls == [Sent(message)] && second.calls == [Sent(message)];
  }
}
