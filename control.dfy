/**
 * The device side of txopenbci/control.py: the commander that writes single-byte commands to
 * the board, the protocol that holds the serial connection while it lasts, and the service
 * that opens that connection. Python exceptions the code lets escape are modelled as an
 * `Outcome`; the asynchronous connect (a Deferred) is split into the call and its callback.
 */
module Control {
  import opened Protocol
  import opened Transports

  datatype PyError = AttributeError | RuntimeError

  /** What a call does: returns normally, or raises. */
  datatype Outcome = Done | Raised(error: PyError)

  /** Knows how to command the device, through whatever transport its protocol holds. */
  class DeviceCommander {
    const protocol: DeviceProtocol

    constructor(protocol: DeviceProtocol)
      ensures this.protocol == protocol
    {
      this.protocol := protocol;
    }

    /** `_write`: a protocol not yet connected has no transport, and the attribute lookup fails. */
    method Send(content: string) returns (o: Outcome)
      modifies protocol.transport
      ensures protocol.transport == null ==> o == Raised(AttributeError)
      ensures protocol.transport != null ==>
                o == Done && protocol.transport.ops == old(protocol.transport.ops) + [Write(content)]
                && protocol.transport.disconnected == old(protocol.transport.disconnected)
    {
      if protocol.transport == null {
        return Raised(AttributeError);
      }
      protocol.transport.Write(content);
      return Done;
    }

    method Reset() returns (o: Outcome)
      modifies protocol.transport
      ensures protocol.transport == null ==> o == Raised(AttributeError)
      ensures protocol.transport != null ==>
                o == Done && protocol.transport.ops == old(protocol.transport.ops) + [Write(CMD_RESET)]
                && protocol.transport.disconnected == old(protocol.transport.disconnected)
                && protocol.transport.Value() == old(protocol.transport.Value()) + "v"
    {
      o := Send(CMD_RESET);
    }

    method StopStream() returns (o: Outcome)
      modifies protocol.transport
      ensures protocol.transport == null ==> o == Raised(AttributeError)
      ensures protocol.transport != null ==>
                o == Done && protocol.transport.ops == old(protocol.transport.ops) + [Write(CMD_STREAM_STOP)]
                && protocol.transport.disconnected == old(protocol.transport.disconnected)
                && protocol.transport.Value() == old(protocol.transport.Value()) + "s"
    {
      o := Send(CMD_STREAM_STOP);
    }
  }

  /** Holds the connection to the device; its commander is deleted when the connection is lost. */
  class DeviceProtocol {
    var transport: Transport?
    var command: DeviceCommander?

    /** The commander, while there is one, commands this protocol. */
    predicate Valid()
      reads this, command
    {
      command != null ==> command.protocol == this
    }

    constructor()
      ensures Valid() && transport == null && command != null
    {
      transport := null;
      new;
      command := new DeviceCommander(this);
    }

    /** Twisted's `makeConnection`: keep the transport, then `connectionMade` resets the board. */
    method MakeConnection(t: Transport) returns (o: Outcome)
      requires Valid()
      modifies this, t
      ensures Valid() && transport == t && command == old(command)
      ensures command == null ==> o == Raised(AttributeError) && t.ops == old(t.ops)
      ensures command != null ==> o == Done && t.ops == old(t.ops) + [Write(CMD_RESET)] && t.Value() == old(t.Value()) + "v"
      ensures t.disconnected == old(t.disconnected)
    {
      transport := t;
      o := ConnectionMade();
    }

    /** Reset the board as soon as it is connected; a protocol whose commander is gone raises. */
    method ConnectionMade() returns (o: Outcome)
      requires Valid()
      modifies transport
      ensures command == null ==> o == Raised(AttributeError) && (transport != null ==> transport.ops == old(transport.ops))
      ensures transport != null ==> transport.disconnected == old(transport.disconnected)
      ensures command != null && transport == null ==> o == Raised(AttributeError)
      ensures command != null && transport != null ==>
                o == Done && transport.ops == old(transport.ops) + [Write(CMD_RESET)]
                && transport.Value() == old(transport.Value()) + "v"
                && transport.disconnected == old(transport.disconnected)
    {
      if command == null {
        return Raised(AttributeError);
      }
      o := command.Reset();
    }

    /** `del self.command`: a second call finds no attribute to delete. */
    method ConnectionLost() returns (o: Outcome)
      requires Valid()
      modifies this
      ensures Valid() && command == null && transport == old(transport)
      ensures o == (if old(command) == null then Raised(AttributeError) else Done)
    {
      if command == null {
        return Raised(AttributeError);
      }
      command := null;
      return Done;
    }

    /** Stop the stream, then ask the transport to close. */
    method Hangup() returns (o: Outcome)
      requires Valid()
      modifies transport
      ensures command == null || transport == null ==> o == Raised(AttributeError)
      ensures command == null && transport != null ==> transport.ops == old(transport.ops)
      ensures transport != null ==> transport.disconnected == old(transport.disconnected)
      ensures command != null && transport != null ==>
                o == Done && transport.ops == old(transport.ops) + [Write(CMD_STREAM_STOP), LoseConnection]
                && transport.Value() == old(transport.Value()) + "s" && transport.Disconnecting()
    {
      if command == null {
        return Raised(AttributeError);
      }
      o := command.StopStream();
      if o.Raised? {
        return;
      }
      transport.LoseConnection();
    }
  }

  /** Makes sure a connection to the device is open. */
  class DeviceService {
    var client: DeviceProtocol?
    /** `Service.running`. */
    var running: bool
    /** Connection attempts handed to the endpoint (each fires `SetClient` when it succeeds). */
    var attempts: nat

    constructor()
      ensures client == null && !running && attempts == 0
    {
      client := null;
      running := false;
      attempts := 0;
    }

    /** Refuse while a client is held; otherwise start one more connection attempt. */
    method Connect() returns (o: Outcome)
      modifies this
      ensures client == old(client) && running == old(running)
      ensures old(client) != null ==> o == Raised(RuntimeError) && attempts == old(attempts)
      ensures old(client) == null ==> o == Done && attempts == old(attempts) + 1
    {
      if client != null {
        return Raised(RuntimeError);
      }
      attempts := attempts + 1;
      return Done;
    }

    /** The callback of a successful connection attempt. */
    method SetClient(c: DeviceProtocol)
      modifies this
      ensures client == c && running == old(running) && attempts == old(attempts)
    {
      client := c;
    }

    /** Mark the service running, then connect (a refusal propagates, leaving it running). */
    method StartService() returns (o: Outcome)
      modifies this
      ensures running && client == old(client)
      ensures old(client) != null ==> o == Raised(RuntimeError) && attempts == old(attempts)
      ensures old(client) == null ==> o == Done && attempts == old(attempts) + 1
    {
      running := true;
      o := Connect();
    }

    /**
     * Hang up the client, if any, and forget it, then mark the service stopped. A hangup that
     * raises propagates: the client stays held and the service stays running.
     */
    method StopService() returns (o: Outcome)
      requires client != null ==> client.Valid()
      modifies this, if client != null then {client.transport} else {}
      ensures attempts == old(attempts)
      ensures old(client) == null ==> o == Done && client == null && !running
      ensures old(client) != null && (old(client.command) == null || old(client.transport) == null) ==>
                o == Raised(AttributeError) && client == old(client) && running == old(running)
      ensures old(client) != null && old(client.transport) != null ==>
                old(client.transport).disconnected == old(client.transport.disconnected)
      ensures old(client) != null && old(client.command) == null && old(client.transport) != null ==>
                old(client.transport).ops == old(client.transport.ops)
      ensures old(client) != null && old(client.command) != null && old(client.transport) != null ==>
                o == Done && client == null && !running
                && old(client.transport).ops == old(client.transport.ops) + [Write(CMD_STREAM_STOP), LoseConnection]
                && old(client.transport).Value() == old(client.transport.Value()) + "s"
                && old(client.transport).Disconnecting()
    {
      if client != null {
        o := client.Hangup();
        if o.Raised? {
          return;
        }
        client := null;
      }
      running := false;
      o := Done;
    }
  }

  // ---------------------------------------------------------------------------
  // Scenarios of txopenbci/test_control.py and of the service life cycle
  // ---------------------------------------------------------------------------

  /** A new connection receives exactly the reset command. */
  method ResetOnConnect() returns (value: string)
    ensures value == "v"
  {
    var protocol := new DeviceProtocol();
    var transport := new Transport(false, false);
    var o := protocol.MakeConnection(transport);
    value := transport.Value();
  }

  /** After the reset is cleared away, hanging up writes the stop command and disconnects. */
  method StopOnHangup() returns (value: string, disconnecting: bool)
    ensures value == "s" && disconnecting
  {
    var protocol := new DeviceProtocol();
    var transport := new Transport(false, false);
    var o := protocol.MakeConnection(transport);
    transport.Clear();
    o := protocol.Hangup();
    value := transport.Value();
    disconnecting := transport.Disconnecting();
  }

  /** Nothing marks a connection in progress: a second connect before the callback is accepted. */
  method TwoConnectsBeforeCallback() returns (first: Outcome, second: Outcome, attempts: nat)
    ensures first == Done && second == Done && attempts == 2
  {
    var service := new DeviceService();
    first := service.Connect();
    second := service.Connect();
    attempts := service.attempts;
  }

  /** Once the callback has delivered a client, connecting again is refused. */
  method ConnectWhileConnected() returns (o: Outcome)
    ensures o == Raised(RuntimeError)
  {
    var service := new DeviceService();
    o := service.StartService();
    var protocol := new DeviceProtocol();
    service.SetClient(protocol);
    o := service.Connect();
  }

  /** Stopping after the connection was lost raises, and the lost client is kept. */
  method StopAfterConnectionLost() returns (o: Outcome, stillHeld: bool, stillRunning: bool)
    ensures o == Raised(AttributeError) && stillHeld && stillRunning
  {
    var service := new DeviceService();
    o := service.StartService();
    var protocol := new DeviceProtocol();
    var transport := new Transport(false, false);
    o := protocol.MakeConnection(transport);
    service.SetClient(protocol);
    o := protocol.ConnectionLost();
    o := service.StopService();
    stillHeld := service.client != null;
    stillRunning := service.running;
  }

  /** A full session: connect, stop; the device sees the reset then the stop, and is released. */
  method ConnectThenStop() returns (value: string, disconnecting: bool, held: bool)
    ensures value == "vs" && disconnecting && !held
  {
    var service := new DeviceService();
    var o := service.StartService();
    var protocol := new DeviceProtocol();
    var transport := new Transport(false, false);
    o := protocol.MakeConnection(transport);
    service.SetClient(protocol);
    o := service.StopService();
    value := transport.Value();
    disconnecting := transport.Disconnecting();
    held := service.client != null;
  }
}
