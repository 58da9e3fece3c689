/**
 * The Twisted transport a protocol writes to, as a test double records it (the source's tests
 * use `StringTransport`): the operations requested, in order. Opening and configuring the
 * serial port is not part of this model.
 */
module Transports {

  datatype Op = Write(data: string) | LoseConnection | AbortConnection

  /** Everything written by `ops`, in order (`StringTransport.value()`). */
  function Written(ops: seq<Op>): string
  {
    if ops == [] then ""
    else Written(ops[..|ops| - 1]) + (if ops[|ops| - 1].Write? then ops[|ops| - 1].data else "")
  }

  /** The requests in `ops` other than writes, in order. */
  function Controls(ops: seq<Op>): (r: seq<Op>)
    ensures forall i :: 0 <= i < |r| ==> !r[i].Write?
    ensures |r| <= |ops|
  {
    if ops == [] then []
    else Controls(ops[..|ops| - 1]) + (if ops[|ops| - 1].Write? then [] else [ops[|ops| - 1]])
  }

  /** Dropping the writes forgets the written bytes and keeps every disconnect request. */
  lemma ControlsKeepDisconnects(ops: seq<Op>)
    ensures Written(Controls(ops)) == ""
    ensures 0 < |Controls(ops)| <==> exists i :: 0 <= i < |ops| && !ops[i].Write?
  {
    NoWrites(Controls(ops));
    if 0 < |Controls(ops)| {
      var i := ControlSource(ops);
    }
    forall i | 0 <= i < |ops| && !ops[i].Write?
      ensures 0 < |Controls(ops)|
    {
      ControlKept(ops, i);
    }
  }

  /** A request that is not a write survives in `Controls`. */
  lemma {:induction false} ControlKept(ops: seq<Op>, i: nat)
    requires i < |ops| && !ops[i].Write?
    ensures 0 < |Controls(ops)|
    decreases |ops|
  {
    if i < |ops| - 1 {
      var init := ops[..|ops| - 1];
      assert init[i] == ops[i];
      ControlKept(init, i);
    }
  }

  /** Every request in `Controls` comes from a request in `ops` that is not a write. */
  lemma {:induction false} ControlSource(ops: seq<Op>) returns (i: nat)
    requires 0 < |Controls(ops)|
    ensures i < |ops| && !ops[i].Write?
    decreases |ops|
  {
    if ops[|ops| - 1].Write? {
      var init := ops[..|ops| - 1];
      i := ControlSource(init);
      assert init[i] == ops[i];
    } else {
      i := |ops| - 1;
    }
  }

  lemma {:induction false} NoWrites(ops: seq<Op>)
    requires forall i :: 0 <= i < |ops| ==> !ops[i].Write?
    ensures Written(ops) == ""
  {
    if ops != [] {
      NoWrites(ops[..|ops| - 1]);
    }
  }

  class Transport {
    /** Requests made of the transport, oldest first. */
    var ops: seq<Op>
    /** `transport.disconnected`: the link is gone (set by the reactor, not by the protocol). */
    var disconnected: bool
    /** Whether this transport offers `abortConnection` (not every Twisted transport does). */
    const canAbort: bool

    constructor(canAbort: bool, disconnected: bool)
      ensures ops == [] && this.canAbort == canAbort && this.disconnected == disconnected
    {
      this.ops := [];
      this.canAbort := canAbort;
      this.disconnected := disconnected;
    }

    function Value(): string
      reads this
    {
      Written(ops)
    }

    /** `loseConnection` or `abortConnection` has been requested. */
    predicate Disconnecting()
      reads this
    {
      exists i :: 0 <= i < |ops| && !ops[i].Write?
    }

    method Write(data: string)
      modifies this
      ensures ops == old(ops) + [Op.Write(data)] && disconnected == old(disconnected)
      ensures Value() == old(Value()) + data
    {
      ops := ops + [Op.Write(data)];
      assert ops[..|ops| - 1] == old(ops);
    }

    method LoseConnection()
      modifies this
      ensures ops == old(ops) + [Op.LoseConnection] && disconnected == old(disconnected)
      ensures Value() == old(Value()) && Disconnecting()
    {
      ops := ops + [Op.LoseConnection];
      assert ops[..|ops| - 1] == old(ops);
    }

    /** `StringTransport.clear()`: forget what was written, keep the disconnect requests. */
    method Clear()
      modifies this
      ensures ops == Controls(old(ops)) && disconnected == old(disconnected)
      ensures Value() == "" && (Disconnecting() <==> old(Disconnecting()))
    {
      ControlsKeepDisconnects(ops);
      ops := Controls(ops);
      if 0 < |ops| {
        assert !ops[0].Write?;
      }
    }

    method AbortConnection()
      requires canAbort
      modifies this
      ensures ops == old(ops) + [Op.AbortConnection] && disconnected == old(disconnected)
      ensures Value() == old(Value()) && Disconnecting()
    {
      ops := ops + [Op.AbortConnection];
      assert ops[..|ops| - 1] == old(ops);
    }
  }
}
