/**
 * `ParserProtocol` of txopenbci/_sausage.py: the Twisted protocol that feeds incoming bytes to
 * the trampolined parser and guards the parser's lifecycle with its `_disconnecting` flag.
 * The parser is modelled by the scanners of the Grammar module; the sender and the receiver
 * are recorded as the calls made on them.
 */
module Sausage {
  import opened Protocol
  import opened Grammar
  import opened Transports

  /** The `reason` handed to `finishParsing`. */
  datatype Reason =
    | ConnectionDone          // the default: a clean close
    | ParseFailed             // the `Failure()` wrapping a parse error raised by the parser
    | Lost(description: string)

  /** Calls made on the sender and on the receiver, oldest first. */
  datatype Call =
    | SetTransport      // sender.setTransport(transport)
    | PrepareParsing    // receiver.prepareParsing(protocol)
    | Receiver(e: Event)  // a grammar action: handleResponse, sampleData or logIncoming
    | StopFlow          // sender.stopFlow()
    | FinishParsing(reason: Reason)

  function Deliveries(events: seq<Event>): (cs: seq<Call>)
    ensures |cs| == |events|
    ensures forall i :: 0 <= i < |events| ==> cs[i] == Receiver(events[i])
  {
    if events == [] then [] else [Receiver(events[0])] + Deliveries(events[1..])
  }

  /** How many times `finishParsing` was called. */
  function Finishes(calls: seq<Call>): nat
  {
    if calls == [] then 0
    else Finishes(calls[..|calls| - 1]) + (if calls[|calls| - 1].FinishParsing? then 1 else 0)
  }

  lemma FinishesAppend(calls: seq<Call>, more: seq<Call>)
    ensures Finishes(calls + more) == Finishes(calls) + Finishes(more)
    decreases |more|
  {
    if more == [] {
      assert calls + more == calls;
    } else {
      FinishesAppend(calls, more[..|more| - 1]);
      assert (calls + more)[..|calls + more| - 1] == calls + more[..|more| - 1];
    }
  }

  lemma FinishesOfDeliveries(events: seq<Event>)
    ensures Finishes(Deliveries(events)) == 0
    decreases |events|
  {
    if events != [] {
      var ds := Deliveries(events);
      FinishesOfDeliveries(events[..|events| - 1]);
      assert ds[..|ds| - 1] == Deliveries(events[..|events| - 1]);
    }
  }

  /** No call to `finishParsing` is the same as a count of zero. */
  lemma NoFinishes(calls: seq<Call>)
    ensures Finishes(calls) == 0 <==> forall i :: 0 <= i < |calls| ==> !calls[i].FinishParsing?
    decreases |calls|
  {
    if calls != [] {
      var init := calls[..|calls| - 1];
      NoFinishes(init);
      assert forall i :: 0 <= i < |init| ==> init[i] == calls[i];
    }
  }

  /** No grammar action reaches the receiver after `finishParsing`. */
  ghost predicate NoReceiverAfterFinish(calls: seq<Call>)
  {
    forall i, j :: 0 <= i < j < |calls| && calls[i].FinishParsing? ==> !calls[j].Receiver?
  }

  lemma UnfinishedIsOrdered(calls: seq<Call>)
    requires Finishes(calls) == 0
    ensures NoReceiverAfterFinish(calls)
  {
    NoFinishes(calls);
  }

  /** Calls other than grammar actions can follow `finishParsing` without breaking the order. */
  lemma AppendControlsKeepsOrder(calls: seq<Call>, more: seq<Call>)
    requires NoReceiverAfterFinish(calls)
    requires forall k :: 0 <= k < |more| ==> !more[k].Receiver?
    ensures NoReceiverAfterFinish(calls + more)
  {
  }

  class ParserProtocol {
    var transport: Transport?
    var disconnecting: bool
    /**
     * The rule the receiver has selected (`receiver.currentRule`), which the parser starts each
     * match with. The receiver may switch it in the action of the match that ends a chunk.
     */
    var rule: Rule
    /** Input the trampolined parser has buffered but not yet matched. */
    var pending: seq<Byte>
    ghost var calls: seq<Call>

    /**
     * `finishParsing` has been called exactly when `_disconnecting` is set, at most once, and
     * no grammar action reaches the receiver after it.
     */
    ghost predicate Valid()
      reads this
    {
      Finishes(calls) == (if disconnecting then 1 else 0) && NoReceiverAfterFinish(calls)
    }

    constructor(rule: Rule)
      ensures Valid() && !disconnecting && transport == null
      ensures this.rule == rule && pending == [] && calls == []
    {
      this.rule := rule;
      transport := null;
      disconnecting := false;
      pending := [];
      calls := [];
    }

    /** Twisted's `makeConnection`: record the transport, then `connectionMade`. */
    method MakeConnection(t: Transport)
      requires Valid()
      modifies this
      ensures Valid() && transport == t
      ensures calls == old(calls) + [SetTransport, PrepareParsing]
      ensures disconnecting == old(disconnecting) && pending == old(pending) && rule == old(rule)
    {
      transport := t;
      ConnectionMade();
    }

    /** Hand the transport to the sender, then start the receiver. */
    method ConnectionMade()
      requires Valid()
      modifies this
      ensures Valid() && transport == old(transport)
      ensures calls == old(calls) + [SetTransport, PrepareParsing]
      ensures disconnecting == old(disconnecting) && pending == old(pending) && rule == old(rule)
    {
      calls := calls + [SetTransport, PrepareParsing];
      FinishesAppend(old(calls), [SetTransport, PrepareParsing]);
      AppendControlsKeepsOrder(old(calls), [SetTransport, PrepareParsing]);
    }

    /**
     * Ignored once disconnecting. Otherwise the parser runs the selected rule over the
     * buffered input, making the receiver calls of every match; a parse error closes the
     * parser (as `connectionLost` with the failure) and then aborts the transport, or asks it
     * to lose the connection when it cannot abort.
     */
    method DataReceived(data: seq<Byte>)
      requires Valid() && transport != null
      modifies this, transport
      ensures Valid() && transport == old(transport) && rule == old(rule)
      ensures transport.disconnected == old(transport.disconnected)
      ensures old(disconnecting) ==>
                calls == old(calls) && pending == old(pending) && disconnecting &&
                transport.ops == old(transport.ops)
      ensures !old(disconnecting) ==>
                var r := RunRule(rule, old(pending) + data);
                calls == old(calls) + Deliveries(r.events) +
                         (if r.failed then [StopFlow, FinishParsing(ParseFailed)] else []) &&
                disconnecting == r.failed &&
                (!r.failed ==> pending == r.rest && transport.ops == old(transport.ops)) &&
                (r.failed ==> transport.ops == old(transport.ops) +
                                [if transport.canAbort then AbortConnection else LoseConnection])
    {
      if disconnecting {
        return;
      }
      var r := RunRule(rule, pending + data);
      Deliver(r.events);
      if !r.failed {
        pending := r.rest;
        return;
      }
      ConnectionLost(ParseFailed);
      if transport.canAbort {
        transport.AbortConnection();
      } else {
        transport.LoseConnection();
      }
    }

    /**
     * The receiver switching its `currentRule` in the action of the last match of a chunk: the
     * next match, starting at the input still buffered, uses the new rule.
     */
    method SelectRule(next: Rule)
      requires Valid()
      modifies this
      ensures Valid() && rule == next
      ensures transport == old(transport) && disconnecting == old(disconnecting)
      ensures pending == old(pending) && calls == old(calls)
    {
      rule := next;
    }

    /** The grammar actions of the matches reach the receiver, in order. */
    method Deliver(events: seq<Event>)
      requires Valid() && !disconnecting
      modifies this
      ensures Valid() && !disconnecting
      ensures calls == old(calls) + Deliveries(events)
      ensures transport == old(transport) && pending == old(pending) && rule == old(rule)
    {
      calls := calls + Deliveries(events);
      FinishesAppend(old(calls), Deliveries(events));
      FinishesOfDeliveries(events);
      UnfinishedIsOrdered(calls);
    }

    /** The first call stops the sender and finishes the receiver; later calls do nothing. */
    method ConnectionLost(reason: Reason)
      requires Valid()
      modifies this
      ensures Valid() && disconnecting
      ensures transport == old(transport) && pending == old(pending) && rule == old(rule)
      ensures old(disconnecting) ==> calls == old(calls)
      ensures !old(disconnecting) ==> calls == old(calls) + [StopFlow, FinishParsing(reason)]
    {
      if disconnecting {
        return;
      }
      calls := calls + [StopFlow, FinishParsing(reason)];
      FinishesAppend(old(calls), [StopFlow, FinishParsing(reason)]);
      assert Finishes([StopFlow, FinishParsing(reason)]) == 1 by {
        assert [StopFlow, FinishParsing(reason)][..1] == [StopFlow];
        assert [StopFlow][..0] == [];
      }
      AppendControlsKeepsOrder(old(calls), [StopFlow, FinishParsing(reason)]);
      disconnecting := true;
    }
  }
}
