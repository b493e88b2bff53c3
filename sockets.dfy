/** The WebSocket service: the registry of live connections and the submission path (SocketService.swift). */
module Sockets {
  import opened Wrappers
  import opened Orders

  /** A live connection, known by its id; the sink behind it is abstract. */
  datatype Connection = Connection(id: string)

  /** One message sent to one connection. */
  datatype Delivery = Delivery(to: Connection, payload: OrderResult)

  /** The fields of a submission that decoded (the local `struct _Order`). */
  datatype Submission = Submission(senderId: string, item: string)

  /** The ids of the connections that `deliveries` went to. */
  ghost function RecipientIds(deliveries: seq<Delivery>): set<string>
    decreases |deliveries|
  {
    if deliveries == [] then {}
    else RecipientIds(deliveries[..|deliveries| - 1]) + {deliveries[|deliveries| - 1].to.id}
  }

  /**
   * `deliveries` sends `payload` exactly once to every connection of
   * `conn` and to nothing else.
   */
  ghost predicate FanOut(deliveries: seq<Delivery>, conn: map<string, Connection>, payload: OrderResult) {
    && |deliveries| == |conn|
    && (forall i :: 0 <= i < |deliveries| ==>
          && deliveries[i].payload == payload
          && deliveries[i].to.id in conn
          && conn[deliveries[i].to.id] == deliveries[i].to)
    && (forall i, j :: 0 <= i < j < |deliveries| ==> deliveries[i].to.id != deliveries[j].to.id)
    && RecipientIds(deliveries) == conn.Keys
  }

  /** Every connection is registered under its own id. */
  ghost predicate KeyedById(conn: map<string, Connection>) {
    forall id :: id in conn ==> conn[id].id == id
  }

  /**
   * Part way through a broadcast: `sent` went once each to the connections
   * of `conn` outside `remaining`, in some order.
   */
  ghost predicate PartialFanOut(sent: seq<Delivery>, conn: map<string, Connection>, payload: OrderResult,
                                remaining: set<string>) {
    && remaining <= conn.Keys
    && |sent| + |remaining| == |conn.Keys|
    && (forall i :: 0 <= i < |sent| ==>
          && sent[i].payload == payload
          && sent[i].to.id in conn.Keys - remaining
          && conn[sent[i].to.id] == sent[i].to)
    && (forall i, j :: 0 <= i < j < |sent| ==> sent[i].to.id != sent[j].to.id)
    && RecipientIds(sent) == conn.Keys - remaining
  }

  lemma FanOutStart(conn: map<string, Connection>, payload: OrderResult)
    ensures PartialFanOut([], conn, payload, conn.Keys)
  {
  }

  lemma FanOutStep(sent: seq<Delivery>, conn: map<string, Connection>, payload: OrderResult,
                   remaining: set<string>, key: string)
    requires KeyedById(conn)
    requires PartialFanOut(sent, conn, payload, remaining) && key in remaining
    ensures PartialFanOut(sent + [Delivery(conn[key], payload)], conn, payload, remaining - {key})
  {
    var next := sent + [Delivery(conn[key], payload)];
    assert next[..|next| - 1] == sent;
    assert forall i :: 0 <= i < |sent| ==> next[i] == sent[i] && next[i].to.id != key;
  }

  lemma FanOutDone(sent: seq<Delivery>, conn: map<string, Connection>, payload: OrderResult)
    requires PartialFanOut(sent, conn, payload, {})
    ensures FanOut(sent, conn, payload)
  {
  }

  class SocketService {
    /** `conn`: connection id to connection (its TTL is 0, so entries never expire). */
    var conn: map<string, Connection>
    /** Every payload broadcast so far, in order. */
    ghost var broadcasts: seq<OrderResult>
    /** Every message sent so far, in order. */
    ghost var deliveries: seq<Delivery>
    /** Every connection closed by the service, in order. */
    ghost var closed: seq<Connection>

    /** Every connection is registered under its own id. */
    ghost predicate Valid()
      reads this
    {
      KeyedById(conn)
    }

    constructor ()
      ensures Valid()
      ensures conn == map[] && broadcasts == [] && deliveries == [] && closed == []
    {
      conn := map[];
      broadcasts := [];
      deliveries := [];
      closed := [];
    }

    /** `broadcast(data:)`: send `payload` to every registered connection, in the registry's (unspecified) order. */
    method Broadcast(payload: OrderResult)
      requires Valid()
      modifies this
      ensures Valid()
      ensures conn == old(conn) && closed == old(closed) && broadcasts == old(broadcasts) + [payload]
      ensures |old(deliveries)| <= |deliveries| && deliveries[..|old(deliveries)|] == old(deliveries)
      ensures FanOut(deliveries[|old(deliveries)|..], conn, payload)
    {
      ghost var sent: seq<Delivery> := [];
      var remaining := conn.Keys;
      FanOutStart(conn, payload);
      while remaining != {}
        invariant conn == old(conn) && closed == old(closed) && broadcasts == old(broadcasts)
        invariant deliveries == old(deliveries) + sent
        invariant PartialFanOut(sent, conn, payload, remaining)
        decreases remaining
      {
        var key :| key in remaining;
        var connection := conn[key];
        deliveries := deliveries + [Delivery(connection, payload)];
        FanOutStep(sent, conn, payload, remaining, key);
        sent := sent + [Delivery(connection, payload)];
        remaining := remaining - {key};
      }
      FanOutDone(sent, conn, payload);
      assert deliveries[|old(deliveries)|..] == sent;
      broadcasts := broadcasts + [payload];
    }

    /** `connected(connection:)`: register the connection under its id. */
    method Connected(connection: Connection)
      requires Valid()
      modifies this
      ensures Valid()
      ensures conn == old(conn)[connection.id := connection]
      ensures deliveries == old(deliveries) && closed == old(closed) && broadcasts == old(broadcasts)
    {
      conn := conn[connection.id := connection];
    }

    /** `disconnected(connection:reason:)`: forget the connection. */
    method Disconnected(connection: Connection)
      requires Valid()
      modifies this
      ensures Valid()
      ensures conn == old(conn) - {connection.id}
      ensures deliveries == old(deliveries) && closed == old(closed) && broadcasts == old(broadcasts)
    {
      conn := conn - {connection.id};
    }

    /** `received(message: Data, from:)`: binary messages are refused; the sender is closed and forgotten. */
    method ReceivedBinary(from: Connection)
      requires Valid()
      modifies this
      ensures Valid()
      ensures conn == old(conn) - {from.id}
      ensures closed == old(closed) + [from] && deliveries == old(deliveries) && broadcasts == old(broadcasts)
    {
      closed := closed + [from];
      conn := conn - {from.id};
    }

    /**
     * `received(message: String, from:)`, after JSON decoding (`decoded` is
     * None when the decoder throws). Returns the order handed to the
     * delegate, if any; the registry is not touched and the sender stays open.
     */
    method ReceivedText(decoded: Option<Submission>, from: Connection) returns (call: Option<Order>)
      ensures call.Some? <==> decoded.Some?
      ensures call.Some? ==>
                && call.value.senderId == decoded.value.senderId
                && call.value.item == decoded.value.item
                && call.value.status == Pending
                && call.value.transactionId == None
    {
      match decoded
      case None =>
        call := None;
      case Some(submission) =>
        call := Some(NewOrder(submission.senderId, submission.item));
    }
  }
}
