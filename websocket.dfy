/**
 * The WebSocket broker's client registry: a map from client id to that client's
 * broadcast sender, with registration, removal, sending to one client and broadcasting
 * to all of them. Whether a sender accepts a message (tokio refuses it when no receiver
 * is subscribed) is not decided here: each send takes that verdict as a parameter.
 */
module WebSocket {
  import opened Common
  import opened Models

  /** A client's sender: its buffer capacity and the messages it has accepted so far. */
  datatype Channel = Channel(capacity: nat, accepted: seq<Json>)

  /** The capacity of the sender created for every registered client. */
  const ClientChannelCapacity: nat := 100

  /** What tokio's `SendError` displays: the only way a broadcast send can fail. */
  const ChannelClosed: string := "channel closed"

  /** A sender that has accepted `message`. */
  function Deliver(ch: Channel, message: Json): (r: Channel)
    ensures r.capacity == ch.capacity && r.accepted == ch.accepted + [message]
  {
    ch.(accepted := ch.accepted + [message])
  }

  // ---------------------------------------------------------------------------------
  // The registry operations as functions of the connections map

  function NotFound(clientId: string): DomainError {
    WebSocketError("Client " + clientId + " not found")
  }

  function AlreadyRegistered(clientId: string): DomainError {
    WebSocketError("Client " + clientId + " already registered")
  }

  /** The result of `register_client`: a duplicate id is refused. */
  function RegisterResult(conns: map<string, Channel>, clientId: string): (r: Result<(), DomainError>)
    ensures r.Ok? <==> clientId !in conns
    ensures r.Err? ==> r.error == AlreadyRegistered(clientId)
  {
    if clientId in conns then Err(AlreadyRegistered(clientId)) else Ok(())
  }

  /** The connections after `register_client`: a fresh sender for a fresh id. */
  function AfterRegister(conns: map<string, Channel>, clientId: string): (r: map<string, Channel>)
    ensures r.Keys == conns.Keys + {clientId}
    ensures forall id :: id in conns ==> r[id] == conns[id]
  {
    if clientId in conns then conns else conns[clientId := Channel(ClientChannelCapacity, [])]
  }

  /** The result of `unregister_client`: an absent id is refused. */
  function UnregisterResult(conns: map<string, Channel>, clientId: string): (r: Result<(), DomainError>)
    ensures r.Ok? <==> clientId in conns
    ensures r.Err? ==> r.error == NotFound(clientId)
  {
    if clientId in conns then Ok(()) else Err(NotFound(clientId))
  }

  function AfterUnregister(conns: map<string, Channel>, clientId: string): (r: map<string, Channel>)
    ensures r.Keys == conns.Keys - {clientId}
    ensures forall id :: id in r ==> r[id] == conns[id]
  {
    conns - {clientId}
  }

  /** The result of `send_message`, given whether the client's sender accepts the message. */
  function SendResult(conns: map<string, Channel>, clientId: string, accepted: bool): (r: Result<(), DomainError>)
    ensures r.Ok? <==> clientId in conns && accepted
    ensures clientId !in conns ==> r == Err(NotFound(clientId))
  {
    if clientId !in conns then Err(NotFound(clientId))
    else if accepted then Ok(())
    else Err(WebSocketError("Failed to send message: " + ChannelClosed))
  }

  function AfterSend(conns: map<string, Channel>, clientId: string, message: Json, accepted: bool): (r: map<string, Channel>)
    ensures r.Keys == conns.Keys
    ensures forall id :: id in conns && (id != clientId || !accepted) ==> r[id] == conns[id]
  {
    if clientId in conns && accepted then conns[clientId := Deliver(conns[clientId], message)] else conns
  }

  /** The connections after a broadcast: every accepting client has the message. */
  function AfterBroadcast(conns: map<string, Channel>, message: Json, accepts: string -> bool): (r: map<string, Channel>)
    ensures r.Keys == conns.Keys
    ensures forall id :: id in conns && !accepts(id) ==> r[id] == conns[id]
  {
    map id | id in conns :: if accepts(id) then Deliver(conns[id], message) else conns[id]
  }

  /** The error entries a broadcast collects for the failing clients, in the order tried. */
  function FailureEntries(failed: seq<string>): (r: seq<(string, string)>)
    ensures |r| == |failed|
    ensures forall i :: 0 <= i < |r| ==> r[i] == (failed[i], ChannelClosed)
  {
    seq(|failed|, i requires 0 <= i < |failed| => (failed[i], ChannelClosed))
  }

  /** `failed` lists, each once, exactly the registered clients whose senders refuse. */
  predicate ListsFailures(failed: seq<string>, conns: map<string, Channel>, accepts: string -> bool) {
    && (forall i :: 0 <= i < |failed| ==> failed[i] in conns && !accepts(failed[i]))
    && (forall id :: id in conns && !accepts(id) ==> id in failed)
    && (forall i, j :: 0 <= i < j < |failed| ==> failed[i] != failed[j])
  }

  /** `{:?}` of a string: quoted, with the characters Rust escapes by name escaped. */
  function DebugString(s: string): (r: string)
    ensures |r| >= |s| + 2 && r[0] == '"' && r[|r| - 1] == '"'
  {
    "\"" + EscapeDebug(s) + "\""
  }

  function EscapeDebug(s: string): (r: string)
    ensures |r| >= |s|
  {
    if s == [] then []
    else
      var c := s[0];
      var e := if c == '"' then "\\\"" else if c == '\\' then "\\\\" else if c == '\n' then "\\n"
        else if c == '\r' then "\\r" else if c == '\t' then "\\t" else if c == '\0' then "\\0" else [c];
      e + EscapeDebug(s[1..])
  }

  /** `{:?}` of a list of (id, error) pairs: `[("a", "channel closed"), ...]`. */
  function DebugEntries(es: seq<(string, string)>): (r: string)
    ensures StartsWith(r, "[") && EndsWith(r, "]")
  {
    "[" + DebugItems(es) + "]"
  }

  function DebugItems(es: seq<(string, string)>): string {
    if es == [] then []
    else
      var item := "(" + DebugString(es[0].0) + ", " + DebugString(es[0].1) + ")";
      if |es| == 1 then item else item + ", " + DebugItems(es[1..])
  }

  function BroadcastFailure(errors: seq<(string, string)>): DomainError {
    WebSocketError("Failed to broadcast to some clients: " + DebugEntries(errors))
  }

  // ---------------------------------------------------------------------------------
  // The broker

  class WebSocketBroker {
    /** Client id to that client's sender. */
    var connections: map<string, Channel>
    /** The capacity of the global channel, whose distribution task is not modelled. */
    const globalCapacity: nat

    /** `new`: no client is registered. */
    constructor(capacity: nat)
      ensures connections == map[] && globalCapacity == capacity
    {
      connections := map[];
      globalCapacity := capacity;
    }

    /** `register_client`: refuses a registered id; otherwise adds a sender for it. */
    method RegisterClient(clientId: string) returns (r: Result<(), DomainError>)
      modifies this
      ensures r == RegisterResult(old(connections), clientId)
      ensures connections == AfterRegister(old(connections), clientId)
    {
      if clientId in connections {
        return Err(AlreadyRegistered(clientId));
      }
      connections := connections[clientId := Channel(ClientChannelCapacity, [])];
      return Ok(());
    }

    /** `unregister_client`: removes the id, or refuses one that is not registered. */
    method UnregisterClient(clientId: string) returns (r: Result<(), DomainError>)
      modifies this
      ensures r == UnregisterResult(old(connections), clientId)
      ensures connections == AfterUnregister(old(connections), clientId)
    {
      var present := clientId in connections;
      connections := connections - {clientId};
      if !present {
        return Err(NotFound(clientId));
      }
      return Ok(());
    }

    /** `send_message`: hands the message to that one client's sender. */
    method SendMessage(clientId: string, message: Json, accepted: bool) returns (r: Result<(), DomainError>)
      modifies this
      ensures r == SendResult(old(connections), clientId, accepted)
      ensures connections == AfterSend(old(connections), clientId, message, accepted)
    {
      if clientId in connections {
        if !accepted {
          return Err(WebSocketError("Failed to send message: " + ChannelClosed));
        }
        connections := connections[clientId := Deliver(connections[clientId], message)];
        return Ok(());
      }
      return Err(NotFound(clientId));
    }

    /**
     * `broadcast_message`: tries every registered client, in the map's order, without
     * stopping at a failure, and reports every failing client in one error.
     */
    method BroadcastMessage(message: Json, accepts: string -> bool) returns (r: Result<(), DomainError>)
      modifies this
      ensures connections == AfterBroadcast(old(connections), message, accepts)
      ensures r.Ok? <==> forall id :: id in old(connections) ==> accepts(id)
      ensures r.Err? ==> exists failed :: ListsFailures(failed, old(connections), accepts) && r.error == BroadcastFailure(FailureEntries(failed))
    {
      ghost var start := connections;
      var remaining := connections.Keys;
      var errors: seq<(string, string)> := [];
      ghost var failed: seq<string> := [];
      while remaining != {}
        invariant remaining <= start.Keys
        invariant connections == PartialBroadcast(start, remaining, message, accepts)
        invariant errors == FailureEntries(failed)
        invariant FailuresSoFar(failed, start, remaining, accepts)
        decreases remaining
      {
        var id :| id in remaining;
        BroadcastStep(start, remaining, id, message, accepts);
        if accepts(id) {
          connections := connections[id := Deliver(connections[id], message)];
          FailuresStep(failed, start, remaining, id, accepts);
        } else {
          ghost var before := failed;
          errors := errors + [(id, ChannelClosed)];
          failed := failed + [id];
          assert failed[..|failed| - 1] == before;
          assert errors == FailureEntries(failed);
          FailuresStep(failed, start, remaining, id, accepts);
        }
        remaining := remaining - {id};
      }
      BroadcastDone(start, message, accepts);
      FailuresDone(failed, start, accepts);
      if errors == [] {
        return Ok(());
      }
      r := Err(BroadcastFailure(errors));
      assert ListsFailures(failed, start, accepts) && r.error == BroadcastFailure(FailureEntries(failed));
    }
  }

  /** The connections while a broadcast is under way: the clients still `remaining` are untouched. */
  function PartialBroadcast(conns: map<string, Channel>, remaining: set<string>, message: Json, accepts: string -> bool): map<string, Channel> {
    map id | id in conns :: if id !in remaining && accepts(id) then Deliver(conns[id], message) else conns[id]
  }

  /** `failed` lists, each once, the refusing clients among those already tried. */
  predicate FailuresSoFar(failed: seq<string>, conns: map<string, Channel>, remaining: set<string>, accepts: string -> bool) {
    && (forall i :: 0 <= i < |failed| ==> failed[i] in conns && failed[i] !in remaining && !accepts(failed[i]))
    && (forall id :: id in conns && id !in remaining && !accepts(id) ==> id in failed)
    && (forall i, j :: 0 <= i < j < |failed| ==> failed[i] != failed[j])
  }

  lemma BroadcastStep(conns: map<string, Channel>, remaining: set<string>, id: string, message: Json, accepts: string -> bool)
    requires id in remaining && remaining <= conns.Keys
    ensures var before := PartialBroadcast(conns, remaining, message, accepts);
      id in before && before[id] == conns[id]
      && PartialBroadcast(conns, remaining - {id}, message, accepts)
         == if accepts(id) then before[id := Deliver(before[id], message)] else before
  {
    var before := PartialBroadcast(conns, remaining, message, accepts);
    var after := PartialBroadcast(conns, remaining - {id}, message, accepts);
    if accepts(id) {
      assert after == before[id := Deliver(before[id], message)];
    } else {
      assert after == before;
    }
  }

  lemma BroadcastDone(conns: map<string, Channel>, message: Json, accepts: string -> bool)
    ensures PartialBroadcast(conns, {}, message, accepts) == AfterBroadcast(conns, message, accepts)
  {
  }

  lemma FailuresStep(failed: seq<string>, conns: map<string, Channel>, remaining: set<string>, id: string, accepts: string -> bool)
    requires id in remaining && remaining <= conns.Keys
    requires accepts(id) ==> FailuresSoFar(failed, conns, remaining, accepts)
    requires !accepts(id) ==>
      (|failed| > 0 && failed[|failed| - 1] == id && FailuresSoFar(failed[..|failed| - 1], conns, remaining, accepts))
    ensures FailuresSoFar(failed, conns, remaining - {id}, accepts)
  {
    if !accepts(id) {
      var prev := failed[..|failed| - 1];
      forall i | 0 <= i < |prev| ensures failed[i] == prev[i] && failed[i] != id {
      }
      forall x | x in conns && x !in remaining - {id} && !accepts(x) ensures x in failed {
        if x != id {
          var k :| 0 <= k < |prev| && prev[k] == x;
          assert failed[k] == x;
        }
      }
    }
  }

  lemma FailuresDone(failed: seq<string>, conns: map<string, Channel>, accepts: string -> bool)
    requires FailuresSoFar(failed, conns, {}, accepts)
    ensures ListsFailures(failed, conns, accepts)
    ensures failed == [] <==> forall id :: id in conns ==> accepts(id)
  {
    if failed != [] {
      assert failed[0] in conns && !accepts(failed[0]);
    }
  }

  // ---------------------------------------------------------------------------------
  // What the registry promises

  /** Registering a registered id fails with "already registered" and changes nothing. */
  lemma RegisterDuplicateFails(conns: map<string, Channel>, clientId: string)
    requires clientId in conns
    ensures RegisterResult(conns, clientId).Err?
    ensures Contains(RegisterResult(conns, clientId).error.msg, "already registered")
    ensures AfterRegister(conns, clientId) == conns
  {
    var msg := "Client " + clientId + " already registered";
    assert msg[|clientId| + 8..|clientId| + 8 + 18] == "already registered";
    ContainsWitness(msg, "already registered", |clientId| + 8);
  }

  /** Registering a fresh id adds exactly that id, with an empty sender of capacity 100. */
  lemma RegisterFreshAddsOne(conns: map<string, Channel>, clientId: string)
    requires clientId !in conns
    ensures RegisterResult(conns, clientId) == Ok(())
    ensures AfterRegister(conns, clientId).Keys == conns.Keys + {clientId}
    ensures AfterRegister(conns, clientId)[clientId] == Channel(100, [])
    ensures forall id :: id in conns ==> AfterRegister(conns, clientId)[id] == conns[id]
  {
  }

  /** Unregistering an absent id fails with "not found" and changes nothing. */
  lemma UnregisterMissingFails(conns: map<string, Channel>, clientId: string)
    requires clientId !in conns
    ensures UnregisterResult(conns, clientId).Err?
    ensures Contains(UnregisterResult(conns, clientId).error.msg, "not found")
    ensures AfterUnregister(conns, clientId) == conns
  {
    var msg := "Client " + clientId + " not found";
    assert msg[|clientId| + 8..|clientId| + 8 + 9] == "not found";
    ContainsWitness(msg, "not found", |clientId| + 8);
  }

  /** Unregistering removes exactly that id, and a later send to it is refused. */
  lemma UnregisterThenSendFails(conns: map<string, Channel>, clientId: string, message: Json, accepted: bool)
    requires clientId in conns
    ensures UnregisterResult(conns, clientId) == Ok(())
    ensures AfterUnregister(conns, clientId).Keys == conns.Keys - {clientId}
    ensures SendResult(AfterUnregister(conns, clientId), clientId, accepted) == Err(NotFound(clientId))
  {
  }

  /** Sending to an unregistered id is refused and changes nothing. */
  lemma SendToMissingFails(conns: map<string, Channel>, clientId: string, message: Json, accepted: bool)
    requires clientId !in conns
    ensures SendResult(conns, clientId, accepted) == Err(WebSocketError("Client " + clientId + " not found"))
    ensures AfterSend(conns, clientId, message, accepted) == conns
  {
  }

  /**
   * Sending reaches only the addressed client: every other client's sender is as it was,
   * so it can still be sent to afterwards.
   */
  lemma SendTouchesOnlyTarget(conns: map<string, Channel>, clientId: string, message: Json, accepted: bool, other: string)
    requires other in conns && other != clientId
    ensures other in AfterSend(conns, clientId, message, accepted)
    ensures AfterSend(conns, clientId, message, accepted)[other] == conns[other]
    ensures AfterSend(conns, clientId, message, accepted).Keys == conns.Keys
  {
  }

  /** A broadcast keeps the registry's ids and delivers to exactly the accepting clients. */
  lemma BroadcastKeepsRegistry(conns: map<string, Channel>, message: Json, accepts: string -> bool)
    ensures AfterBroadcast(conns, message, accepts).Keys == conns.Keys
    ensures forall id :: id in conns && accepts(id) ==>
      AfterBroadcast(conns, message, accepts)[id].accepted == conns[id].accepted + [message]
    ensures forall id :: id in conns && !accepts(id) ==> AfterBroadcast(conns, message, accepts)[id] == conns[id]
  {
  }

  /** The broadcast error names every failing client. */
  lemma BroadcastErrorNamesFailures(failed: seq<string>, conns: map<string, Channel>, accepts: string -> bool, i: nat)
    requires ListsFailures(failed, conns, accepts) && i < |failed|
    ensures FailureEntries(failed)[i] == (failed[i], "channel closed")
    ensures |FailureEntries(failed)| == |set id | id in conns && !accepts(id)|
  {
    var s := set id | id in conns && !accepts(id);
    DistinctSeqCard(failed, s);
  }

  lemma {:induction false} DistinctSeqCard(xs: seq<string>, s: set<string>)
    requires forall i, j :: 0 <= i < j < |xs| ==> xs[i] != xs[j]
    requires forall i :: 0 <= i < |xs| ==> xs[i] in s
    requires forall x :: x in s ==> x in xs
    ensures |xs| == |s|
    decreases |xs|
  {
    if xs != [] {
      var rest := s - {xs[0]};
      forall x | x in rest ensures x in xs[1..] {
        var k :| 0 <= k < |xs| && xs[k] == x;
        assert k != 0;
        assert xs[1..][k - 1] == x;
      }
      forall i | 0 <= i < |xs[1..]| ensures xs[1..][i] in rest {
        assert xs[1..][i] == xs[i + 1];
      }
      DistinctSeqCard(xs[1..], rest);
    } else {
      assert forall x :: x !in s;
      assert s == {};
    }
  }

  /** Registration is not idempotent, but register, unregister, register succeeds. */
  lemma ReRegisterAfterUnregister(conns: map<string, Channel>, clientId: string)
    requires clientId !in conns
    ensures RegisterResult(AfterRegister(conns, clientId), clientId).Err?
    ensures var c1 := AfterRegister(conns, clientId);
      var c2 := AfterUnregister(c1, clientId);
      UnregisterResult(c1, clientId) == Ok(()) && RegisterResult(c2, clientId) == Ok(()) && c2 == conns
  {
    assert AfterUnregister(AfterRegister(conns, clientId), clientId) == conns;
  }

  /** The duplicate-registration scenario: the second registration is refused by kind and text. */
  method RegisterDuplicateScenario() returns (first: Result<(), DomainError>, second: Result<(), DomainError>)
    ensures first == Ok(())
    ensures second.Err? && second.error.WebSocketError? && Contains(second.error.msg, "already registered")
  {
    var broker := new WebSocketBroker(100);
    first := broker.RegisterClient("test-client");
    second := broker.RegisterClient("test-client");
    RegisterDuplicateFails(map["test-client" := Channel(100, [])], "test-client");
  }

  /** Unregistering from a new broker is refused with "not found". */
  method UnregisterMissingScenario() returns (r: Result<(), DomainError>)
    ensures r.Err? && r.error.WebSocketError? && Contains(r.error.msg, "not found")
  {
    var broker := new WebSocketBroker(100);
    r := broker.UnregisterClient("non-existent-client");
    UnregisterMissingFails(map[], "non-existent-client");
  }

  /**
   * The two-client scenario: with senders that accept, sending reaches a registered client,
   * is refused for an unknown or unregistered one, and still reaches the other client.
   */
  method TwoClientScenario(message: Json)
    returns (toFirst: Result<(), DomainError>, toUnknown: Result<(), DomainError>,
             afterRemoval: Result<(), DomainError>, toSecond: Result<(), DomainError>)
    ensures toFirst == Ok(()) && toSecond == Ok(())
    ensures toUnknown == Err(NotFound("non-existent-client"))
    ensures afterRemoval == Err(NotFound("test-client-1"))
  {
    var broker := new WebSocketBroker(100);
    var r1 := broker.RegisterClient("test-client-1");
    var r2 := broker.RegisterClient("test-client-2");
    toFirst := broker.SendMessage("test-client-1", message, true);
    toUnknown := broker.SendMessage("non-existent-client", message, true);
    var r3 := broker.UnregisterClient("test-client-1");
    afterRemoval := broker.SendMessage("test-client-1", message, true);
    toSecond := broker.SendMessage("test-client-2", message, true);
  }

  /**
   * The same scenario as the source runs it: `register_client` drops the receiving end, so
   * every sender refuses and a send to a registered client fails with "channel closed",
   * while the unknown client is still reported as not found.
   */
  method ClosedChannelScenario(message: Json)
    returns (toFirst: Result<(), DomainError>, toUnknown: Result<(), DomainError>)
    ensures toFirst == Err(WebSocketError("Failed to send message: channel closed"))
    ensures toUnknown == Err(NotFound("non-existent-client"))
  {
    var broker := new WebSocketBroker(100);
    var r1 := broker.RegisterClient("test-client-1");
    toFirst := broker.SendMessage("test-client-1", message, false);
    toUnknown := broker.SendMessage("non-existent-client", message, false);
    assert "Failed to send message: " + ChannelClosed == "Failed to send message: channel closed";
  }
}
