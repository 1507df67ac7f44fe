/**
 * The connection lifecycle manager of the game client: endpoint resolution
 * from a discovery document, and the Connect / Disconnect transitions around
 * the nullable `client` reference, with the ENTER / LEAVE handshake packets
 * recorded in a ghost log. The HTTP request and the transport connect are
 * asynchronous in the source; their outcomes are inputs here.
 */
module GameClient {
  import opened Wrappers

  /** One entry of the discovery document's port list. */
  datatype PortEntry = PortEntry(name: string, port: int)

  /** The parsed discovery document: the server address and its named ports. */
  datatype Discovery = Discovery(address: string, ports: seq<PortEntry>)

  /** A resolved server endpoint. */
  datatype Endpoint = Endpoint(address: string, port: int)

  /** The handshake packets the manager sends. */
  datatype Packet = Enter(clientId: string) | Leave

  /** Name of the port entry the client connects to. */
  const DefaultPortName: string := "default"

  /** Fixed prefix of the client identifier carried by ENTER. */
  const EnterPrefix: string := "Main"

  ghost predicate HasDefault(ports: seq<PortEntry>)
  {
    exists i :: 0 <= i < |ports| && ports[i].name == DefaultPortName
  }

  /** Entry `i` is the first one named "default". */
  ghost predicate IsFirstDefault(ports: seq<PortEntry>, i: int)
  {
    && 0 <= i < |ports|
    && ports[i].name == DefaultPortName
    && forall j :: 0 <= j < i ==> ports[j].name != DefaultPortName
  }

  /** The port of the first entry named "default", or 0 when there is none. */
  function DefaultPort(ports: seq<PortEntry>): (p: int)
    ensures !HasDefault(ports) ==> p == 0
    ensures forall i :: IsFirstDefault(ports, i) ==> p == ports[i].port
  {
    if ports == [] then 0
    else if ports[0].name == DefaultPortName then ports[0].port
    else
      var p := DefaultPort(ports[1..]);
      assert forall i :: IsFirstDefault(ports, i) ==> IsFirstDefault(ports[1..], i - 1);
      assert HasDefault(ports[1..]) ==> HasDefault(ports);
      p
  }

  /** A list with an entry named "default" has a first such entry. */
  lemma {:induction false} FirstDefaultExists(ports: seq<PortEntry>)
    requires HasDefault(ports)
    ensures exists i :: IsFirstDefault(ports, i)
    decreases |ports|
  {
    if ports[0].name == DefaultPortName {
      assert IsFirstDefault(ports, 0);
    } else {
      var k :| 0 <= k < |ports| && ports[k].name == DefaultPortName;
      assert ports[1..][k - 1].name == DefaultPortName;
      FirstDefaultExists(ports[1..]);
      var i :| IsFirstDefault(ports[1..], i);
      assert IsFirstDefault(ports, i + 1);
    }
  }

  /** Endpoint resolution: `response` is None when the HTTP request did not
      succeed. A missing "default" entry or a port of 0 is a failure. */
  function Resolve(response: Option<Discovery>): (r: Option<Endpoint>)
    ensures response.None? ==> r == None
    ensures response.Some? && !HasDefault(response.value.ports) ==> r == None
    ensures forall i :: response.Some? && IsFirstDefault(response.value.ports, i) ==>
              r == if response.value.ports[i].port != 0
                   then Some(Endpoint(response.value.address, response.value.ports[i].port))
                   else None
  {
    match response
    case None => None
    case Some(doc) =>
      var port := DefaultPort(doc.ports);
      if port != 0 then Some(Endpoint(doc.address, port)) else None
  }

  /** Only the ports up to the first "default" entry matter: anything after it
      can be replaced without changing the resolved endpoint. */
  lemma LaterEntriesIgnored(address: string, ports: seq<PortEntry>, i: int, rest: seq<PortEntry>)
    requires IsFirstDefault(ports, i)
    ensures Resolve(Some(Discovery(address, ports[..i + 1] + rest))) == Resolve(Some(Discovery(address, ports)))
  {
    var ports' := ports[..i + 1] + rest;
    assert IsFirstDefault(ports', i);
  }

  /** A document listing a "debug" port before the "default" one resolves to
      the address with the "default" port. */
  lemma ResolveExample()
    ensures Resolve(Some(Discovery("10.0.0.5", [PortEntry("debug", 1000), PortEntry("default", 2000)])))
         == Some(Endpoint("10.0.0.5", 2000))
  {
    var ports := [PortEntry("debug", 1000), PortEntry("default", 2000)];
    assert ports[0].name != DefaultPortName;
    assert IsFirstDefault(ports, 1);
  }

  /** The client's connection object; `clientId` is None until the transport
      connect succeeds. A client obtained from the connection manager is
      assumed to carry no identifier yet. */
  class Client {
    var clientId: Option<string>

    constructor ()
      ensures clientId == None
    {
      clientId := None;
    }
  }

  /** What the manager holds: no client, or a client with its identifier. */
  datatype Session = Session(clientId: Option<string>)

  /** The manager's observable state: its client and every packet sent so far. */
  datatype ManagerView = ManagerView(client: Option<Session>, sent: seq<Packet>)

  const Initial: ManagerView := ManagerView(None, [])

  /** The effect of one Connect call, given the outcomes of the HTTP request and the transport connect. */
  function ConnectStep(v: ManagerView, connectionId: string, response: Option<Discovery>, transportSucceeds: bool): ManagerView
  {
    if v.client.Some? then v
    else if Resolve(response).None? then v
    else if !transportSucceeds then ManagerView(Some(Session(None)), v.sent)
    else ManagerView(Some(Session(Some(connectionId))), v.sent + [Enter(EnterPrefix + connectionId)])
  }

  /** The effect of one Disconnect call. */
  function DisconnectStep(v: ManagerView): ManagerView
  {
    if v.client.None? then v else ManagerView(None, v.sent + [Leave])
  }

  datatype Event = ConnectEvent(connectionId: string, response: Option<Discovery>, transportSucceeds: bool) | DisconnectEvent

  function Apply(v: ManagerView, e: Event): ManagerView
  {
    match e
    case ConnectEvent(id, response, ok) => ConnectStep(v, id, response, ok)
    case DisconnectEvent => DisconnectStep(v)
  }

  function Replay(v: ManagerView, events: seq<Event>): ManagerView
    decreases |events|
  {
    if events == [] then v else Replay(Apply(v, events[0]), events[1..])
  }

  /** No ENTER directly follows an ENTER (two LEAVEs may be adjacent). */
  ghost predicate NoEnterAfterEnter(log: seq<Packet>)
  {
    forall i :: 0 <= i < |log| - 1 && log[i].Enter? ==> !log[i + 1].Enter?
  }

  /** The log invariant: no ENTER directly follows an ENTER; the last packet is the ENTER of the
      current client when it completed the handshake, and is no ENTER otherwise. */
  ghost predicate LogInvariant(v: ManagerView)
  {
    && NoEnterAfterEnter(v.sent)
    && (if v.client.Some? && v.client.value.clientId.Some?
        then v.sent != [] && v.sent[|v.sent| - 1] == Enter(EnterPrefix + v.client.value.clientId.value)
        else v.sent == [] || !v.sent[|v.sent| - 1].Enter?)
  }

  lemma {:induction false} ReplayKeepsLogInvariant(v: ManagerView, events: seq<Event>)
    requires LogInvariant(v)
    ensures LogInvariant(Replay(v, events))
    decreases |events|
  {
    if events != [] {
      var w := Apply(v, events[0]);
      assert LogInvariant(w) by {
        if w.sent != v.sent {
          assert w.sent == v.sent + [w.sent[|w.sent| - 1]];
          assert forall i :: 0 <= i < |v.sent| ==> w.sent[i] == v.sent[i];
        }
      }
      ReplayKeepsLogInvariant(w, events[1..]);
    }
  }

  /** From a fresh manager, any sequence of Connect and Disconnect calls never
      sends an ENTER directly after another ENTER: a LEAVE always comes between. */
  lemma SessionsNeverOverlap(events: seq<Event>)
    ensures NoEnterAfterEnter(Replay(Initial, events).sent)
  {
    ReplayKeepsLogInvariant(Initial, events);
  }

  predicate AllConnects(events: seq<Event>)
  {
    forall i :: 0 <= i < |events| ==> events[i].ConnectEvent?
  }

  /** After a Connect whose resolution succeeded but whose transport connect
      failed, the manager keeps its client, so every later Connect is a no-op
      (nothing sent, nothing changed) until a Disconnect. */
  lemma {:induction false} FailedTransportBlocksConnect(v: ManagerView, id: string, response: Option<Discovery>, events: seq<Event>)
    requires v.client.None? && Resolve(response).Some?
    requires AllConnects(events)
    ensures ConnectStep(v, id, response, false).client == Some(Session(None))
    ensures Replay(ConnectStep(v, id, response, false), events) == ConnectStep(v, id, response, false)
    decreases |events|
  {
    if events != [] {
      assert AllConnects(events[1..]) by {
        forall i | 0 <= i < |events| - 1 ensures events[1..][i].ConnectEvent? {
          assert events[1..][i] == events[i + 1];
        }
      }
      FailedTransportBlocksConnect(v, id, response, events[1..]);
    }
  }

  /** Disconnect right after a failed transport connect sends a LEAVE although
      no ENTER was ever sent. */
  lemma LeaveWithoutEnter(id: string, response: Option<Discovery>)
    requires Resolve(response).Some?
    ensures Replay(Initial, [ConnectEvent(id, response, false), DisconnectEvent]).sent == [Leave]
  {
    assert Replay(Initial, [ConnectEvent(id, response, false), DisconnectEvent])
        == Replay(ConnectStep(Initial, id, response, false), [DisconnectEvent]);
  }

  /** After Disconnect the guard lets the next Connect through: with a resolved
      endpoint and a successful transport it sends exactly one ENTER. */
  lemma DisconnectReopens(v: ManagerView, id: string, response: Option<Discovery>)
    requires Resolve(response).Some?
    ensures ConnectStep(DisconnectStep(v), id, response, true)
         == ManagerView(Some(Session(Some(id))), DisconnectStep(v).sent + [Enter(EnterPrefix + id)])
    ensures DisconnectStep(v).sent == if v.client.Some? then v.sent + [Leave] else v.sent
  {
  }

  class GameClientManager {
    var client: Client?
    ghost var sent: seq<Packet>

    constructor ()
      ensures client == null && sent == []
    {
      client := null;
      sent := [];
    }

    ghost function View(): ManagerView
      reads this, client
    {
      ManagerView(if client == null then None else Some(Session(client.clientId)), sent)
    }

    /** The request outcome and the parsed document are inputs; the
        foreach/break scan of the port list is kept as a loop. */
    static method GetAddress(response: Option<Discovery>) returns (endPoint: Option<Endpoint>)
      ensures endPoint == Resolve(response)
    {
      if response.None? {
        return None;
      }
      var doc := response.value;
      var defaultPort := 0;
      var i := 0;
      while i < |doc.ports|
        invariant 0 <= i <= |doc.ports|
        invariant defaultPort == 0
        invariant forall j :: 0 <= j < i ==> doc.ports[j].name != DefaultPortName
      {
        if doc.ports[i].name == DefaultPortName {
          defaultPort := doc.ports[i].port;
          assert IsFirstDefault(doc.ports, i);
          break;
        }
        i := i + 1;
      }
      endPoint := if defaultPort != 0 then Some(Endpoint(doc.address, defaultPort)) else None;
    }

    method Connect(connectionId: string, response: Option<Discovery>, transportSucceeds: bool)
      modifies this
      ensures View() == ConnectStep(old(View()), connectionId, response, transportSucceeds)
      ensures old(client) != null ==> client == old(client) && sent == old(sent)
      ensures old(client) == null && Resolve(response).None? ==> client == null && sent == old(sent)
      ensures old(client) == null && Resolve(response).Some? ==>
                && client != null && fresh(client)
                && (transportSucceeds ==> client.clientId == Some(connectionId)
                                          && sent == old(sent) + [Enter(EnterPrefix + connectionId)])
                && (!transportSucceeds ==> client.clientId == None && sent == old(sent))
    {
      if client != null {
        return;
      }
      var endPoint := GetAddress(response);
      if endPoint == None {
        return;
      }
      client := new Client();
      var success := transportSucceeds;
      if success {
        client.clientId := Some(connectionId);
        sent := sent + [Enter(EnterPrefix + connectionId)];
      }
    }

    method Disconnect()
      modifies this
      ensures View() == DisconnectStep(old(View()))
      ensures client == null
      ensures sent == if old(client) == null then old(sent) else old(sent) + [Leave]
    {
      if client == null {
        return;
      }
      sent := sent + [Leave];
      client := null;
    }
  }
}
