# Realtime client networking core, modelled in Dafny

This project models two sequential pieces of the networking layer of a Unity
real-time multiplayer client.

- **Packet queue** (`packet_queue.dfy`, module `Packets`). This is the FIFO of
  `(MsgId, payload)` records that the network side fills and the frame loop
  drains. The class `PacketQueue` keeps the queued records in a `seq` field.
  Its methods `Push`, `Pop` and `PopAll` update that field in place. `PopAll`
  keeps the source's dequeue loop. Each method is tied to `Step`, a pure
  description of one atomic operation. `Run` replays any sequence of
  operations. The lemmas about `Run` state conservation, FIFO order, no loss,
  no duplication, and emptiness after a drain.
- **Connection lifecycle manager** (`game_client_manager.dfy`, module
  `GameClient`). `GetAddress` keeps the source's scan for the first port entry
  named `"default"`. It is proved equal to the pure `Resolve`, which returns
  no endpoint when the request failed, when no entry is named `"default"` or
  when the port is 0. The class `GameClientManager` holds the nullable
  `client` and a ghost log of the handshake packets sent (ENTER with
  `"Main" + connectionId`, and LEAVE). `Connect` and `Disconnect` are proved
  against the pure transitions `ConnectStep` and `DisconnectStep`. Lemmas
  about `Replay` state how sequences of calls behave.

The code assigns `client` before the transport connect and never clears it
when the connect fails. The model keeps this behaviour. After such a failure,
every later `Connect` does nothing until `Disconnect` runs
(`FailedTransportBlocksConnect`). That `Disconnect` then sends a LEAVE
although no ENTER was ever sent (`LeaveWithoutEnter`). One might expect a
failed transport connect to leave no connection; the code keeps the client,
and the model follows the code.

The asynchronous outcomes are inputs:

- `response: Option<Discovery>` is `None` when the HTTP request did not
  succeed. Otherwise it holds the parsed document: the address string and the
  `(name, port)` list.
- `transportSucceeds` is the result of the transport connect.

## Model

| member | source | states |
|---|---|---|
| Packets.PacketQueue.constructor | Assets/Network/Script/PacketQueue.cs:16 | a new queue holds no records |
| Packets.PacketQueue.Push | Assets/Network/Script/PacketQueue.cs:19-25 | exactly one record `(id, packet)` is appended at the tail; earlier records are unchanged and in order |
| Packets.PacketQueue.Pop | Assets/Network/Script/PacketQueue.cs:27-36 | on an empty queue returns None (null) and changes nothing; otherwise returns the head and leaves the old tail |
| Packets.PacketQueue.PopAll | Assets/Network/Script/PacketQueue.cs:38-49 | returns the entire prior contents in FIFO order (the empty list for an empty queue) and leaves the queue empty |
| Packets.RunConserves | Assets/Network/Script/PacketQueue.cs:16-49 | for any sequence of operations, everything popped followed by what is still queued equals the initial contents followed by every pushed record |
| Packets.DeliveredIsPrefix | Assets/Network/Script/PacketQueue.cs:16-49 | with a single producer, the concatenation of all Pop/PopAll results is a prefix of the push order |
| Packets.NothingLostOrDuplicated | Assets/Network/Script/PacketQueue.cs:16-49 | each pushed record is handed out once or still queued, never both and never neither (multiset equality) |
| Packets.NothingAfterDrain | Assets/Network/Script/PacketQueue.cs:40-48 | a PopAll hands out the whole queue; any pops or drains after it with no push between hand out nothing and leave the queue empty, so a second PopAll returns the empty list |
| GameClient.DefaultPort | Assets/Scripts/Network/Game/GameClientManager.cs:49-58 | the port of the first entry named "default"; later entries are ignored; 0 when no entry has that name |
| GameClient.FirstDefaultExists | Assets/Scripts/Network/Game/GameClientManager.cs:51-57 | if any entry is named "default", a first such entry exists, so the scan always finds it |
| GameClient.Resolve | Assets/Scripts/Network/Game/GameClientManager.cs:42-65 | no endpoint when the request failed, when no entry is named "default" or when its port is 0; otherwise the document's address with the first "default" port |
| GameClient.LaterEntriesIgnored | Assets/Scripts/Network/Game/GameClientManager.cs:53-56 | entries after the first "default" one can be replaced without changing the resolved endpoint |
| GameClient.ResolveExample | Assets/Scripts/Network/Game/GameClientManager.cs:51-60 | ports `debug:1000, default:2000` at `10.0.0.5` resolve to `(10.0.0.5, 2000)` |
| GameClient.GameClientManager.GetAddress | Assets/Scripts/Network/Game/GameClientManager.cs:38-66 | the foreach/break scan returns exactly the endpoint `Resolve` specifies |
| GameClient.Client.constructor | Assets/Scripts/Network/Game/GameClientManager.cs:82 | assumed (see Left out): the client obtained from the connection manager starts with no client id |
| GameClient.GameClientManager.constructor | Assets/Scripts/Network/Game/GameClientManager.cs:31 | a manager starts with no client and has sent nothing |
| GameClient.GameClientManager.Connect | Assets/Scripts/Network/Game/GameClientManager.cs:68-98 | with a client present nothing changes and nothing is sent; failed resolution leaves the client null and sends nothing; transport failure leaves a fresh non-null client with no id and sends nothing; success sets the client id to `connectionId` and sends exactly one ENTER with id `"Main" + connectionId` |
| GameClient.GameClientManager.Disconnect | Assets/Scripts/Network/Game/GameClientManager.cs:100-109 | with no client nothing is sent; otherwise exactly one LEAVE is sent; either way the client is null afterwards |
| GameClient.ReplayKeepsLogInvariant | Assets/Scripts/Network/Game/GameClientManager.cs:68-109 | every Connect/Disconnect keeps the log invariant: no ENTER directly follows an ENTER, and the last packet is the current client's ENTER exactly when the client completed the handshake |
| GameClient.SessionsNeverOverlap | Assets/Scripts/Network/Game/GameClientManager.cs:70-73 | from a fresh manager, no ENTER directly follows an ENTER in the sent log (two LEAVEs may be adjacent) |
| GameClient.FailedTransportBlocksConnect | Assets/Scripts/Network/Game/GameClientManager.cs:70-85 | after a resolved connect whose transport fails, the client stays non-null and every later Connect changes nothing and sends nothing |
| GameClient.LeaveWithoutEnter | Assets/Scripts/Network/Game/GameClientManager.cs:82-85 | Connect with a failed transport followed by Disconnect sends one LEAVE and no ENTER |
| GameClient.DisconnectReopens | Assets/Scripts/Network/Game/GameClientManager.cs:70 | after Disconnect (one LEAVE when a client was present), an immediate Connect passes the guard and, on success, sends exactly one ENTER |

## Left out

- The `lock` in the packet queue exists only for concurrency. Each queue operation is modelled as one atomic step, and callers are sequential.
- `PopAll` returns a fresh `List` object in the source. The model returns a sequence value, so freshness and aliasing of the list are not modelled.
- The payload `IMessage` is a type parameter, and `MsgId` is the integer value of the protocol enumeration.
- The HTTP request (`UnityWebRequest`) and the JSON parsing are not modelled. The request outcome and the parsed document are the input `response`. The exceptions thrown for missing JSON fields or a non-integer port are library behaviour and are not modelled.
- `IPAddress.Parse` and the `IPEndPoint` constructor are not modelled. The endpoint keeps the address string. Their exceptions for a malformed address or an out-of-range port are not modelled.
- `ConnectionManager.GetConnection` is modelled as allocating a new `Client`. `ConnectionManager.Connect` is the input `transportSucceeds`. `PacketManager.MakeSendBuffer` and `Client.Send` are modelled as appending the packet to the ghost log.
- The `await` points in `Connect` are not modelled. Each call runs to completion, so two overlapping `Connect` calls that both pass the null guard are not modelled.
- The UI calls (`StackPanel`, `FetchPanel`, `PopPanel`), `Debug.Log`, and the `Instance` singleton lookup are not modelled. `Start` is not modelled because it only opens a UI panel.
- GameClient.Client.constructor: `ConnectionManager.GetConnection` is not part of this model, so nothing says what `ClientId` the returned object carries (it could be a pooled object). The model assumes a new client with no id. `Connect`'s transport-failure outcome and the log invariant of `ReplayKeepsLogInvariant` rely on this assumption.
- GameClient.GameClientManager.Connect: `connectionId` is a non-null string. A null `connectionId` is accepted by the C# code, giving the ENTER id `"Main"` and a null `ClientId`. The model does not cover that case, which it would not distinguish from "no id yet".
- The `Client` property getter needs no model beyond the `client` field.
