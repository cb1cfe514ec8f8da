# Verified model of pyaiot

pyaiot is a dashboard for small networked devices. Gateways keep a cache of the nodes they can reach and
tell a broker what happens to them; the broker passes it on to web dashboards. This project models the
parts of the repository with the most involved logic, and proves what they are for.

**Replication of the nodes** (`Messages`, `Dashboard`, `Broker`, `Gateway`, `Network`, `Replay`, `Presence`,
`Convergence`, `History`, `Values`, `Leftovers`, `Draining`, `Provenance`, `Requests`, `Scenarios`, `Lookups`).
Gateways, broker and dashboards form a transition system over FIFO links, with connections that open, fail and
are noticed late, clients that come and go, and nodes that are added, updated, reset and removed while snapshots are on their way. The invariants compare a
gateway's cache with what is left after the messages still pending are replayed through the broker's router
and the dashboard's reducer. Each of the source's objects is also a class whose methods follow the code and
are proved to have the effect of the corresponding step.

**The CoAP gateway** (`Coap`, `CoapFailures`, `CoapObjects`, `CoapNetwork`, `LinkFormat`): the address book kept
beside the cache, exactly when a lookup in either fails, the timed eviction of silent nodes over whole runs
and up to the dashboards, and the discovery of a node's resources.

**The MQTT client** (`Bits`, `MqttWire`, `MqttClient`, `MqttConnect`): the bytes of MQTT 3.1.1, the loops that
write and read them, and the acknowledgement loop of quality 1. The socket is a sequence of bytes to read and
one of bytes written; Python's bit operators are defined on natural numbers.

**The teapot** (`TeapotData`, `Bezier`, `TeapotLayout`, `TeapotSurface`, `TeapotMesh`, `TeapotBuffers`): the
tessellation of a bicubic surface into buffers whose sizes are computed in advance, with the repository's own
tables. Coordinates are real numbers and arithmetic is exact.

## Assumptions

- Client uids are fresh, and no client is called "all" where a message could be taken for a broadcast.
- The broker deals with the end of a gateway's old socket before the same gateway opens a new one.
- What a gateway sends while it has no working connection is lost.
- A gateway that has connected sends its snapshot in the same step, as there is no `await` in between.
- Two gateways never cache the same uid; only `Convergence`, `Values` and the statements
  of `Draining` about dashboards need it.
- Clients send `new` and `update` messages only.
- For the values shown (a disciplined run): resource names carry no leading slash, and no discovery forwards a
  value for a node object that has been replaced.
- For the address book: nodes keep one address and share none, a uid that reads like an address is that of
  the node with this address, and no node publishes a resource called `ip`.
- The MQTT callback does not read the socket.

## Where the code and its own documentation disagree

The model follows the code.

- `handle_coap_check` calls a node whose uid is not in `node_mapping` a totally new one, but that dictionary
  is keyed by address: a cached node is recognised only if its uid is its address, and is added again
  otherwise (`Coap.RecognisedIff`).
- `reset_node` creates the coroutine of `discover_node` and never runs it, so a reset asks the node for
  nothing, and dashboards are not told the resources it has put back (`Values.ResetsAreNotTold`,
  `Scenarios.ResetLeavesGap`). `Values.DashboardsMirrorCaches` says exactly which resources are missing where.
- `add_node` speaks of a new node, but a cached one can be added again, as the CoAP gateway does at every
  check-in of a node whose uid is not its address. Dashboards then go on showing what the cache has dropped
  (`Values.ReAddMirrorsIff`, `Scenarios.DroppedResourceStaysOnShow`).
- The last branch of `on_broker_message` only logs, but looks up `data` to do so: a message without it that
  passed the broker's check ends the gateway's reading (`Wire.GatewayReadFailsIff`, `Wire.BareOutStopsGateways`).
  So does an `update` whose `data` is not an object, in cases that `check_broker_data` lets pass.
- `on_gateway_message` tests whether a type is a substring of "update" where equality is meant; on the
  accepted types it makes no difference (`Broker.SubstringTestIsEquality`).
- Keep-alives carry no `dst`; they are harmless only as long as no node is called "alive"
  (`Broker.WireRefinesRoute`, `Scenarios.KeepAliveFails`).
- The length byte of CONNECT is a single byte although nothing bounds what it counts
  (`MqttConnect.ConnectRoundTripIff`, `MqttConnect.LongIdentifierIsMisread`).
- Packet identifiers have two bytes on the wire, but the counter goes on past them, and is compared with what
  comes back as it is (`MqttWire.LateIdentifierIsNeverAcknowledged`).
- The teapot's documentation says that `fitLid` is off by default; it is on.

## Model

| member | source | states |
|---|---|---|
| `Draining.DashboardsCatchUp` | pyaiot/gateway/common/gateway.py:57-103 | From every reachable state, in whatever order what is on its way is delivered: when nothing is left to deliver, every client then registered, those included whose `new` was still on its way, shows exactly the union of the nodes that the connected gateways had cached all along |
| `Draining.DeliveryIsLess` | pyaiot/broker/broker.py:165-232 | Every delivery, on any link, strictly lowers a well-founded measure of what is on its way, although deliveries create further messages (a served request adds a snapshot, a routed message one copy per client) |
| `Draining.SomethingDelivers` | pyaiot/broker/broker.py:165-232 | Unless the network is settled some delivery is possible |
| `Draining.StuckIffSettled` | pyaiot/broker/broker.py:165-232 | Nothing can be delivered if and only if no message is on its way, but for requests to a gateway that is still connecting, and no lost connection is left unnoticed |
| `Draining.Settles` | pyaiot/gateway/common/gateway.py:128-134 | From every well-formed state deliveries, of which each lowers the measure, lead to a settled one |
| `Draining.DashboardsComeToMirror` | pyaiot/gateway/common/gateway.py:57-103 | And with the values: once nothing is left to deliver, every client then registered shows of each cached node exactly the resources that are not gaps, with the cached values, and nothing else but relics; without relics it is an equality |
| `Scenarios.NodesComeToBeShown` | pyaiot/dashboard/static/dashboard.html:523-581 | However it starts, there is a run from the initial state after which a client shows a node and a resource it has sent, just as cached, so the statements about runs are not empty |
| `Scenarios.ResetLeavesGap` | pyaiot/gateway/common/gateway.py:66-73 | There is a run after which, however the rest is delivered, a client shows a node without its `protocol`, cached since a reset |
| `Scenarios.DroppedResourceStaysOnShow` | pyaiot/gateway/common/gateway.py:57-64 | There is a run after which, however the rest is delivered, a client shows a resource that is not cached since the node was added again |
| `Scenarios.KeepAliveFails` | pyaiot/broker/broker.py:211-213 | There is a run after which the next message the broker takes makes it look up a field that is not there: the keep-alive of a gateway that owns a node called "alive" |
| `Convergence.AlwaysConverging` | pyaiot/gateway/common/gateway.py:92-103 | In every reachable state, for each connected gateway and registered client, either the client's `new` still waits at the gateway, or replaying the pending messages through router and reducer gives exactly the cached uids |
| `Convergence.ConvergingKept` | pyaiot/gateway/common/gateway.py:57-103 | The same as an inductive invariant: all twelve kinds of step keep it, joins, re-adds, evictions, reconnects and late joiners included |
| `Convergence.QuietDashboardsShowCaches` | pyaiot/dashboard/static/dashboard.html:523-581 | With no message on its way, a client shows a uid if and only if some connected gateway caches it |
| `Convergence.FinalAfterAction` | pyaiot/gateway/common/gateway.py:57-103 | What a client will end up showing of a node changes under a gateway's own action exactly as the action's messages say, whatever is queued before them |
| `Convergence.FinalAfterDelivery` | pyaiot/broker/broker.py:181-222 | Moving one message from a gateway through the router to the clients does not change what any client ends up showing |
| `Convergence.FinalAfterConnected` | pyaiot/gateway/common/gateway.py:124-127 | A snapshot sent on connection describes each cached node once, on top of whatever the clients showed |
| `Convergence.RegisteredWithRequest` | pyaiot/broker/broker.py:165-179 | A client is registered only by a `new`, which in the same step waits at every gateway |
| `Convergence.HomedKept` | pyaiot/gateway/common/gateway.py:57-103 | No step makes a gateway announce, or the broker own for it, a uid that belongs to another gateway |
| `Provenance.CachedIsGiven` | pyaiot/gateway/common/gateway.py:57-90 | Over every run: a gateway caches exactly the nodes added and not removed since, and of each exactly the resources given since it was last added or reset, with the values given last, by that add, the defaults of that reset or a later forward |
| `Provenance.NodesAreLabelled` | pyaiot/gateway/common/gateway.py:57-70 | While no node publishes a `protocol` of its own, every cached node has that of its gateway |
| `Provenance.ShownIsGiven` | pyaiot/gateway/common/gateway.py:57-103 | Once nothing is left to deliver, what a client shows of a cached node are the values last given, for every resource that is neither gap nor relic |
| `Presence.AlwaysSafe` | pyaiot/broker/broker.py:190-232 | In every reachable state ownership lists hold no duplicates, replaying a gateway's pending messages over its list gives exactly its cached uids, and no client shows, once it has read its socket, a node that no live gateway owns; uids may be shared between gateways |
| `Presence.SafeKept` | pyaiot/broker/broker.py:190-232 | The same as an inductive invariant over every kind of step |
| `Presence.DeliveryIsOneReplayStep` | pyaiot/broker/broker.py:190-222 | Handling one gateway message changes ownership and every client's drained view exactly as one step of the per-node replay |
| `Presence.ClosingRemovesItsNodes` | pyaiot/broker/broker.py:224-232 | In every reachable state, closing a gateway's socket takes off every dashboard each node that only that gateway owned |
| `Presence.FinalOwnAfterAction` | pyaiot/gateway/common/gateway.py:57-103 | Replaying the lengthened queue gives the changed cache after any add, forward, reset, removal or served request |
| `Presence.FinalOwnAfterConnected` | pyaiot/gateway/common/gateway.py:111-136 | After a reconnection the snapshot alone rebuilds the ownership list |
| `Presence.DrainedOtherwiseKept` | pyaiot/broker/broker.py:159-179 | Reading a client's queue early or late makes no difference to what it ends up showing |
| `Replay.ReplaySnapshot` | pyaiot/gateway/common/gateway.py:92-103 | A snapshot describes each cached node exactly once, and no other |
| `Replay.ShownImpliesOwned` | pyaiot/broker/broker.py:181-222 | No queue of messages makes a client show a node that the same queue does not leave owned |
| `Replay.OwnIgnoresShown` | pyaiot/broker/broker.py:181-222 | What is owned at the end of a queue does not depend on what any client shows |
| `Replay.OverlayMerges` | pyaiot/dashboard/static/dashboard.html:551-563 | Writing a node's resources over what is shown of it merges them into it |
| `Values.DashboardsMirrorCaches` | pyaiot/gateway/common/gateway.py:57-103 | Over every run with clean names and no stale object: once its request is served, a client will show a cached resource if and only if no reset has put it back without anything telling the client since; with the cached value; and what else it shows was dropped when the node was added again |
| `Values.ReachedDashboardsMirror` | pyaiot/gateway/common/gateway.py:57-103 | The same for any way in which a state is reached: some sequence of states leads there, and tells what is missing and what is left over |
| `Leftovers.ExtraIff` | pyaiot/gateway/common/gateway.py:57-64 | What a client shows beyond the cache, exactly: while it stays registered and its gateway connected, from a point on where it has been told of everything but the gaps, it shows a resource that is not cached if and only if it did so then, or the node was added again without it since, and nothing later has made up for it |
| `Leftovers.ServedIsInTouch` | pyaiot/gateway/common/gateway.py:92-103 | A client whose request has been served is such a client |
| `Values.MirrorsExactly` | pyaiot/gateway/common/gateway.py:57-103 | Where nothing was dropped, what is shown is the cache less the gaps |
| `Values.AlwaysMirrored` | pyaiot/gateway/common/gateway.py:57-103 | The invariant behind it, over every such run, for registered clients and for those that have not yet sent their `new` |
| `Values.ResetsAreNotTold` | pyaiot/gateway/common/gateway.py:66-73 | After a reset a client that shows the node will show nothing of it, although `protocol` and the defaults are cached |
| `History.GapIff` | pyaiot/gateway/common/gateway.py:66-73 | A gap is there exactly when some reset made it while the client was registered and nothing has told the client since: not the node added again, reset or removed, not a value, not an answer to its request, not a reconnection |
| `History.RelicIff` | pyaiot/gateway/common/gateway.py:57-64 | A relic is there exactly when the node was added again without the resource and nothing has made up for it since |
| `Values.ReAddMirrorsIff` | pyaiot/gateway/common/gateway.py:57-64 | `add_node` on a cached uid leaves an up-to-date client showing the old resources with the new ones over them: nothing beyond the cache if and only if the new ones cover the keys cached before |
| `Values.Turn.Keeps` | pyaiot/gateway/common/gateway.py:57-103 | No action with a clean name and a current object lets a client show what is not cached, short of a relic, or show a gap, or miss what is not one |
| `Values.ProspectShrinks` | pyaiot/broker/broker.py:165-232 | Deliveries, joins and departures never add to what a client may come to show |
| `Lookups.LookupsNeverFail` | pyaiot/broker/broker.py:181-222 | Over every run, while no node is called "alive" and no client "all", each message the broker takes passes its check and is routed without a missing key |
| `Broker.WireRefinesRoute` | pyaiot/broker/broker.py:181-222 | The dictionary-level code decides as the typed router does, and fails on exactly one case: a keep-alive from a gateway that owns a node called "alive" |
| `Broker.SubstringTestIsEquality` | pyaiot/broker/broker.py:211-212 | On the accepted types the substring test `in "update"` is equality |
| `Broker.Application.Broadcast` | pyaiot/broker/broker.py:152-157 | Appends the message to every client's queue, whatever order the clients are visited in |
| `Broker.Application.SendToClient` | pyaiot/broker/broker.py:159-163 | Appends the message to one client's queue and no other |
| `Broker.Application.HandleClientMessage` | pyaiot/broker/broker.py:115-179 | Stamps the sender, registers it on its first `new` only, and forwards to every gateway |
| `Broker.Application.HandleGatewayMessage` | pyaiot/broker/broker.py:181-222 | The branches of the code have the effect of the router the invariants are about |
| `Broker.Application.Open` | pyaiot/broker/broker.py:80-84 | A new gateway socket starts with an empty ownership list |
| `Broker.Application.CloseGateway` | pyaiot/broker/broker.py:224-232 | Announces every owned node as gone to every client, then forgets the list |
| `Broker.Application.CloseClient` | pyaiot/broker/broker.py:125-128 | Forgets the client, registered or not |
| `Dashboard.NodeList.ReceiveMessage` | pyaiot/dashboard/static/dashboard.html:523-581 | Pushing, splicing and editing the array has on the shown map the effect of the reducer, and keeps uids distinct |
| `Dashboard.NodeList.IndexOf` | pyaiot/dashboard/static/dashboard.html:525 | Finds the entry of a uid, or -1 exactly when it is not shown |
| `Dashboard.SpliceShown` | pyaiot/dashboard/static/dashboard.html:533-540 | Splicing an entry out of a list with distinct uids removes that uid, and only it, from what is shown |
| `Dashboard.PushShown` | pyaiot/dashboard/static/dashboard.html:527-532 | Pushing a new entry adds it to what is shown and keeps uids distinct |
| `Dashboard.EditShown` | pyaiot/dashboard/static/dashboard.html:541-563 | Replacing one entry's data changes that node only |
| `Dashboard.SlashIsStripped` | pyaiot/dashboard/static/dashboard.html:553 | One leading slash is dropped from any name, and nothing from a name without |
| `Gateway.GatewayBase.AddNewNode` | pyaiot/gateway/common/gateway.py:57-63 | Caches the labelled node and announces it with each resource, in order |
| `Gateway.GatewayBase.ResetCachedNode` | pyaiot/gateway/common/gateway.py:66-73 | The cached resources become the protocol and the defaults; only a `reset` is sent |
| `Gateway.GatewayBase.RemoveCachedNode` | pyaiot/gateway/common/gateway.py:75-79 | Drops the node and sends one `out` |
| `Gateway.GatewayBase.ForwardDataFromNode` | pyaiot/gateway/common/gateway.py:85-90 | Changes the cache only if the object is still the cached one; the update is sent in either case |
| `Gateway.GatewayBase.FetchNodesCache` | pyaiot/gateway/common/gateway.py:92-103 | Sends the whole snapshot, addressed to one client or to all |
| `Gateway.GatewayBase.OnConnected` | pyaiot/gateway/common/gateway.py:124-127 | The link is up and the snapshot sent in one step |
| `Gateway.GatewayBase.OnBrokerMessage` | pyaiot/gateway/common/gateway.py:147-172 | A `new` is answered with a snapshot for its sender, a write changes nothing yet, and a missing field or `data` of the wrong type ends the reading |
| `Wire.GatewayReadFailsIff` | pyaiot/gateway/common/gateway.py:153-172 | A message that the broker lets pass makes the gateways raise if and only if it is not a `new` and carries no `data`, or is an `update` whose `data` is no object but a number, or a text or list that mentions the three fields |
| `Wire.WritesIff` | pyaiot/gateway/common/gateway.py:157-168 | A message is taken for a write if and only if it is an `update` whose `data` is an object of exactly the three fields |
| `Wire.BareOutStopsGateways` | pyaiot/gateway/common/gateway.py:169-172 | A client's `out` without more, which the broker lets pass, is such a message |
| `Wire.RequestsAreRead` | pyaiot/gateway/common/gateway.py:153-168 | What dashboards send passes the check and is read as it is meant |
| `Network.ServingIsReading` | pyaiot/gateway/common/gateway.py:153-156 | Serving a request in the transition system is what `on_broker_message` does with its encoding |
| `Requests.SentIsTaken` | pyaiot/broker/broker.py:115-123 | Over every run: what a client has sent is what the broker has taken from it, in order, and what still waits |
| `Requests.TakenIsRead` | pyaiot/broker/broker.py:165-179 | Over every run: the requests a gateway has read, and those that wait for it, are exactly those the broker has taken from clients since the gateway's socket was opened, writes included, each with its sender, once and in order |
| `Requests.WriteIsRead` | pyaiot/broker/broker.py:165-179 | A write taken from a client is read by every gateway whose socket is open and stays so, once it has read what waits for it: with the uid, endpoint and payload sent, and that client as source |
| `Requests.RequestsArrive` | pyaiot/broker/broker.py:165-179 | Where nothing is left to deliver, the broker has taken all that clients have sent, and every connected gateway has read all of that |
| `Gateway.GatewayBase.SendToBroker` | pyaiot/gateway/common/gateway.py:141-145 | Appends to the socket while there is one |
| `Gateway.Node.SetResourceValue` | pyaiot/gateway/common/node.py:59-63 | Sets one resource; a known key keeps its place in the order |
| `Gateway.Node.Reinitialise` | pyaiot/gateway/common/gateway.py:68-71 | Clearing, labelling and the loop over the defaults give the reset resources |
| `Gateway.Node.ClearResources` | pyaiot/gateway/common/node.py:65-66 | Leaves no resource |
| `Gateway.Node.UpdateLastSeen` | pyaiot/gateway/common/node.py:56-57 | Sets the time and nothing else |
| `Coap.AddressBookIsInverse` | pyaiot/gateway/coap/gateway.py:202-237 | In every run with one unshared address per node, no lookup or pop fails and `node_mapping` is the exact inverse of the cache by `ip` |
| `Coap.RecognisedIff` | pyaiot/gateway/coap/gateway.py:210-228 | In such runs a cached node is recognised at its next check-in if and only if its uid is its address; any other is added again every time, resets included |
| `Coap.RemoveAllIff` | pyaiot/gateway/coap/gateway.py:234-237 | The removal loop goes through if and only if the nodes to remove have distinct addresses that are all in the book |
| `CoapFailures.HandleDoneIff` | pyaiot/gateway/coap/gateway.py:202-237 | A check, a post or a cleanup goes through if and only if its guard holds: a known address for the first two, distinct addresses in the book for the expired nodes |
| `CoapFailures.RunDoneIff` | pyaiot/gateway/coap/gateway.py:202-237 | Over any run, whatever the nodes do, no lookup or pop fails if and only if every event finds its guard satisfied |
| `CoapFailures.SharedAddressFails` | pyaiot/gateway/coap/gateway.py:210-237 | Two nodes with one address, and nothing else amiss: a cleanup fails |
| `CoapFailures.MistakenUidFails` | pyaiot/gateway/coap/gateway.py:210-228 | A uid that reads like the address of another node: its check-in fails |
| `CoapFailures.PublishedIpFails` | pyaiot/gateway/coap/gateway.py:202-237 | A node that publishes an `ip`, by a post or in an answer: a cleanup fails |
| `CoapFailures.MovedNodeFails` | pyaiot/gateway/coap/gateway.py:202-237 | A node that changes its address: a post from the old one fails after its removal |
| `Coap.InverseAfterCleanup` | pyaiot/gateway/coap/gateway.py:230-237 | A cleanup evicts exactly the expired nodes and announces each once |
| `Coap.InverseAfterCheck` | pyaiot/gateway/coap/gateway.py:210-228 | A check-in never fails, keeps the dictionaries inverse, and counts as a sighting unless it is a reset of a recognised node |
| `Coap.Scenario.NeverEvictedWhileChecking` | pyaiot/gateway/coap/gateway.py:210-237 | Over whole runs, a node whose checks, other than recognised resets, come at most `max_time` apart is never evicted, truncation of the clock notwithstanding |
| `Coap.Scenario.FirstEvictedInTime` | pyaiot/gateway/coap/gateway.py:210-237 | A node that since L has sent nothing but recognised resets is evicted all the same: for the first time after L + max_time and no later than L + max_time + 1 + p when cleanups come at least every p seconds |
| `Coap.Scenario.EvictedOnceInTime` | pyaiot/gateway/coap/gateway.py:150-237 | One that has sent nothing at all since is evicted exactly once, within the same bounds |
| `Coap.Scenario.EvictionsAreAnnounced` | pyaiot/gateway/coap/gateway.py:230-237 | While connected, a cleanup sends one `out` for each node it removes and nothing else |
| `CoapNetwork.EventActs` | pyaiot/gateway/coap/gateway.py:202-237 | Each event the gateway handles is a sequence of actions of the transition system |
| `CoapNetwork.StepIsLink` | pyaiot/gateway/common/gateway.py:111-145 | And each step of the network that is no action of the gateway is to it a change of its connection and queue, or nothing |
| `CoapNetwork.TogetherIsBoth` | pyaiot/gateway/coap/gateway.py:202-237 | A CoAP gateway and a network interleaved in any way make a run of the gateway's events and a run of the network's steps at once, so that what is proved of either holds |
| `CoapNetwork.EventInNet` | pyaiot/gateway/coap/gateway.py:202-237 | The gateway can do what an event asks whatever state the network is in |
| `CoapNetwork.MuteNodeLeavesDashboards` | pyaiot/gateway/coap/gateway.py:230-237 | Whatever the rest of the network does: a node that has sent nothing since L is off every dashboard, once `max_time` + 1 seconds and one interval between cleanups are over and what is then on its way has been delivered |
| `CoapObjects.CoapGateway.HandleCoapCheck` | pyaiot/gateway/coap/gateway.py:210-228 | The method on objects has the effect of the specification, and fails when it does |
| `CoapObjects.CoapGateway.HandleCoapPost` | pyaiot/gateway/coap/gateway.py:202-208 | Likewise; an unknown address is ignored |
| `CoapObjects.CoapGateway.DeadNodes` | pyaiot/gateway/coap/gateway.py:232-233 | Collects the expired cached objects, in cache order |
| `CoapObjects.CoapGateway.CheckDead` | pyaiot/gateway/coap/gateway.py:230-237 | The removal loop over the collected objects has the effect of the specification: when it goes through it leaves what the whole cleanup does, and when it fails what the turns before left |
| `LinkFormat.DiscoveryInverts` | pyaiot/gateway/coap/gateway.py:51-185 | Discovery finds exactly the paths written, in order, less the entries in whose text the characters `well-known/core` stand at some place, wherever blanks are put in the payload; from no path at all it finds one, the empty one |
| `LinkFormat.OrdinaryIsDiscovered` | pyaiot/gateway/coap/gateway.py:167-185 | Links with those characters nowhere in their path or attributes are all discovered, in order |
| `LinkFormat.SplitOfJoin` | pyaiot/gateway/coap/gateway.py:51-53 | Splitting at the comma undoes joining with it |
| `LinkFormat.PathReadsBack` | pyaiot/gateway/coap/gateway.py:173-175 | Dropping attributes and brackets gives back the path |
| `MqttWire.AwaitConsumesToItsAck` | utils/pycom/libs/umqtt.py:119-127 | For any stream of well-formed packets that holds its acknowledgement, `publish(qos=1)` consumes exactly up to the first PUBACK with its own identifier, delivers the PUBLISH packets before it in order, and acknowledges each that asks, with its own identifier |
| `MqttWire.AwaitWithoutAckFails` | utils/pycom/libs/umqtt.py:119-160 | Without it, everything is delivered and the end of the stream is an error |
| `MqttWire.LateIdentifierIsNeverAcknowledged` | utils/pycom/libs/umqtt.py:112-127 | The counter is sent as two bytes and compared in full: past 65535 no stream of bytes makes `publish(qos=1)` return |
| `MqttWire.StreamRoundTrip` | utils/pycom/libs/umqtt.py:96-184 | The bytes of any sequence of PUBLISH packets, read by repeated `wait_msg`, give back exactly those topics and payloads, one packet a call |
| `MqttWire.PublishRoundTrip` | utils/pycom/libs/umqtt.py:154-184 | One `wait_msg` takes exactly one PUBLISH of quality 0 or 1, whatever follows it |
| `MqttWire.ServerReadsPublish` | utils/pycom/libs/umqtt.py:97-117 | A decoder of PUBLISH packets reads back every field of every packet, and leaves what follows |
| `MqttWire.QualityTwoFails` | utils/pycom/libs/umqtt.py:183-184 | A PUBLISH of quality 2 is delivered, and only then is it an error |
| `MqttWire.BadLengthsFail` | utils/pycom/libs/umqtt.py:119-164 | A PINGRESP or PUBACK of the wrong length is an error, raised right after the length |
| `MqttWire.OnePublish` | utils/pycom/libs/umqtt.py:97-117 | Topic "a" and payload "b" are the bytes 30 04 00 01 61 62, and the length 321 the bytes 193 and 2 |
| `MqttWire.LengthRoundTrip` | utils/pycom/libs/umqtt.py:33-41 | `_recv_len` reads back every Remaining Length and leaves exactly the rest |
| `MqttWire.LengthIsMinimal` | utils/pycom/libs/umqtt.py:103-108 | No encoding that reads as the same number is shorter than the one written |
| `MqttWire.LengthFits` | utils/pycom/libs/umqtt.py:102 | The asserted bound is exactly the largest length that fits three bytes |
| `MqttClient.Client.ReceiveLength` | utils/pycom/libs/umqtt.py:33-41 | The loop of shifts and masks computes the decoding, or fails at the end of the stream exactly when there is none |
| `MqttClient.Client.PutLength` | utils/pycom/libs/umqtt.py:103-108 | The shift loop writes the minimal encoding in places 1 to 3 of the four-byte buffer and leaves the first byte alone |
| `MqttClient.Client.Wait` | utils/pycom/libs/umqtt.py:154-184 | Reads, delivers, acknowledges and fails as the specification says, on every stream, malformed ones included |
| `MqttClient.Client.AwaitPubAck` | utils/pycom/libs/umqtt.py:119-127 | The waiting loop has the effect of the specification on every stream |
| `MqttClient.Client.SendPublish` | utils/pycom/libs/umqtt.py:97-117 | The buffer edited in place and written in pieces reads back, to a server, as exactly the topic, payload, quality and retain flag given, not a duplicate, with the low two bytes of the counter as identifier; and to another client as that one delivery |
| `MqttClient.Client.Publish` | utils/pycom/libs/umqtt.py:96-129 | The same of all that `publish` writes, acknowledgements after it included; too long a packet is refused before anything is written; quality 2 is refused after the packet has gone out; quality 0 uses no identifier |
| `MqttClient.Client.SendStr` | utils/pycom/libs/umqtt.py:29-31 | Writes the two-byte length and the string |
| `MqttConnect.ConnectRoundTripIff` | utils/pycom/libs/umqtt.py:60-82 | A server reads back every input of `connect` if and only if the remaining length is below 128 |
| `MqttConnect.LongIdentifierIsMisread` | utils/pycom/libs/umqtt.py:60-82 | With a client identifier of 116 bytes, and nothing else, it is 128 and the server reads something else |
| `MqttConnect.ConnectSize` | utils/pycom/libs/umqtt.py:61-82 | What follows the fixed header is as long as the lengths added up in `msg[1]` |
| `MqttConnect.FlagsDecode` | utils/pycom/libs/umqtt.py:62-73 | The flag byte gives back session, login, will, its quality and its retain bit |
| `MqttConnect.Connect` | utils/pycom/libs/umqtt.py:54-87 | Header built in place, strings, and answer: all bytes written; an answer that accepts returns its session bit, any other return code is raised, what follows stays unread, and four bytes of another type or length fail |
| `MqttConnect.AnswerRoundTrip` | utils/pycom/libs/umqtt.py:83-87 | For every session bit and return code, the CONNACK a server writes is read back: the bit if the code is 0, and the code as a refusal otherwise |
| `MqttConnect.AnswerIff` | utils/pycom/libs/umqtt.py:83-87 | Four bytes are an answer if and only if they announce a CONNACK of length 2, and an acceptance if and only if, moreover, the last is 0 |
| `TeapotBuffers.Teapot` | pyaiot/dashboard/static/js/TeapotBufferGeometry.js:56-720 | For every request, with the repository's own tables: each vertex shows its point of the surface, turned upright, scaled to the size and centred, with a normal of the surface there and its texture coordinates; a triangle of the mesh is in the index buffer if and only if the positions stored for its corners are pairwise different, nothing else is, and none twice; the vertex buffers are exactly full and no triangle is lost for want of room |
| `TeapotBuffers.RequestsAreMet` | pyaiot/dashboard/static/js/TeapotBufferGeometry.js:408-429 | Every size but 0, number of segments from 2 on and choice of parts can be asked for and is what is drawn; nothing asked for is the whole teapot in size 50 with ten segments |
| `TeapotBuffers.LidMeetsRim` | pyaiot/dashboard/static/js/TeapotBufferGeometry.js:564-577 | Rim and brim are on one height, and with `fitLid` the brim just covers the rim where otherwise a gap is left; without `blinn` both are 1.3 times as high |
| `TeapotBuffers.Buffers.Tessellate` | pyaiot/dashboard/static/js/TeapotBufferGeometry.js:543-720 | The nested loops write exactly the specified vertices and the triangles kept, and nothing after them |
| `TeapotBuffers.Buffers.EmitPatch` | pyaiot/dashboard/static/js/TeapotBufferGeometry.js:543-718 | One patch, with every write in bounds |
| `TeapotBuffers.Buffers.EmitCell` | pyaiot/dashboard/static/js/TeapotBufferGeometry.js:691-713 | The two triangles of a cell, each unless it is degenerate |
| `TeapotBuffers.Buffers.Gather` | pyaiot/dashboard/static/js/TeapotBufferGeometry.js:553-582 | The control values are gathered transposed, with both adjustments |
| `TeapotBuffers.Buffers.PowerVector` | pyaiot/dashboard/static/js/TeapotBufferGeometry.js:601-622 | The counting-down loop computes the powers and their derivatives |
| `TeapotSurface.TeapotFits` | pyaiot/dashboard/static/js/TeapotBufferGeometry.js:439-452 | The closed-form sizes: vertices fill theirs exactly, triangles kept never exceed theirs, for all parts and segments |
| `TeapotSurface.PlacedKeepsDistances` | pyaiot/dashboard/static/js/TeapotBufferGeometry.js:671-673 | Output points differ as the points of the surface do, turned and scaled, so that squared distances are kept up to the square of the scale |
| `TeapotSurface.PlacedShows` | pyaiot/dashboard/static/js/TeapotBufferGeometry.js:431-435 | x, and the turned y and z, are recovered from the output, where the whole height becomes twice the size |
| `TeapotSurface.PlacedIsOneToOne` | pyaiot/dashboard/static/js/TeapotBufferGeometry.js:671-673 | Different points of the surface have different positions in the output |
| `TeapotSurface.NormalPointsAway` | pyaiot/dashboard/static/js/TeapotBufferGeometry.js:649-668 | Off the axis the normal is `normalize` of a vector orthogonal to both output tangents, on the side of the tangent along t times that along s, turned as the points are |
| `TeapotSurface.TurnedKeeps` | pyaiot/dashboard/static/js/TeapotBufferGeometry.js:666-673 | The turn keeps inner products and orientation |
| `TeapotSurface.HeightWithin` | pyaiot/dashboard/static/js/TeapotBufferGeometry.js:432-435 | No point of any patch is more than `size` from the middle |
| `TeapotSurface.CornersWithin` | pyaiot/dashboard/static/js/TeapotBufferGeometry.js:672 | Nor is any vertex emitted |
| `TeapotSurface.TeapotIsShaped` | pyaiot/dashboard/static/js/TeapotBufferGeometry.js:60-392 | The real tables meet what the proofs need: heights in range, first row of each cusp patch one point |
| `TeapotSurface.CuspCollapses` | pyaiot/dashboard/static/js/TeapotBufferGeometry.js:654-660 | Along the first row of a cusp patch the surface is one point, the cross product vanishes, and the normal set there points up for the lid and down for the bottom |
| `Bezier.MatrixIsBernstein` | pyaiot/dashboard/static/js/TeapotBufferGeometry.js:455-635 | The matrix form evaluates the bicubic Bernstein form, for points and both tangents |
| `Bezier.PatchStaysWithin` | pyaiot/dashboard/static/js/TeapotBufferGeometry.js:601-635 | A patch stays between its lowest and its highest control value |
| `Bezier.EdgeCollapses` | pyaiot/dashboard/static/js/TeapotBufferGeometry.js:601-635 | A constant first control row makes the edge s = 0 one point without a tangent along it |
| `TeapotLayout.FacesFit` | pyaiot/dashboard/static/js/TeapotBufferGeometry.js:439-443 | At least as many triangles as segments are dropped per cusp patch, so the total stays within the closed form |
| `TeapotLayout.VerticesFill` | pyaiot/dashboard/static/js/TeapotBufferGeometry.js:445-452 | The loops write as many vertices as the closed form says |
| `TeapotLayout.CornersAt` | pyaiot/dashboard/static/js/TeapotBufferGeometry.js:591-713 | Every number a face can hold is that of a vertex already written, at the place meant |
| `TeapotMesh.NumbersRefer` | pyaiot/dashboard/static/js/TeapotBufferGeometry.js:687-715 | The same for every number in the finished index list |
| `TeapotMesh.AllFacesIff` | pyaiot/dashboard/static/js/TeapotBufferGeometry.js:684-718 | The faces listed are exactly those of the mesh that are kept |
| `TeapotMesh.SideOccursOnce` | pyaiot/dashboard/static/js/TeapotBufferGeometry.js:687-713 | Before the degenerate filter every directed side occurs at most once |
| `TeapotMesh.SidesMeet` | pyaiot/dashboard/static/js/TeapotBufferGeometry.js:687-713 | A side is run the other way by exactly the face across it, and by none if it is on the edge of the patch |
| `TeapotMesh.BorderIsUnmatched` | pyaiot/dashboard/static/js/TeapotBufferGeometry.js:687-713 | The unmatched sides are exactly the 4n listed sides of the border |
| `TeapotMesh.BorderIsDistinct` | pyaiot/dashboard/static/js/TeapotBufferGeometry.js:687-713 | No side of the border is listed twice |
| `TeapotMesh.BorderIsALoop` | pyaiot/dashboard/static/js/TeapotBufferGeometry.js:687-713 | The border is one closed loop |
| `TeapotMesh.KeptSidesOccurOnce` | pyaiot/dashboard/static/js/TeapotBufferGeometry.js:698-713 | Over the whole geometry and whatever is dropped, the triangles kept are consistently oriented and none occurs twice |

## Left out

- Gateways for MQTT and WebSocket nodes: both create the coroutine of `add_node` without running it, so that
  their nodes never enter the cache.
- Authentication, keys, options, signals and start-up.
- JSON text and character encodings: a message is a value, and a malformed one matters only to `check_message`.
- The event loop: what happens between two `await`s is one step, and a link is a queue.
- The rest of the dashboard: charts, map, layout and sockets. A `position` is kept as the text it arrives as.
- What CoAP requests and their payloads mean: the answer to one is a `Forward` that may happen at any time.
- Values.DashboardsMirrorCaches: leaves out values forwarded by a discovery that still holds a replaced node
  object; those steps are in the model of who shows which node, where they cannot add one.
- Values.AlwaysMirrored: leaves out the same steps.
- CoapFailures.SharedAddressFails: names one run, like the three lemmas beside it; `CoapFailures.RunDoneIff` has
  the condition for all of them.
- Draining.DashboardsCatchUp: needs disjoint uids, like everything that speaks of equality with the caches.
- Gateway.GatewayBase.OnBrokerMessage: where `data` is an object, its values are kept as text.
- MqttClient.Client.Publish: requires a topic below 65536 bytes, as the protocol does, and a callback that does
  not call `publish`; the two bytes of an identifier are the low ones of the counter, as MicroPython packs them.
- MqttClient.Client.Wait: the non-blocking `check_msg`, where a read may return nothing, is not modelled.
- CoapNetwork.MuteNodeLeavesDashboards: is about one CoAP gateway among others of any kind; events of a second
  one are steps of the network.
- The MQTT client's TLS, the opening of the socket, `subscribe`, `ping` and `disconnect`.
- MqttConnect.Connect: a byte of the buffer keeps the low eight bits of what is stored in it, as MicroPython's
  does; a user without a password, which the source cannot encode, is not modelled.
- TeapotBuffers.Teapot: exact arithmetic. Rounding, and what `normalize` computes, are left out; the latter is
  a parameter. `Matrix4` and `Vector4` are taken to be the usual matrices and vectors.
- TeapotSurface.TeapotFits: whether triangles outside the cusps can be degenerate is not settled, so that the
  number kept is bounded and not computed.
- TeapotBuffers.Buffers.PowerVector: the source runs the loop for s and t side by side; here it runs once for each.
