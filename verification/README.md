# Pairing broker: a Dafny model

This project models the pairing core of a small broker that lets a remote machine (a
"robot", or device) announce itself over a persistent connection and lets a controller (a
"user") claim that machine. The two sides then swap two opaque credentials through a
short-lived key/value store. The device deposits a host token under `HT:<machine_id>`, and a
granted claim reads it and deletes it. The controller posts a client token under
`CT:<machine_id>`, and the device's relay loop forwards it once and deletes it.

The broker's state is one immutable record, `Broker.State`. It holds:

- `connected`: the connected robots, each mapped to an abstract connection id that stands
  for its transport handle;
- `claims`: the claim map from machine to user. The user id is an `Option`, because the
  query parameter may be absent and is then stored as `None`;
- `store`: the credential store, a `map<string, string>`.

Every operation is a pure function from a state to the next state. When the operation sends
something, it returns a `Transition`, which pairs what was sent with the next state; deposit and
cleanup send nothing and return the next state alone. The operations are registration, host-token deposit, the claim
decision with acceptance, client-token submission, one poll of the relay loop, and
disconnect cleanup. `Traces` runs any sequence of these operations atomically and proves
properties over all such sequences.

Files:

- `options.dfy`: `Option`.
- `token_store.dfy`: the store interface and the two key namespaces.
- `messages.dfy`: the parsed frames and replies, and how they render as JSON.
- `broker.dfy`: the state, the invariant, the operations and their one-step properties.
- `traces.dfy`: runs of operations, the reachable-state invariant, read-once and
  exactly-once credential hand-off, and a worked scenario.

Behaviour of the code worth knowing:

- **Per-user uniqueness is not enforced.** The comment at `src/websocket.py:77-78` asks for
  only a one-to-one connection between each robot and a single user. But the "is the user
  elsewhere?" check runs only when the requested machine is already claimed. A user who
  holds one machine is granted a second connected, unclaimed machine
  (`Broker.UserMayHoldTwoMachines`). No one-machine-per-user property is claimed.
- **Claims are checked before liveness.** The code looks for an existing claim before it
  asks whether the machine is connected. `Broker.Policy` is an independent reference that
  checks liveness first. The two orders decide alike whenever every claimed machine is
  connected (`Broker.DecideMatchesPolicy`). That invariant holds in every reachable state
  (`Traces.ReachableClaimsConnected`).
- **Re-registration is silent.** A second connection announcing an id that is already
  connected is not refused with an error. It is simply not registered, and it goes on to
  deposit and poll like the first.
- **The user id may be missing.** It is not rejected; `None` takes part in the comparisons
  like any other value and prints as `None` in messages.
- **The host token may be missing at claim time.** A claim is granted even when no host token
  was deposited, and the reply then carries a null host token.
- **The rejection of a second user depends on that user.** If the second user holds no
  machine, the reply is "Remote Connection is already in use...!!!", not "already connected
  with another robot".

## Model

| member | source | states |
|---|---|---|
| Broker.Register | src/websocket.py:125-133 | A machine id not yet connected is bound to this connection and gets the one confirmation frame. An id already connected keeps its earlier connection, and nothing is sent. Claims and store never change. |
| Broker.OpenSession | src/websocket.py:184-189 | A non-robot first frame is a bad connection that changes nothing. A robot frame is exactly registration of its machine id, if any: the same messages and the same next state, so an existing entry and every other connection are kept. Claims and store never change. |
| Broker.DepositHostToken | src/websocket.py:134-141 | The credential frame makes `HT:<id>` read back its host token. Every other key, the connected set and the claims are unchanged. No frame means no change. |
| Broker.RelayStep | src/websocket.py:143-156 | If `CT:<id>` is staged, its value is sent to the device as `{client_token}` and the key then reads absent, with nothing else changed. If it is absent, nothing is sent and nothing changes. |
| Broker.Cleanup | src/websocket.py:201-219 | Cleanup for the captured id removes it from the connected set and drops any claim on it. Other machines keep their connections and claims, and the store is unchanged. |
| Broker.CapturedId | src/websocket.py:204-209 | The id cleanup acts on: the frame's machine id exactly when the frame is of robot type and carries an id, and nothing otherwise. |
| Broker.Decide | src/websocket.py:79-103 | The claim outcome, one per branch. Grant exactly when the machine is unclaimed and connected; offline exactly when it is neither; self-reclaim exactly when it is claimed by the same user. A machine held by another user is "held elsewhere" exactly when the requester appears among the claim holders, and "held by other" exactly when the requester does not. |
| Broker.DecideMatchesPolicy | src/websocket.py:79-103 | While every claimed machine is connected, the code's order of checks and the liveness-first order of `Broker.Policy` decide alike. |
| Broker.DecideDiffersFromPolicyWithoutInvariant | src/websocket.py:79-95 | With a stale claim on a disconnected machine, the two orders disagree: the code's order says "in use" where the liveness-first order says offline. |
| Broker.Accept | src/websocket.py:108-114 | Acceptance records the claim and replies with the prior value of `HT:<id>`, possibly none. Afterwards that key reads absent, and no other key or connection changes. |
| Broker.RequestHostToken | src/websocket.py:73-103 | Offline gives the status "<id> is Offline" with no change. Grant gives acceptance as above. The same user again has its claim released and gets an error, with the store unchanged. Another holder leaves the state unchanged, and the error is "already connected with another robot" exactly when the requester holds a machine, "in use" otherwise. The connected set is never changed. |
| Broker.SubmitClientToken | src/websocket.py:62-68 | Posting makes `CT:<id>` read back the token (last write wins), answers "Done", and changes nothing else. |
| Broker.InitialClaimsConnected | src/websocket.py:49-51 | The empty broker satisfies the invariant that every claimed machine is connected. |
| Broker.RelayDeliversLastPostOnce | src/websocket.py:144-156 | After two client-token posts, the next poll delivers the second token and leaves `CT:<id>` absent, so a further poll sends nothing and changes nothing. |
| Broker.GrantedHostTokenNotReplayed | src/websocket.py:108-114 | After a granted claim, `HT:<id>` is absent and the next request for that machine, by any user, gets no host-token reply. |
| Broker.CleanupOfAbsentMachineIsNoop | src/websocket.py:204-219 | Under the invariant, cleanup of a machine that is not connected changes nothing. That is the case where the raw code's delete would fail. |
| Broker.DuplicateSessionCleanupEvictsOriginal | src/websocket.py:204-209 | A second connection with an already-connected id is not registered, yet its cleanup removes that id, which evicts the first connection's entry. |
| Broker.UserMayHoldTwoMachines | src/websocket.py:94-99 | One user can be granted two distinct connected, unclaimed machines in turn. |
| TokenStore.HostKeyInjective | src/websocket.py:54 | Two machines share a `HT:` key only if they are the same machine. |
| TokenStore.ClientKeyInjective | src/websocket.py:55 | Two machines share a `CT:` key only if they are the same machine. |
| TokenStore.NamespacesDisjoint | src/websocket.py:53-55 | No host-token key is ever a client-token key. |
| Messages.UserText | src/websocket.py:84-89 | A user id prints as itself, and an absent one prints as `None`, as in the error messages. |
| Messages.ErrorText | src/websocket.py:85-92 | A self-reclaim error is the user, " already connected to -> ", then the machine id. A busy-elsewhere error is the user followed by " is already connected with another robot". An in-use error is the fixed text "Remote Connection is already in use...!!!". |
| Messages.OfflineStatus | src/websocket.py:103 | The offline status is the machine id followed by " is Offline". |
| Messages.RenderReply | src/websocket.py:85-114 | The reply body has key `host_token`, `error` or `status` exactly by reply kind. Its value is null exactly for a host-token reply with nothing staged; otherwise it is the token, the error text or the status. |
| Messages.RenderDeviceMessage | src/websocket.py:129-151 | A device body always has a value. Its key is `client_token` exactly for a relayed token, which it carries. The confirmation is `message` with "Successfully Connected with the Robot!!". |
| Messages.BusyAndInUseTextsDiffer | src/websocket.py:86-92 | The two "held by another" rejections render to different JSON bodies, whatever the user id. |
| Traces.StepKeepsInvariant | src/websocket.py:79-114 | Every single operation (registration, deposit, every branch of a claim request, submission, relay poll, cleanup) preserves "every claimed machine is connected". |
| Traces.RunKeepsInvariant | src/websocket.py:79-219 | Every sequence of operations preserves the invariant: the claim branches, registration, deposit, relay and cleanup. |
| Traces.ReachableClaimsConnected | src/websocket.py:49-51 | Every state reachable from the empty broker has its claimed machines connected. |
| Traces.StepKeepsHostTokenAbsent | src/websocket.py:138-141 | An operation that is not a deposit for the machine neither stages its host token nor hands one out, when none is staged. |
| Traces.HostTokenStaysConsumed | src/websocket.py:111-113 | While no deposit for the machine occurs, an absent host token stays absent and no controller of that machine is handed a token value. |
| Traces.HostTokenHandedOverOnce | src/websocket.py:108-114 | A granted claim hands the staged host token to its controller, and no later operation hands it out again until the device deposits anew. |
| Traces.StepKeepsClientTokenAbsent | src/websocket.py:62-68 | An operation that is not a post for the machine neither stages its client token nor delivers one, when none is staged. |
| Traces.ClientTokenStaysConsumed | src/websocket.py:146-155 | While no post for the machine occurs, an absent client token stays absent and its device is sent no client token. |
| Traces.ClientTokenRelayedExactlyOnce | src/websocket.py:144-156 | A posted client token is acknowledged with "Done". It is then delivered by the device's next poll, whatever other operations (other devices' polls, claims, deposits, cleanups) run in between. Exactly one output of the whole run delivers a client token to that device, and it carries the posted token, while no new token is posted for the machine. |
| Traces.StepKeepsClientTokenStaged | src/websocket.py:146-155 | An operation that neither posts for the machine nor polls it keeps a staged client token staged, and delivers no client token to that device. |
| Traces.ClientTokenStaysStaged | src/websocket.py:62-155 | Over any run that neither posts for the machine (lines 62-68) nor polls it (lines 146-155), a staged client token stays staged and its device receives no client token. |
| Traces.ScenarioClaimThenRefuseOther | src/websocket.py:79-99 | A device connects and deposits H1. u1 claims it and receives H1. Then u2, who holds nothing, is told the remote connection is in use. |

## Left out

- Transport, framing and JSON: the FastAPI/WebSocket/uvicorn plumbing, CORS, logging, and `json.loads`/`json.dumps`. Frames are already-parsed records, and sends are output lists.
- The Redis client: the store is a `map<string, string>` with get, set and delete.
- Credential expiry: the 15-minute TTL depends on the wall clock. No key ever expires in the model.
- The unbounded `while True` polling: only one poll step is modelled, with no liveness claim. Runs interleave polls with other operations.
- Concurrency: the interleaving of connection tasks at suspension points is left out. Each operation is atomic.
- Swallowed errors: the broad exception handlers, and the `KeyError` hazards of missing frame fields, are left out. A failed receive of the credential frame is `None`.
- Broker.Cleanup: acts on the machine id captured from the session's robot-type first frame. The raw code reads `json_message`, the last frame parsed at `src/websocket.py:185`. That is the hello frame unless the loop re-entered after the relay; the credential frame read at line 134 never becomes `json_message`. It is unbound if no frame arrived, and its delete fails when the id is absent. Under the invariant, that failure case changes nothing (`Broker.CleanupOfAbsentMachineIsNoop`).
- Broker.Cleanup: may run at any point of a run, which over-approximates the code. In the code the relay loop (`src/websocket.py:144-156`) polls only the store and never reads the websocket. A device that disconnects after depositing is therefore not noticed until a `CT:<id>` is posted. Until then its id stays connected and claimable, and the token is then consumed by a send to a dead socket whose error is swallowed (`src/websocket.py:165-166`). The safety lemmas hold for every placement of cleanup, so they cover this timing too, but the model does not state when cleanup happens.
- Traces.ClientTokenRelayedExactlyOnce: delivery is labelled by machine id, not by connection. In the code the relay loop belongs to the connection that sent the credential frame (`src/websocket.py:138-155`). With two connections announcing the same id (`Broker.DuplicateSessionCleanupEvictsOriginal`), either one's loop may consume `CT:<id>`, and the model does not say which. The lemma also holds only because each poll is atomic in the model. In the code the relay's get, send and delete (`src/websocket.py:146`, 148, 155) are separate awaits. Two loops for the same id could both read the token before either deletes it, delivering it twice, and a post landing between the get and the delete would be lost. The same applies to the grant's get and delete at lines 112-113, on which `Traces.HostTokenHandedOverOnce` relies.
- The receive loop re-entering the robot handler on later frames: each device session is modelled by its first frame.
- `connected_user` and `ConnectionType.SERVER`/`ERROR`: they are declared but never used by the code.
