/** The pairing state machine: which devices hold a live connection, which controller claims
    each device, and the staged credentials. Every operation is an atomic pure transition. */
module Broker {
  import opened Options
  import opened TokenStore
  import opened Messages

  type MachineId = string
  /** A controller id as received: the query parameter may be absent. */
  type UserId = Option<string>
  /** Stands for the live transport handle of one device connection. */
  type ConnId = nat

  datatype State = State(
    connected: map<MachineId, ConnId>,  // connected robots and their transport
    claims: map<MachineId, UserId>,     // machine -> the controller that claimed it
    store: Store)                       // the credential store

  /** What an operation answers, with the state it leaves. */
  datatype Transition<+O> = Transition(out: O, post: State)

  const Initial: State := State(map[], map[], map[])

  /** A claimed machine is always a connected machine. */
  predicate ClaimsConnected(s: State) {
    s.claims.Keys <= s.connected.Keys
  }

  lemma InitialClaimsConnected()
    ensures ClaimsConnected(Initial)
  {
  }

  // ---------------------------------------------------------------- device side

  /** A device connection's first frame: a robot-type frame registers its machine id,
      anything else is a bad connection and changes nothing. */
  function OpenSession(s: State, conn: ConnId, hello: Hello): (t: Transition<Option<seq<DeviceMessage>>>)
    ensures t.post.claims == s.claims && t.post.store == s.store
    ensures hello.connectionType != RobotType ==> t == Transition(None, s)
    ensures hello.connectionType == RobotType && hello.machineId.Some? ==>
              && t.out.Some?
              && hello.machineId.value in t.post.connected
              && (hello.machineId.value !in s.connected <==> t.out == Some([Welcome]))
    ensures hello.connectionType == RobotType ==>
              t == Transition(Some(Register(s, conn, hello.machineId).out), Register(s, conn, hello.machineId).post)
  {
    if hello.connectionType == RobotType then
      var r := Register(s, conn, hello.machineId);
      Transition(Some(r.out), r.post)
    else
      Transition(None, s)
  }

  /** Registration: a machine id not yet connected is bound to this connection and confirmed;
      a machine id already connected keeps its earlier connection and nothing is sent. */
  function Register(s: State, conn: ConnId, machine: Option<MachineId>): (t: Transition<seq<DeviceMessage>>)
    ensures t.post.claims == s.claims && t.post.store == s.store
    ensures machine.None? ==> t == Transition([], s)
    ensures machine.Some? ==> t.post.connected.Keys == s.connected.Keys + {machine.value}
    ensures machine.Some? && machine.value in s.connected ==> t == Transition([], s)
    ensures machine.Some? && machine.value !in s.connected ==>
              t.out == [Welcome] && t.post.connected[machine.value] == conn
    ensures forall k :: k in s.connected ==> k in t.post.connected && t.post.connected[k] == s.connected[k]
  {
    match machine
    case Some(m) =>
      if m !in s.connected then Transition([Welcome], s.(connected := s.connected[m := conn]))
      else Transition([], s)
    case None => Transition([], s)
  }

  /** The device's credential frame stages its host token under `HT:<id>`; a failed receive
      (no frame) changes nothing. */
  function DepositHostToken(s: State, frame: Option<TokenFrame>): (s': State)
    ensures s'.connected == s.connected && s'.claims == s.claims
    ensures frame.None? ==> s' == s
    ensures frame.Some? ==>
              && Get(s'.store, HostKey(frame.value.machineId)) == Some(frame.value.hostToken)
              && forall k :: k != HostKey(frame.value.machineId) ==> Get(s'.store, k) == Get(s.store, k)
  {
    match frame
    case Some(f) => s.(store := Set(s.store, HostKey(f.machineId), f.hostToken))
    case None => s
  }

  /** One poll of the relay loop for a device: a staged client token is sent to the device
      and its key deleted; with no token staged nothing is sent and nothing changes. */
  function RelayStep(s: State, machine: MachineId): (t: Transition<seq<DeviceMessage>>)
    ensures t.post.connected == s.connected && t.post.claims == s.claims
    ensures ClientKey(machine) !in s.store ==> t == Transition([], s)
    ensures ClientKey(machine) in s.store ==>
              && t.out == [ClientTokenMsg(s.store[ClientKey(machine)])]
              && Get(t.post.store, ClientKey(machine)) == None
              && forall k :: k != ClientKey(machine) ==> Get(t.post.store, k) == Get(s.store, k)
  {
    match Get(s.store, ClientKey(machine))
    case Some(token) => Transition([ClientTokenMsg(token)], s.(store := Delete(s.store, ClientKey(machine))))
    case None => Transition([], s)
  }

  /** Disconnect cleanup for the machine id the session captured when it opened: the machine
      leaves the connected set and any claim on it is dropped. No captured id, no change. */
  function Cleanup(s: State, captured: Option<MachineId>): (s': State)
    ensures s'.store == s.store
    ensures captured.None? ==> s' == s
    ensures captured.Some? ==>
              && s'.connected.Keys == s.connected.Keys - {captured.value}
              && s'.claims.Keys == s.claims.Keys - {captured.value}
              && (forall k :: k in s'.connected ==> s'.connected[k] == s.connected[k])
              && (forall k :: k in s'.claims ==> s'.claims[k] == s.claims[k])
  {
    match captured
    case Some(m) => s.(connected := s.connected - {m}, claims := s.claims - {m})
    case None => s
  }

  /** The machine id a session's cleanup acts on: the hello frame's id, for robot connections. */
  function CapturedId(hello: Hello): (captured: Option<MachineId>)
    ensures captured.Some? <==> hello.connectionType == RobotType && hello.machineId.Some?
    ensures captured.Some? ==> captured == hello.machineId
  {
    if hello.connectionType == RobotType then hello.machineId else None
  }

  // ---------------------------------------------------------------- controller side

  /** The outcome of the claim decision, one per branch. */
  datatype Outcome = ReclaimBySelf | HeldElsewhere | HeldByOther | Grant | DeviceOffline

  /** The claim decision in the order the broker checks it: an existing claim first (by the
      same user, while the user holds another machine, by another user), then liveness. */
  function Decide(s: State, machine: MachineId, user: UserId): (o: Outcome)
    ensures o == Grant <==> machine !in s.claims && machine in s.connected
    ensures o == DeviceOffline <==> machine !in s.claims && machine !in s.connected
    ensures o == ReclaimBySelf <==> machine in s.claims && s.claims[machine] == user
    ensures o == HeldElsewhere <==> machine in s.claims && s.claims[machine] != user && user in s.claims.Values
    ensures o == HeldByOther <==> machine in s.claims && s.claims[machine] != user && user !in s.claims.Values
  {
    if machine in s.claims then
      if s.claims[machine] == user then ReclaimBySelf
      else if user in s.claims.Values then HeldElsewhere
      else HeldByOther
    else if machine in s.connected then Grant
    else DeviceOffline
  }

  /** The claim decision with liveness checked first; an independent reference. */
  ghost function Policy(s: State, machine: MachineId, user: UserId): Outcome {
    if machine !in s.connected then DeviceOffline
    else if machine !in s.claims then Grant
    else if s.claims[machine] == user then ReclaimBySelf
    else if exists other :: other in s.claims && other != machine && s.claims[other] == user then HeldElsewhere
    else HeldByOther
  }

  /** While every claimed machine is connected, the broker's order (claims
      before liveness) and the liveness-first order decide alike. */
  lemma DecideMatchesPolicy(s: State, machine: MachineId, user: UserId)
    requires ClaimsConnected(s)
    ensures Decide(s, machine, user) == Policy(s, machine, user)
  {
  }

  /** Without the invariant the two orders part: a stale claim on a disconnected machine is
      reported as in use by the broker's order but as offline by the liveness-first order. */
  lemma DecideDiffersFromPolicyWithoutInvariant()
    ensures var s := State(map[], map["bot" := Some("u1")], map[]);
            && !ClaimsConnected(s)
            && Decide(s, "bot", Some("u2")) == HeldByOther
            && Policy(s, "bot", Some("u2")) == DeviceOffline
  {
    var s := State(map[], map["bot" := Some("u1")], map[]);
    assert "bot" in s.claims.Keys;
    assert s.claims["bot"] == Some("u1");
    assert Some("u2") !in s.claims.Values;
  }

  /** Acceptance: record the claim, read the host token, delete it. */
  function Accept(s: State, machine: MachineId, user: UserId): (t: Transition<Reply>)
    ensures t.post.connected == s.connected
    ensures t.post.claims == s.claims[machine := user]
    ensures t.out == HostTokenReply(Get(s.store, HostKey(machine)))
    ensures Get(t.post.store, HostKey(machine)) == None
    ensures forall k :: k != HostKey(machine) ==> Get(t.post.store, k) == Get(s.store, k)
  {
    var claimed := s.(claims := s.claims[machine := user]);
    var token := Get(claimed.store, HostKey(machine));
    Transition(HostTokenReply(token), claimed.(store := Delete(claimed.store, HostKey(machine))))
  }

  /** A controller's request for a machine's host token. */
  function RequestHostToken(s: State, machine: MachineId, user: UserId): (t: Transition<Reply>)
    ensures t.post.connected == s.connected
    // offline: status reply, nothing changes
    ensures machine !in s.claims && machine !in s.connected ==>
              t == Transition(StatusReply(OfflineStatus(machine)), s)
    // granted: claim recorded, prior host token handed over and consumed
    ensures machine !in s.claims && machine in s.connected ==>
              && t.post.claims == s.claims[machine := user]
              && t.out == HostTokenReply(Get(s.store, HostKey(machine)))
              && Get(t.post.store, HostKey(machine)) == None
              && forall k :: k != HostKey(machine) ==> Get(t.post.store, k) == Get(s.store, k)
    // same user again: its claim is released and an error returned
    ensures machine in s.claims && s.claims[machine] == user ==>
              && t.post.claims == s.claims - {machine}
              && t.post.store == s.store
              && t.out == ErrorReply(SameUser(user, machine))
    // held by another user: nothing changes, the error says whether the requester holds a machine
    ensures machine in s.claims && s.claims[machine] != user ==>
              && t.post == s
              && t.out.ErrorReply?
              && (t.out.reason == UserBusy(user) <==> user in s.claims.Values)
              && (t.out.reason == RemoteInUse <==> user !in s.claims.Values)
  {
    match Decide(s, machine, user)
    case ReclaimBySelf => Transition(ErrorReply(SameUser(user, machine)), s.(claims := s.claims - {machine}))
    case HeldElsewhere => Transition(ErrorReply(UserBusy(user)), s)
    case HeldByOther => Transition(ErrorReply(RemoteInUse), s)
    case Grant => Accept(s, machine, user)
    case DeviceOffline => Transition(StatusReply(OfflineStatus(machine)), s)
  }

  /** A controller posts its client token: staged under `CT:<id>`, last write wins. */
  function SubmitClientToken(s: State, machine: MachineId, token: string): (t: Transition<string>)
    ensures t.out == "Done"
    ensures t.post.connected == s.connected && t.post.claims == s.claims
    ensures Get(t.post.store, ClientKey(machine)) == Some(token)
    ensures forall k :: k != ClientKey(machine) ==> Get(t.post.store, k) == Get(s.store, k)
  {
    Transition("Done", s.(store := Set(s.store, ClientKey(machine), token)))
  }

  // ---------------------------------------------------------------- properties

  /** Exactly-once relay: the last client token posted is delivered by the next poll and
      its key is gone afterwards, so a further poll sends nothing and changes nothing. */
  lemma RelayDeliversLastPostOnce(s: State, machine: MachineId, first: string, last: string)
    ensures var s1 := SubmitClientToken(SubmitClientToken(s, machine, first).post, machine, last).post;
            var r := RelayStep(s1, machine);
            && r.out == [ClientTokenMsg(last)]
            && ClientKey(machine) !in r.post.store
            && RelayStep(r.post, machine) == Transition([], r.post)
  {
  }

  /** After a granted claim the host token is gone and the next request for the machine,
      by anyone, is refused. */
  lemma GrantedHostTokenNotReplayed(s: State, machine: MachineId, user: UserId, next: UserId)
    requires machine !in s.claims && machine in s.connected
    ensures var s1 := RequestHostToken(s, machine, user).post;
            var r := RequestHostToken(s1, machine, next);
            && Get(s1.store, HostKey(machine)) == None
            && !r.out.HostTokenReply?
  {
  }

  /** Under the invariant a machine that is not connected has no claim, so cleanup for it
      (which the raw code would reach through a failing delete) leaves the state as it was. */
  lemma CleanupOfAbsentMachineIsNoop(s: State, machine: MachineId)
    requires ClaimsConnected(s)
    requires machine !in s.connected
    ensures Cleanup(s, Some(machine)) == s
  {
  }

  /** A second connection announcing an id already connected is not registered, yet its
      cleanup removes the id: the first connection's device is then reported offline. */
  lemma DuplicateSessionCleanupEvictsOriginal(s: State, first: ConnId, second: ConnId, machine: MachineId)
    requires machine in s.connected && s.connected[machine] == first
    ensures var hello := Hello(RobotType, Some(machine));
            var session := OpenSession(s, second, hello);
            && session.post == s
            && machine !in Cleanup(session.post, CapturedId(hello)).connected
  {
  }

  /** One controller can hold two machines: an unclaimed connected machine is granted
      without asking whether the requester already holds another one. */
  lemma UserMayHoldTwoMachines(s: State, a: MachineId, b: MachineId, user: UserId)
    requires a != b
    requires a in s.connected && b in s.connected
    requires a !in s.claims && b !in s.claims
    ensures var s1 := RequestHostToken(s, a, user).post;
            var s2 := RequestHostToken(s1, b, user).post;
            a in s2.claims && b in s2.claims && s2.claims[a] == user && s2.claims[b] == user
  {
  }
}
