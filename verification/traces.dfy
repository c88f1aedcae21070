/** Sequences of broker operations, each applied atomically in order, and the properties that
    hold over every such sequence. */
module Traces {
  import opened Options
  import opened TokenStore
  import opened Messages
  import opened Broker

  /** One atomic operation of the broker, with the inputs it receives. */
  datatype Event =
    | Open(conn: ConnId, hello: Hello)                  // first frame of a device connection
    | DepositHost(frame: Option<TokenFrame>)            // the device's credential frame
    | RequestHost(machine: MachineId, user: UserId)     // controller asks for a host token
    | PostClient(machine: MachineId, token: string)     // controller posts its client token
    | Poll(machine: MachineId)                          // one poll of a device's relay loop
    | Close(hello: Hello)                               // the device connection ends

  /** What the broker sends, and to whom. */
  datatype Effect =
    | ToDevice(machine: MachineId, msg: DeviceMessage)
    | ToController(machine: MachineId, reply: Reply)
    | Acknowledged(text: string)
    | BadConnection

  function ToDeviceAll(machine: MachineId, msgs: seq<DeviceMessage>): (effs: seq<Effect>)
    ensures |effs| == |msgs|
    ensures forall i :: 0 <= i < |msgs| ==> effs[i] == ToDevice(machine, msgs[i])
  {
    if msgs == [] then [] else [ToDevice(machine, msgs[0])] + ToDeviceAll(machine, msgs[1..])
  }

  function Step(s: State, e: Event): Transition<seq<Effect>> {
    match e
    case Open(conn, hello) =>
      var t := OpenSession(s, conn, hello);
      (match t.out
       case None => Transition([BadConnection], t.post)
       case Some(msgs) =>
         (match hello.machineId
          case Some(m) => Transition(ToDeviceAll(m, msgs), t.post)
          case None => Transition([], t.post)))
    case DepositHost(frame) => Transition([], DepositHostToken(s, frame))
    case RequestHost(m, u) =>
      var t := RequestHostToken(s, m, u);
      Transition([ToController(m, t.out)], t.post)
    case PostClient(m, token) =>
      var t := SubmitClientToken(s, m, token);
      Transition([Acknowledged(t.out)], t.post)
    case Poll(m) =>
      var t := RelayStep(s, m);
      Transition(ToDeviceAll(m, t.out), t.post)
    case Close(hello) => Transition([], Cleanup(s, CapturedId(hello)))
  }

  /** Applies `step` to the events in order, collecting everything sent. */
  function Fold(step: (State, Event) -> Transition<seq<Effect>>, s: State, events: seq<Event>): Transition<seq<Effect>>
    decreases |events|
  {
    if events == [] then Transition([], s)
    else
      var first := step(s, events[0]);
      var rest := Fold(step, first.post, events[1..]);
      Transition(first.out + rest.out, rest.post)
  }

  /** Applies the events in order, collecting everything sent. */
  function Run(s: State, events: seq<Event>): Transition<seq<Effect>> {
    Fold(Step, s, events)
  }

  predicate DepositsFor(e: Event, machine: MachineId) {
    e.DepositHost? && e.frame.Some? && e.frame.value.machineId == machine
  }

  predicate PostsFor(e: Event, machine: MachineId) {
    e.PostClient? && e.machine == machine
  }

  predicate PollsFor(e: Event, machine: MachineId) {
    e.Poll? && e.machine == machine
  }

  /** A controller of `machine` is handed an actual host-token value. */
  predicate HandsOutHostToken(eff: Effect, machine: MachineId) {
    eff.ToController? && eff.machine == machine && eff.reply.HostTokenReply? && eff.reply.hostToken.Some?
  }

  /** The device of `machine` is sent a client token. */
  predicate DeliversClientToken(eff: Effect, machine: MachineId) {
    eff.ToDevice? && eff.machine == machine && eff.msg.ClientTokenMsg?
  }

  // ---------------------------------------------------------------- invariant

  lemma StepKeepsInvariant(s: State, e: Event)
    requires ClaimsConnected(s)
    ensures ClaimsConnected(Step(s, e).post)
  {
  }

  /** Every claimed machine stays connected, whatever operations run. */
  lemma {:induction false} RunKeepsInvariant(s: State, events: seq<Event>)
    requires ClaimsConnected(s)
    ensures ClaimsConnected(Run(s, events).post)
    decreases |events|
  {
    if events != [] {
      StepKeepsInvariant(s, events[0]);
      RunKeepsInvariant(Step(s, events[0]).post, events[1..]);
    }
  }

  /** From the empty broker, every reachable state has its claimed machines connected. */
  lemma ReachableClaimsConnected(events: seq<Event>)
    ensures ClaimsConnected(Run(Initial, events).post)
  {
    InitialClaimsConnected();
    RunKeepsInvariant(Initial, events);
  }

  // ---------------------------------------------------------------- host token: read once

  /** An operation that does not deposit for `machine` neither stages its host token nor
      hands out a host-token value for it, when none is staged. */
  lemma StepKeepsHostTokenAbsent(s: State, e: Event, machine: MachineId)
    requires HostKey(machine) !in s.store
    requires !DepositsFor(e, machine)
    ensures HostKey(machine) !in Step(s, e).post.store
    ensures forall i :: 0 <= i < |Step(s, e).out| ==> !HandsOutHostToken(Step(s, e).out[i], machine)
  {
    match e
    case DepositHost(frame) =>
      if frame.Some? {
        HostKeyInjective(frame.value.machineId, machine);
      }
    case PostClient(m, token) =>
      NamespacesDisjoint(machine, m);
    case Poll(m) =>
      NamespacesDisjoint(machine, m);
    case RequestHost(m, u) =>
      if m != machine {
        HostKeyInjective(m, machine);
      }
    case _ =>
  }

  /** While no device deposits for `machine`, an absent host token stays absent and no
      controller of `machine` is handed a token value. */
  lemma {:induction false} HostTokenStaysConsumed(s: State, events: seq<Event>, machine: MachineId)
    requires HostKey(machine) !in s.store
    requires forall i :: 0 <= i < |events| ==> !DepositsFor(events[i], machine)
    ensures HostKey(machine) !in Run(s, events).post.store
    ensures forall i :: 0 <= i < |Run(s, events).out| ==> !HandsOutHostToken(Run(s, events).out[i], machine)
    decreases |events|
  {
    if events != [] {
      var first := Step(s, events[0]);
      StepKeepsHostTokenAbsent(s, events[0], machine);
      HostTokenStaysConsumed(first.post, events[1..], machine);
      var rest := Run(first.post, events[1..]);
      assert Run(s, events).out == first.out + rest.out;
      forall i | 0 <= i < |Run(s, events).out|
        ensures !HandsOutHostToken(Run(s, events).out[i], machine)
      {
        if i >= |first.out| {
          assert Run(s, events).out[i] == rest.out[i - |first.out|];
        }
      }
    }
  }

  /** A granted claim hands the staged host token to its controller, and never again to
      anyone while the device does not deposit a new one. */
  lemma HostTokenHandedOverOnce(s: State, machine: MachineId, user: UserId, events: seq<Event>)
    requires machine in s.connected && machine !in s.claims
    requires HostKey(machine) in s.store
    requires forall i :: 0 <= i < |events| ==> !DepositsFor(events[i], machine)
    ensures var out := Run(s, [RequestHost(machine, user)] + events).out;
            && |out| >= 1
            && out[0] == ToController(machine, HostTokenReply(Some(s.store[HostKey(machine)])))
            && forall i :: 1 <= i < |out| ==> !HandsOutHostToken(out[i], machine)
  {
    var all := [RequestHost(machine, user)] + events;
    assert all[0] == RequestHost(machine, user);
    assert all[1..] == events;
    var first := Step(s, all[0]);
    HostTokenStaysConsumed(first.post, events, machine);
    var rest := Run(first.post, events);
    var out := Run(s, all).out;
    assert out == first.out + rest.out;
    forall i | 1 <= i < |out|
      ensures !HandsOutHostToken(out[i], machine)
    {
      assert out[i] == rest.out[i - 1];
    }
  }

  // ---------------------------------------------------------------- client token: exactly once

  /** An operation that does not post for `machine` neither stages its client token nor
      delivers one to its device, when none is staged. */
  lemma StepKeepsClientTokenAbsent(s: State, e: Event, machine: MachineId)
    requires ClientKey(machine) !in s.store
    requires !PostsFor(e, machine)
    ensures ClientKey(machine) !in Step(s, e).post.store
    ensures forall i :: 0 <= i < |Step(s, e).out| ==> !DeliversClientToken(Step(s, e).out[i], machine)
  {
    match e
    case DepositHost(frame) =>
      if frame.Some? {
        NamespacesDisjoint(frame.value.machineId, machine);
      }
    case PostClient(m, token) =>
      ClientKeyInjective(m, machine);
    case Poll(m) =>
      ClientKeyInjective(m, machine);
    case RequestHost(m, u) =>
      NamespacesDisjoint(m, machine);
    case _ =>
  }

  /** While no controller posts for `machine`, an absent client token stays absent and its
      device is sent no client token. */
  lemma {:induction false} ClientTokenStaysConsumed(s: State, events: seq<Event>, machine: MachineId)
    requires ClientKey(machine) !in s.store
    requires forall i :: 0 <= i < |events| ==> !PostsFor(events[i], machine)
    ensures ClientKey(machine) !in Run(s, events).post.store
    ensures forall i :: 0 <= i < |Run(s, events).out| ==> !DeliversClientToken(Run(s, events).out[i], machine)
    decreases |events|
  {
    if events != [] {
      var first := Step(s, events[0]);
      StepKeepsClientTokenAbsent(s, events[0], machine);
      ClientTokenStaysConsumed(first.post, events[1..], machine);
      var rest := Run(first.post, events[1..]);
      assert Run(s, events).out == first.out + rest.out;
      forall i | 0 <= i < |Run(s, events).out|
        ensures !DeliversClientToken(Run(s, events).out[i], machine)
      {
        if i >= |first.out| {
          assert Run(s, events).out[i] == rest.out[i - |first.out|];
        }
      }
    }
  }

  /** Running a single event is taking that step. */
  lemma RunSingle(s: State, e: Event)
    ensures Run(s, [e]) == Step(s, e)
  {
    var t := Step(s, e);
    assert [e][0] == e && [e][1..] == [];
    assert Fold(Step, t.post, []) == Transition([], t.post);
    assert Fold(Step, s, [e]) == Transition(t.out + [], t.post);
    assert t.out + [] == t.out;
  }

  /** Folding two event sequences one after the other is folding their concatenation. */
  lemma {:induction false} FoldAppend(step: (State, Event) -> Transition<seq<Effect>>, s: State, a: seq<Event>, b: seq<Event>)
    ensures var first := Fold(step, s, a);
            var second := Fold(step, first.post, b);
            Fold(step, s, a + b) == Transition(first.out + second.out, second.post)
    decreases |a|
  {
    if a == [] {
      assert a + b == b;
      assert Fold(step, s, a) == Transition([], s);
      assert [] + Fold(step, s, b).out == Fold(step, s, b).out;
    } else {
      var ab := a + b;
      assert ab[0] == a[0];
      assert ab[1..] == a[1..] + b;
      var head := step(s, a[0]);
      FoldAppend(step, head.post, a[1..], b);
      var mid := Fold(step, head.post, a[1..]);
      var last := Fold(step, mid.post, b);
      assert head.out + (mid.out + last.out) == (head.out + mid.out) + last.out;
    }
  }

  /** Running two event sequences one after the other is running their concatenation. */
  lemma RunAppend(s: State, a: seq<Event>, b: seq<Event>)
    ensures var first := Run(s, a);
            var second := Run(first.post, b);
            Run(s, a + b) == Transition(first.out + second.out, second.post)
  {
    FoldAppend(Step, s, a, b);
  }

  /** An operation that neither posts for `machine` nor polls it keeps a staged client token
      staged, and delivers no client token to that machine's device. */
  lemma StepKeepsClientTokenStaged(s: State, e: Event, machine: MachineId, token: string)
    requires Get(s.store, ClientKey(machine)) == Some(token)
    requires !PostsFor(e, machine) && !PollsFor(e, machine)
    ensures Get(Step(s, e).post.store, ClientKey(machine)) == Some(token)
    ensures forall i :: 0 <= i < |Step(s, e).out| ==> !DeliversClientToken(Step(s, e).out[i], machine)
  {
    match e
    case DepositHost(frame) =>
      if frame.Some? {
        NamespacesDisjoint(frame.value.machineId, machine);
      }
    case PostClient(m, t) =>
      ClientKeyInjective(m, machine);
    case Poll(m) =>
      ClientKeyInjective(m, machine);
    case RequestHost(m, u) =>
      NamespacesDisjoint(m, machine);
    case _ =>
  }

  /** While nothing posts for `machine` or polls it, a staged client token stays staged and
      its device is sent no client token. */
  lemma {:induction false} ClientTokenStaysStaged(s: State, events: seq<Event>, machine: MachineId, token: string)
    requires Get(s.store, ClientKey(machine)) == Some(token)
    requires forall i :: 0 <= i < |events| ==> !PostsFor(events[i], machine) && !PollsFor(events[i], machine)
    ensures Get(Run(s, events).post.store, ClientKey(machine)) == Some(token)
    ensures forall i :: 0 <= i < |Run(s, events).out| ==> !DeliversClientToken(Run(s, events).out[i], machine)
    decreases |events|
  {
    if events != [] {
      var first := Step(s, events[0]);
      StepKeepsClientTokenStaged(s, events[0], machine, token);
      ClientTokenStaysStaged(first.post, events[1..], machine, token);
      var rest := Run(first.post, events[1..]);
      assert Run(s, events).out == first.out + rest.out;
      forall i | 0 <= i < |Run(s, events).out|
        ensures !DeliversClientToken(Run(s, events).out[i], machine)
      {
        if i >= |first.out| {
          assert Run(s, events).out[i] == rest.out[i - |first.out|];
        }
      }
    }
  }

  /** A posted client token is acknowledged, then delivered by the device's next poll,
      whatever other operations come in between, and never delivered again while no new
      token is posted for that machine: exactly one output delivers to the device. */
  lemma ClientTokenRelayedExactlyOnce(s: State, machine: MachineId, token: string,
                                      between: seq<Event>, after: seq<Event>)
    requires forall i :: 0 <= i < |between| ==> !PostsFor(between[i], machine) && !PollsFor(between[i], machine)
    requires forall i :: 0 <= i < |after| ==> !PostsFor(after[i], machine)
    ensures var out := Run(s, [PostClient(machine, token)] + between + [Poll(machine)] + after).out;
            && |out| >= 2
            && out[0] == Acknowledged("Done")
            && exists k :: 0 < k < |out| && out[k] == ToDevice(machine, ClientTokenMsg(token))
                           && forall j :: 0 <= j < |out| && j != k ==> !DeliversClientToken(out[j], machine)
  {
    var post := [PostClient(machine, token)];
    var tail := [Poll(machine)] + after;
    var all := [PostClient(machine, token)] + between + [Poll(machine)] + after;
    assert all == post + (between + tail);
    // the post
    RunAppend(s, post, between + tail);
    var r1 := Run(s, post);
    RunSingle(s, post[0]);
    assert r1.out == [Acknowledged("Done")];
    assert Get(r1.post.store, ClientKey(machine)) == Some(token);
    // the operations in between
    RunAppend(r1.post, between, tail);
    ClientTokenStaysStaged(r1.post, between, machine, token);
    var r2 := Run(r1.post, between);
    // the poll, then the rest
    assert tail[0] == Poll(machine);
    assert tail[1..] == after;
    var polled := Step(r2.post, Poll(machine));
    assert polled.out == [ToDevice(machine, ClientTokenMsg(token))];
    ClientTokenStaysConsumed(polled.post, after, machine);
    var r3 := Run(polled.post, after);
    assert Run(r2.post, tail).out == polled.out + r3.out;
    var out := Run(s, all).out;
    assert out == r1.out + (r2.out + (polled.out + r3.out));
    var k := 1 + |r2.out|;
    assert out[k] == ToDevice(machine, ClientTokenMsg(token));
    forall j | 0 <= j < |out| && j != k
      ensures !DeliversClientToken(out[j], machine)
    {
      if j == 0 {
      } else if j < k {
        assert out[j] == r2.out[j - 1];
      } else {
        assert out[j] == r3.out[j - k - 1];
      }
    }
  }

  // ---------------------------------------------------------------- scenarios

  /** A device connects and deposits H1; u1 claims it and receives H1; u2, who holds
      nothing, is then told the remote connection is in use. */
  lemma ScenarioClaimThenRefuseOther()
    ensures Run(Initial, [
              Open(0, Hello(RobotType, Some("bot1"))),
              DepositHost(Some(TokenFrame("bot1", "H1"))),
              RequestHost("bot1", Some("u1")),
              RequestHost("bot1", Some("u2"))]).out
            == [ToDevice("bot1", Welcome),
                ToController("bot1", HostTokenReply(Some("H1"))),
                ToController("bot1", ErrorReply(RemoteInUse))]
  {
    var events := [
      Open(0, Hello(RobotType, Some("bot1"))),
      DepositHost(Some(TokenFrame("bot1", "H1"))),
      RequestHost("bot1", Some("u1")),
      RequestHost("bot1", Some("u2"))];
    var s1 := State(map["bot1" := 0], map[], map[]);
    var s2 := s1.(store := map[HostKey("bot1") := "H1"]);
    var s3 := s2.(claims := map["bot1" := Some("u1")], store := map[]);
    var opening := OpenSession(Initial, 0, events[0].hello);
    assert "bot1" !in Initial.connected;
    assert opening == Transition(Some([Welcome]), s1);
    assert ToDeviceAll("bot1", [Welcome]) == [ToDevice("bot1", Welcome)];
    assert Step(Initial, events[0]) == Transition([ToDevice("bot1", Welcome)], s1);
    assert Step(s1, events[1]) == Transition([], s2);
    assert Step(s2, events[2]) == Transition([ToController("bot1", HostTokenReply(Some("H1")))], s3);
    assert Some("u2") !in s3.claims.Values;
    assert Step(s3, events[3]) == Transition([ToController("bot1", ErrorReply(RemoteInUse))], s3);
    assert events[3..] == [events[3]];
    RunSingle(s3, events[3]);
    assert Run(s3, events[3..]).out == [ToController("bot1", ErrorReply(RemoteInUse))];
    assert events[2..][1..] == events[3..];
    assert Run(s2, events[2..]).out == [ToController("bot1", HostTokenReply(Some("H1"))),
                                        ToController("bot1", ErrorReply(RemoteInUse))];
    assert events[1..][1..] == events[2..];
    assert Run(s1, events[1..]).out == Run(s2, events[2..]).out;
  }
}
