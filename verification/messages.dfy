/** The already-parsed frames a device sends, the replies a controller receives and the
    frames the broker pushes to a device, with their rendering as one-field JSON objects. */
module Messages {
  import opened Options

  /** The `connection_type` value that marks a device (robot) connection. */
  const RobotType: int := 1

  /** First frame of a device connection: `{connection_type, machine_id}`; the id may be missing. */
  datatype Hello = Hello(connectionType: int, machineId: Option<string>)

  /** The device's credential frame `{machine_id, host_token}`. */
  datatype TokenFrame = TokenFrame(machineId: string, hostToken: string)

  /** Why a claim was refused, one constructor per rejecting branch of the claim decision. */
  datatype Rejection =
    | SameUser(user: Option<string>, machine: string)   // the requester already holds this machine
    | UserBusy(user: Option<string>)                     // held by another, requester holds a different one
    | RemoteInUse                                        // held by another, requester holds none

  /** The controller-facing answer to a host-token request. */
  datatype Reply =
    | HostTokenReply(hostToken: Option<string>)
    | ErrorReply(reason: Rejection)
    | StatusReply(status: string)

  /** Frames the broker sends to a device. */
  datatype DeviceMessage = Welcome | ClientTokenMsg(token: string)

  /** A one-field JSON object; a null value is None. */
  datatype Body = Body(key: string, value: Option<string>)

  /** How a possibly absent user id prints inside a message: the id itself, or `None`. */
  function UserText(user: Option<string>): (text: string)
    ensures user.Some? ==> text == user.value
    ensures user.None? ==> text == "None"
  {
    match user
    case Some(u) => u
    case None => "None"
  }

  const OfflineSuffix: string := " is Offline"
  const SameUserInfix: string := " already connected to -> "
  const BusySuffix: string := " is already connected with another robot"
  const InUseText: string := "Remote Connection is already in use...!!!"

  /** The status of an offline machine: its id, then " is Offline". */
  function OfflineStatus(machine: string): (text: string)
    ensures |text| == |machine| + |OfflineSuffix|
    ensures text[..|machine|] == machine && text[|machine|..] == OfflineSuffix
  {
    machine + OfflineSuffix
  }

  /** The error text of each rejection, which names the requester and, for a reclaim,
      the machine. */
  function ErrorText(reason: Rejection): (text: string)
    ensures reason.SameUser? ==>
              var u := UserText(reason.user);
              && |text| == |u| + |SameUserInfix| + |reason.machine|
              && text[..|u|] == u
              && text[|u|..|u| + |SameUserInfix|] == SameUserInfix
              && text[|u| + |SameUserInfix|..] == reason.machine
    ensures reason.UserBusy? ==>
              var u := UserText(reason.user);
              && |text| == |u| + |BusySuffix|
              && text[..|u|] == u && text[|u|..] == BusySuffix
    ensures reason.RemoteInUse? ==> text == InUseText
  {
    match reason
    case SameUser(u, m) => UserText(u) + SameUserInfix + m
    case UserBusy(u) => UserText(u) + BusySuffix
    case RemoteInUse => InUseText
  }

  /** The JSON body a controller receives: `host_token` (null when none was staged),
      `error` or `status`, as the reply kind says. */
  function RenderReply(r: Reply): (body: Body)
    ensures body.key == "host_token" <==> r.HostTokenReply?
    ensures body.key == "error" <==> r.ErrorReply?
    ensures body.key == "status" <==> r.StatusReply?
    ensures body.value.None? <==> r == HostTokenReply(None)
    ensures r.HostTokenReply? ==> body.value == r.hostToken
    ensures r.ErrorReply? ==> body.value == Some(ErrorText(r.reason))
    ensures r.StatusReply? ==> body.value == Some(r.status)
  {
    match r
    case HostTokenReply(t) => Body("host_token", t)
    case ErrorReply(e) => Body("error", Some(ErrorText(e)))
    case StatusReply(s) => Body("status", Some(s))
  }

  /** The JSON body a device receives: the connection confirmation under `message`, or the
      relayed token under `client_token`. */
  function RenderDeviceMessage(d: DeviceMessage): (body: Body)
    ensures body.value.Some?
    ensures body.key == "client_token" <==> d.ClientTokenMsg?
    ensures d.ClientTokenMsg? ==> body.value == Some(d.token)
    ensures d.Welcome? ==> body == Body("message", Some("Successfully Connected with the Robot!!"))
  {
    match d
    case Welcome => Body("message", Some("Successfully Connected with the Robot!!"))
    case ClientTokenMsg(t) => Body("client_token", Some(t))
  }

  /** The controller can tell the two "held by another" rejections apart from the text alone,
      whatever the user id. */
  lemma BusyAndInUseTextsDiffer(user: Option<string>)
    ensures RenderReply(ErrorReply(UserBusy(user))) != RenderReply(ErrorReply(RemoteInUse))
  {
  }
}
