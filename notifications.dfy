/** The notification listener: how each decoded message is classified, and
    what `handle_notification` extracts from each event family. The listener
    only logs what it extracts; here the extracted values form an Event. */
module Notifications {
  import opened Json

  const PlayersJoined: string := "notification:players/joined"
  const PlayersLeft: string := "notification:players/left"
  const AllowlistAdded: string := "notification:allowlist/added"
  const AllowlistRemoved: string := "notification:allowlist/removed"
  const OperatorsAdded: string := "notification:operators/added"
  const OperatorsRemoved: string := "notification:operators/removed"
  const GamerulesUpdated: string := "notification:gamerules/updated"
  const ServerStarted: string := "notification:server/started"
  const ServerStopping: string := "notification:server/stopping"
  const ServerSaving: string := "notification:server/saving"
  const ServerSaved: string := "notification:server/saved"
  const ServerStatus: string := "notification:server/status"

  /** The method names the handler has a branch for. */
  const KnownMethods: set<string> := {
    PlayersJoined, PlayersLeft, AllowlistAdded, AllowlistRemoved,
    OperatorsAdded, OperatorsRemoved, GamerulesUpdated,
    ServerStarted, ServerStopping, ServerSaving, ServerSaved, ServerStatus
  }

  /** The method names whose branch reads a payload from the params. */
  const PayloadMethods: set<string> := KnownMethods - {ServerStarted, ServerStopping, ServerSaving, ServerSaved}

  // Defaults the handler logs for missing fields.
  const UnknownPlayer: string := "未知玩家"
  const UnknownId: string := "未知ID"
  const UnknownLevel: string := "未知"
  const UnknownRule: string := "未知规则"
  const UnknownValue: string := "未知值"
  const Running: string := "运行中"
  const NotRunning: string := "未运行"

  /** What the handler extracted from one notification. Fields hold whatever
      JSON value the payload had, or the default string. */
  datatype Event =
    | PlayerJoined(player: Json, id: Json)
    | PlayerLeft(player: Json)
    | PlayerAllowed(player: Json)
    | PlayerDisallowed(player: Json)
    | OperatorAdded(player: Json, level: Json)
    | OperatorRemoved(player: Json)
    | GameruleUpdated(key: Json, value: Json)
    | Started
    | Stopping
    | Saving
    | Saved
    | Status(playerCount: nat, started: Json, status: string)
    | Unknown(name: string, params: Json)

  /** The outcome of handling a notification: an event, or a Python
      exception (a payload of the wrong shape), which ends the listener. */
  datatype Handled = Handled(event: Event) | Raises

  /** What the listener does with one decoded message. */
  datatype Received = Notified(event: Event) | Response(message: Message) | ListenerStops

  /** The method name each event is announced under. */
  function MethodOf(e: Event): string {
    match e
    case PlayerJoined(_, _) => PlayersJoined
    case PlayerLeft(_) => PlayersLeft
    case PlayerAllowed(_) => AllowlistAdded
    case PlayerDisallowed(_) => AllowlistRemoved
    case OperatorAdded(_, _) => OperatorsAdded
    case OperatorRemoved(_) => OperatorsRemoved
    case GameruleUpdated(_, _) => GamerulesUpdated
    case Started => ServerStarted
    case Stopping => ServerStopping
    case Saving => ServerSaving
    case Saved => ServerSaved
    case Status(_, _, _) => ServerStatus
    case Unknown(name, _) => name
  }

  /** A message is a notification when its "method" is a string beginning
      with "notification:". */
  predicate IsNotification(m: Message) {
    "method" in m && m["method"].JStr? && StartsWith(m["method"].s, NotificationPrefix)
  }

  /** The message's params, the empty list when absent. */
  function ParamsOf(m: Message): Json {
    if "params" in m then m["params"] else JArr([])
  }

  /** The payload: the first element of a true params value, or an empty
      object for a false one. None where Python raises: params that is true
      but not a list, or a first element that is not an object. */
  function Payload(params: Json): Option<map<string, Json>> {
    if !Truthy(params) then Some(map[])
    else if params.JArr? && params.items[0].JObj? then Some(params.items[0].fields)
    else None
  }

  /** The operator's name, read from its nested "player" object (a missing
      object counts as empty); None where the nested value is not an object. */
  function NestedName(op: map<string, Json>): Option<Json> {
    if "player" !in op then Some(JStr(UnknownPlayer))
    else if op["player"].JObj? then Some(Get(op["player"].fields, "name", JStr(UnknownPlayer)))
    else None
  }

  /** Python's `len` of a decoded value; None where `len` raises. */
  function Len(j: Json): Option<nat> {
    match j
    case JArr(items) => Some(|items|)
    case JObj(fields) => Some(|fields|)
    case JStr(s) => Some(|s|)
    case _ => None
  }

  function StatusText(started: Json): string {
    if Truthy(started) then Running else NotRunning
  }

  function PlayerName(p: map<string, Json>): Json {
    Get(p, "name", JStr(UnknownPlayer))
  }

  /** `handle_notification`. Every method name selects exactly one branch:
      the event produced is the one announced under that name, names outside
      the table reach the catch-all, and only a true params value can make a
      branch raise. A payload-reading branch always raises when the params
      are true but are not a list whose first element is an object. */
  function Handle(m: Message): (h: Handled)
    requires IsNotification(m)
    ensures h.Handled? ==> MethodOf(h.event) == m["method"].s
    ensures h.Handled? ==> (h.event.Unknown? <==> m["method"].s !in KnownMethods)
    ensures h.Raises? ==> m["method"].s in PayloadMethods && Truthy(ParamsOf(m))
    ensures (m["method"].s in PayloadMethods && Truthy(ParamsOf(m)) &&
             !(ParamsOf(m).JArr? && ParamsOf(m).items[0].JObj?)) ==> h.Raises?
  {
    var name := m["method"].s;
    var payload := Payload(ParamsOf(m));
    if name == PlayersJoined then
      if payload.None? then Raises else Handled(PlayerJoined(PlayerName(payload.value), Get(payload.value, "id", JStr(UnknownId))))
    else if name == PlayersLeft then
      if payload.None? then Raises else Handled(PlayerLeft(PlayerName(payload.value)))
    else if name == AllowlistAdded then
      if payload.None? then Raises else Handled(PlayerAllowed(PlayerName(payload.value)))
    else if name == AllowlistRemoved then
      if payload.None? then Raises else Handled(PlayerDisallowed(PlayerName(payload.value)))
    else if name == OperatorsAdded then
      if payload.None? || NestedName(payload.value).None? then Raises
      else Handled(OperatorAdded(NestedName(payload.value).value, Get(payload.value, "permissionLevel", JStr(UnknownLevel))))
    else if name == OperatorsRemoved then
      if payload.None? || NestedName(payload.value).None? then Raises
      else Handled(OperatorRemoved(NestedName(payload.value).value))
    else if name == GamerulesUpdated then
      if payload.None? then Raises
      else Handled(GameruleUpdated(Get(payload.value, "key", JStr(UnknownRule)), Get(payload.value, "value", JStr(UnknownValue))))
    else if name == ServerStarted then Handled(Started)
    else if name == ServerStopping then Handled(Stopping)
    else if name == ServerSaving then Handled(Saving)
    else if name == ServerSaved then Handled(Saved)
    else if name == ServerStatus then
      if payload.None? then Raises
      else
        var count := Len(Get(payload.value, "players", JArr([])));
        var started := Get(payload.value, "started", JBool(false));
        if count.None? then Raises else Handled(Status(count.value, started, StatusText(started)))
    else Handled(Unknown(name, ParamsOf(m)))
  }

  /** The body of the listener's receive loop for one decoded message: a
      notification is handled, anything else is logged as a response. A
      "method" that is not a string, or a handler that raises, ends the loop. */
  function Receive(m: Message): (r: Received)
    ensures r.Response? <==> "method" !in m || (m["method"].JStr? && !StartsWith(m["method"].s, NotificationPrefix))
    ensures r.Response? ==> r.message == m
    ensures r.Notified? ==> IsNotification(m) && Handle(m) == Handled(r.event)
    ensures IsNotification(m) && Handle(m).Handled? ==> r.Notified?
    ensures r.ListenerStops? <==> "method" in m && (!m["method"].JStr? || (IsNotification(m) && Handle(m).Raises?))
  {
    if "method" !in m then Response(m)
    else if !m["method"].JStr? then ListenerStops
    else if !StartsWith(m["method"].s, NotificationPrefix) then Response(m)
    else match Handle(m)
      case Handled(e) => Notified(e)
      case Raises => ListenerStops
  }

  /** Classification looks at "method" only: adding or changing an "id"
      never turns a notification into a response or back. */
  lemma ReceiveIgnoresId(m: Message, id: Json)
    ensures Receive(m["id" := id]).Response? <==> Receive(m).Response?
    ensures !Receive(m).Response? ==> Receive(m["id" := id]) == Receive(m)
  {
    var m' := m["id" := id];
    assert ("method" in m' <==> "method" in m) && ("method" in m ==> m'["method"] == m["method"]);
    assert ParamsOf(m') == ParamsOf(m);
  }

  // ---------------------------------------------------------------------
  // Properties of the handler.
  // ---------------------------------------------------------------------

  /** Names outside the table never raise and keep the method name and the
      params (the empty list when absent) intact. */
  lemma UnknownPassesThrough(m: Message)
    requires IsNotification(m) && m["method"].s !in KnownMethods
    ensures Handle(m) == Handled(Unknown(m["method"].s, ParamsOf(m)))
    ensures "params" in m ==> Handle(m).event.params == m["params"]
  {
  }

  /** Lifecycle events read no payload, so they never raise. */
  lemma LifecycleNeverRaises(m: Message)
    requires IsNotification(m)
    requires m["method"].s in {ServerStarted, ServerStopping, ServerSaving, ServerSaved}
    ensures Handle(m).Handled?
  {
  }

  /** With no params (absent, or any value Python finds false) every family
      reports its documented defaults. */
  lemma DefaultsWithoutParams(m: Message)
    requires IsNotification(m)
    requires !Truthy(ParamsOf(m))
    ensures Handle(m).Handled?
    ensures m["method"].s == PlayersJoined ==> Handle(m).event == PlayerJoined(JStr(UnknownPlayer), JStr(UnknownId))
    ensures m["method"].s == PlayersLeft ==> Handle(m).event == PlayerLeft(JStr(UnknownPlayer))
    ensures m["method"].s == AllowlistAdded ==> Handle(m).event == PlayerAllowed(JStr(UnknownPlayer))
    ensures m["method"].s == AllowlistRemoved ==> Handle(m).event == PlayerDisallowed(JStr(UnknownPlayer))
    ensures m["method"].s == OperatorsAdded ==> Handle(m).event == OperatorAdded(JStr(UnknownPlayer), JStr(UnknownLevel))
    ensures m["method"].s == OperatorsRemoved ==> Handle(m).event == OperatorRemoved(JStr(UnknownPlayer))
    ensures m["method"].s == GamerulesUpdated ==> Handle(m).event == GameruleUpdated(JStr(UnknownRule), JStr(UnknownValue))
    ensures m["method"].s == ServerStatus ==> Handle(m).event == Status(0, JBool(false), NotRunning)
  {
  }

  /** With a payload object present, each family reads every field from it
      on its own, falling back to that field's documented default. */
  lemma PlayerFieldsFromPayload(m: Message, p: map<string, Json>)
    requires IsNotification(m)
    requires ParamsOf(m).JArr? && ParamsOf(m).items != [] && ParamsOf(m).items[0] == JObj(p)
    ensures m["method"].s == PlayersJoined ==>
      Handle(m) == Handled(PlayerJoined(Get(p, "name", JStr(UnknownPlayer)), Get(p, "id", JStr(UnknownId))))
    ensures m["method"].s == PlayersLeft ==> Handle(m) == Handled(PlayerLeft(Get(p, "name", JStr(UnknownPlayer))))
    ensures m["method"].s == AllowlistAdded ==> Handle(m) == Handled(PlayerAllowed(Get(p, "name", JStr(UnknownPlayer))))
    ensures m["method"].s == AllowlistRemoved ==> Handle(m) == Handled(PlayerDisallowed(Get(p, "name", JStr(UnknownPlayer))))
    ensures m["method"].s == GamerulesUpdated ==>
      Handle(m) == Handled(GameruleUpdated(Get(p, "key", JStr(UnknownRule)), Get(p, "value", JStr(UnknownValue))))
  {
  }

  /** An operator's name is read from the nested "player" object (an absent
      one counts as empty); a "player" that is not an object raises. */
  lemma OperatorFieldsFromPayload(m: Message, p: map<string, Json>)
    requires IsNotification(m)
    requires m["method"].s == OperatorsAdded || m["method"].s == OperatorsRemoved
    requires ParamsOf(m).JArr? && ParamsOf(m).items != [] && ParamsOf(m).items[0] == JObj(p)
    ensures Handle(m).Raises? <==> "player" in p && !p["player"].JObj?
    ensures "player" !in p ==>
      Handle(m).Handled? && Handle(m).event.player == JStr(UnknownPlayer)
    ensures "player" in p && p["player"].JObj? ==>
      Handle(m).Handled? && Handle(m).event.player == Get(p["player"].fields, "name", JStr(UnknownPlayer))
    ensures m["method"].s == OperatorsAdded && Handle(m).Handled? ==>
      Handle(m).event.level == Get(p, "permissionLevel", JStr(UnknownLevel))
  {
  }

  /** A server/status heartbeat with a payload object: `len` of "players"
      (the empty list when absent) is the player count, and raises for a
      value without a length; `started` defaults to False, and the status
      reads "running" exactly when `started` is true in Python's sense. */
  lemma StatusHeartbeat(m: Message, p: map<string, Json>)
    requires IsNotification(m) && m["method"].s == ServerStatus
    requires ParamsOf(m).JArr? && ParamsOf(m).items != [] && ParamsOf(m).items[0] == JObj(p)
    ensures Handle(m).Raises? <==> Len(Get(p, "players", JArr([]))).None?
    ensures Handle(m).Raises? <==> "players" in p && !(p["players"].JArr? || p["players"].JObj? || p["players"].JStr?)
    ensures "players" !in p ==> Handle(m).Handled? && Handle(m).event.playerCount == 0
    ensures Handle(m).Handled? ==>
      Handle(m).event.Status? &&
      Handle(m).event.playerCount == Len(Get(p, "players", JArr([]))).value &&
      Handle(m).event.started == Get(p, "started", JBool(false))
    ensures Handle(m).Handled? ==> (Handle(m).event.status == Running <==> "started" in p && Truthy(p["started"]))
  {
  }

  // ---------------------------------------------------------------------
  // The server side of the exchange: notifications as the server sends
  // them ({"method": ..., "params": [payload]} for the families that carry
  // a payload, no "params" for the lifecycle events, the params as given for
  // an unknown name), and the handler inverting that encoding.
  // ---------------------------------------------------------------------

  /** Events a server can announce: a status line agrees with the started
      flag, and a catch-all carries an unknown notification name. */
  predicate Announceable(e: Event) {
    match e
    case Status(_, started, status) => status == StatusText(started)
    case Unknown(name, _) => StartsWith(name, NotificationPrefix) && name !in KnownMethods
    case _ => true
  }

  function Single(payload: map<string, Json>): Json {
    JArr([JObj(payload)])
  }

  /** The notification message a server sends for an event. */
  function Announce(e: Event): Message
    requires Announceable(e)
  {
    var tag := JStr(MethodOf(e));
    match e
    case PlayerJoined(player, id) => map["method" := tag, "params" := Single(map["name" := player, "id" := id])]
    case PlayerLeft(player) => map["method" := tag, "params" := Single(map["name" := player])]
    case PlayerAllowed(player) => map["method" := tag, "params" := Single(map["name" := player])]
    case PlayerDisallowed(player) => map["method" := tag, "params" := Single(map["name" := player])]
    case OperatorAdded(player, level) =>
      map["method" := tag, "params" := Single(map["player" := JObj(map["name" := player]), "permissionLevel" := level])]
    case OperatorRemoved(player) => map["method" := tag, "params" := Single(map["player" := JObj(map["name" := player])])]
    case GameruleUpdated(key, value) => map["method" := tag, "params" := Single(map["key" := key, "value" := value])]
    case Started => map["method" := tag]
    case Stopping => map["method" := tag]
    case Saving => map["method" := tag]
    case Saved => map["method" := tag]
    case Status(count, started, _) =>
      map["method" := tag, "params" := Single(map["players" := JArr(seq(count, _ => JNull)), "started" := started])]
    case Unknown(_, params) => map["method" := tag, "params" := params]
  }

  /** The listener recovers from every announced notification exactly the
      event the server announced. */
  lemma {:induction false} ReceiveAnnounce(e: Event)
    requires Announceable(e)
    ensures IsNotification(Announce(e))
    ensures Receive(Announce(e)) == Notified(e)
  {
    var m := Announce(e);
    assert StartsWith(MethodOf(e), NotificationPrefix);
    assert IsNotification(m);
    match e
    case Status(count, started, _) =>
      assert Payload(ParamsOf(m)) == Some(map["players" := JArr(seq(count, _ => JNull)), "started" := started]);
    case _ =>
  }
}
