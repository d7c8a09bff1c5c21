/**
 * The dispatch engine: the chat filter, the operation-to-actuation mapping, the
 * status differ with its fan-out to every watched room, and the event loop
 * that ties them together around the one piece of state, the last status seen.
 *
 * The pure functions below specify one step of the loop; the class Dispatcher
 * is the loop itself, with the last status and the running flag as fields and
 * the events it sends appended to an outbox.
 */
module Processing {
  import opened Wrappers
  import opened Strings
  import opened Commands
  import opened Events
  import opened Config
  import Schema

  /** The telemetry decoder: `serde_json::from_str`, `None` on a malformed payload. */
  type Decoder = string -> Option<Schema.Response>

  // ---------------------------------------------------------------------------
  // Message bodies

  /** `format_optional_bool!`: one label per value of the three-valued field. */
  function FormatOptionalBool(v: Option<bool>, whenTrue: string, whenFalse: string, whenNone: string): (r: string)
    ensures r == whenTrue || r == whenFalse || r == whenNone
    // with distinct labels, the label tells the value back: unknown is never shown as true or false
    ensures whenTrue != whenFalse && whenTrue != whenNone && whenFalse != whenNone ==>
      && (r == whenTrue <==> v == Some(true))
      && (r == whenFalse <==> v == Some(false))
      && (r == whenNone <==> v == None)
  {
    match v
    case Some(true) => whenTrue
    case Some(false) => whenFalse
    case None => whenNone
  }

  /*
   * The bodies are plain functions; what each of them says is stated by the
   * lemma after it. Their fixed text is held in named constants.
   */

  const UsageErrorLead: string := ": That command failed, try `"
  const UsageErrorTail: string := "` for usage details"

  /** The reply to a command that does not parse. */
  function UsageErrorBody(sender: UserId, station: string): string
  {
    sender + UsageErrorLead + ("!" + station + " help") + UsageErrorTail
  }

  /** The usage-error reply is addressed to the sender and points at this station's help. */
  lemma UsageErrorBodyShape(sender: UserId, station: string)
    ensures var r := UsageErrorBody(sender, station);
            |r| >= |sender| && r[..|sender|] == sender && Contains(r, "!" + station + " help")
  {
    ContainsMiddle(sender + UsageErrorLead, "!" + station + " help", UsageErrorTail);
    assert UsageErrorBody(sender, station)[..|sender|] == sender;
  }

  const HelpIntro: string := "[matrix-remote-closedown](https://github.com/DanNixon/matrix-remote-closedown) for station **"
  const HelpAfterName: string := "**.<br>\n"
  const HelpCommands: string := "<br>\nCommands: help, shutdown, power on, power off, ptt enable, ptt disable<br>\n"

  /** The usage line of the help text. */
  function UsageLine(station: string): string
  {
    "Usage: !" + station + " COMMAND"
  }

  /** The operator line of the help text. */
  function OperatorsLine(cfg: Cli): string
  {
    "Station operators: " + StationOperatorsStringList(cfg)
  }

  /** The usage text sent for `help`. */
  function HelpBody(cfg: Cli): string
  {
    HelpIntro + cfg.stationName + HelpAfterName + UsageLine(cfg.stationName) + HelpCommands + OperatorsLine(cfg)
  }

  /** The help text gives this station's usage line and its operator list. */
  lemma HelpBodyMentions(cfg: Cli)
    ensures Contains(HelpBody(cfg), "Usage: !" + cfg.stationName + " COMMAND")
    ensures Contains(HelpBody(cfg), "Station operators: " + StationOperatorsStringList(cfg))
  {
    var head := HelpIntro + cfg.stationName + HelpAfterName;
    ContainsMiddle(head, UsageLine(cfg.stationName), HelpCommands + OperatorsLine(cfg));
    assert head + UsageLine(cfg.stationName) + (HelpCommands + OperatorsLine(cfg)) == HelpBody(cfg);
    ContainsSuffix(head + UsageLine(cfg.stationName) + HelpCommands, OperatorsLine(cfg));
  }

  /** The four status fields, one label each. */
  function StatusLines(s: Schema.Status): string
  {
    "<br>\nTX Power: ["
      + FormatOptionalBool(s.txPowerEnabled, "ENABLED", "DISABLED", "unknown") + "] ["
      + FormatOptionalBool(s.txPowerActive, "ON", "OFF", "unknown") + "]<br>\nPTT: ["
      + FormatOptionalBool(s.pttEnabled, "ENABLED", "DISABLED", "unknown") + "] ["
      + FormatOptionalBool(s.pttActive, "ON AIR", "IDLE", "unknown") + "]"
  }

  /** The status notification. */
  function StatusBody(cfg: Cli, resp: Schema.Response): string
  {
    "**" + cfg.stationName + "** at " + resp.timestamp + StatusLines(resp.status)
  }

  /** The status notification names the station and the report's time, then gives the four fields. */
  lemma StatusBodyMentions(cfg: Cli, resp: Schema.Response)
    ensures Contains(StatusBody(cfg, resp), "**" + cfg.stationName + "** at " + resp.timestamp)
    ensures Contains(StatusBody(cfg, resp), StatusLines(resp.status))
  {
    var head := "**" + cfg.stationName + "** at " + resp.timestamp;
    ContainsPrefix(head, StatusLines(resp.status));
    ContainsSuffix(head, StatusLines(resp.status));
  }

  /** The one-shot message notification. */
  function MessageBody(cfg: Cli, resp: Schema.Response, message: string): string
  {
    "(" + StationOperatorsStringList(cfg) + ")"
      + "<br>\n**" + cfg.stationName + "** at " + resp.timestamp + "<br>\n"
      + ("Message: " + message)
  }

  /** The message notification names the operators and carries the message text. */
  lemma MessageBodyMentions(cfg: Cli, resp: Schema.Response, message: string)
    ensures Contains(MessageBody(cfg, resp, message), "(" + StationOperatorsStringList(cfg) + ")")
    ensures Contains(MessageBody(cfg, resp, message), "Message: " + message)
  {
    var operators := "(" + StationOperatorsStringList(cfg) + ")";
    var middle := "<br>\n**" + cfg.stationName + "** at " + resp.timestamp + "<br>\n";
    var text := "Message: " + message;
    assert MessageBody(cfg, resp, message) == operators + (middle + text);
    assert MessageBody(cfg, resp, message) == (operators + middle) + text;
    ContainsPrefix(operators, middle + text);
    ContainsSuffix(operators + middle, text);
  }

  // ---------------------------------------------------------------------------
  // Fan-out and actuation

  /** One chat message per watched room, in the order of the room list. */
  function FanOut(rooms: seq<RoomId>, body: string): (r: seq<Event>)
    ensures |r| == |rooms|
    ensures forall k :: 0 <= k < |r| ==> r[k] == MatrixMessageSend(MatrixMessageSendEvent(rooms[k], body))
  {
    if rooms == [] then []
    else [MatrixMessageSend(MatrixMessageSendEvent(rooms[0], body))] + FanOut(rooms[1..], body)
  }

  /** The operation concerns the transmitter power. */
  predicate ConcernsTxPower(op: Operation)
  {
    op == Shutdown || op == PowerOn || op == PowerOff
  }

  /** The operation concerns push-to-talk. */
  predicate ConcernsPtt(op: Operation)
  {
    op == Shutdown || op == PttEnable || op == PttDisable
  }

  /** The partial actuation command published for an operation; `Help` publishes none. */
  function Actuation(op: Operation): (r: Option<Schema.Command>)
    ensures r.None? <==> op == Help
    // a field is set exactly when the operation concerns it; the rest are left unchanged
    ensures r.Some? ==> (r.value.enableTxPower.Some? <==> ConcernsTxPower(op))
    ensures r.Some? ==> (r.value.enablePtt.Some? <==> ConcernsPtt(op))
    // only PowerOn switches transmit power on, only PttEnable enables push-to-talk
    ensures r.Some? ==> (r.value.enableTxPower == Some(true) <==> op == PowerOn)
    ensures r.Some? ==> (r.value.enablePtt == Some(true) <==> op == PttEnable)
  {
    match op
    case Help => None
    case Shutdown => Some(Schema.Command(Some(false), Some(false)))
    case PowerOn => Some(Schema.Command(Some(true), None))
    case PowerOff => Some(Schema.Command(Some(false), None))
    case PttEnable => Some(Schema.Command(None, Some(true)))
    case PttDisable => Some(Schema.Command(None, Some(false)))
  }

  /** The actuation table, row by row. */
  lemma ActuationTable()
    ensures Actuation(Shutdown) == Some(Schema.Command(Some(false), Some(false)))
    ensures Actuation(PowerOn) == Some(Schema.Command(Some(true), None))
    ensures Actuation(PowerOff) == Some(Schema.Command(Some(false), None))
    ensures Actuation(PttEnable) == Some(Schema.Command(None, Some(true)))
    ensures Actuation(PttDisable) == Some(Schema.Command(None, Some(false)))
    ensures Actuation(Help) == None
  {
  }

  /** The published command tells the operation back. */
  lemma ActuationInjective(a: Operation, b: Operation)
    requires Actuation(a) == Actuation(b)
    ensures a == b
  {
  }

  // ---------------------------------------------------------------------------
  // The chat filter

  /** `body.starts_with('!')`, on the raw body. */
  predicate StartsWithMarker(body: string)
  {
    |body| > 0 && body[0] == '!'
  }

  /** The three silent filters that run before the parse. */
  predicate PassesPrefilter(cfg: Cli, evt: MatrixMessageReceiveEvent)
  {
    StartsWithMarker(evt.body) && evt.room in cfg.matrixRooms && cfg.matrixUsername != evt.sender
  }

  /** The events a received chat message produces. */
  function ChatOutput(cfg: Cli, evt: MatrixMessageReceiveEvent): (r: seq<Event>)
    ensures |r| <= 1
    // the silent filters produce nothing, and run before the parse
    ensures !PassesPrefilter(cfg, evt) ==> r == []
    // a parse failure gets exactly one reply, in the originating room
    ensures PassesPrefilter(cfg, evt) && ParseCommand(evt.body).Err? ==>
      r == [MatrixMessageSend(MatrixMessageSendEvent(evt.room, UsageErrorBody(evt.sender, cfg.stationName)))]
    // a command is routed exactly when every check passes
    ensures (|r| == 1 && r[0].CommandReceive?) <==>
      && PassesPrefilter(cfg, evt)
      && ParseCommand(evt.body).Ok?
      && ParseCommand(evt.body).value.stationName == cfg.stationName
      && (!ParseCommand(evt.body).value.op.IsOperatorOnly() || evt.sender in cfg.stationOperators)
    ensures |r| == 1 && r[0].CommandReceive? ==>
      r[0].commandEvent == CommandEvent(evt.room, ParseCommand(evt.body).value)
    // another station's command, or an operator command from a non-operator, is dropped silently
    ensures (PassesPrefilter(cfg, evt) && ParseCommand(evt.body).Ok? &&
             (ParseCommand(evt.body).value.stationName != cfg.stationName ||
              (ParseCommand(evt.body).value.op.IsOperatorOnly() && evt.sender !in cfg.stationOperators)))
            ==> r == []
  {
    if !StartsWithMarker(evt.body) then []
    else if evt.room !in cfg.matrixRooms then []
    else if cfg.matrixUsername == evt.sender then []
    else
      match ToCommandEvent(evt)
      case Ok(ce) =>
        if ce.cmd.stationName != cfg.stationName then []
        else if ce.cmd.op.IsOperatorOnly() && evt.sender !in cfg.stationOperators then []
        else [CommandReceive(ce)]
      case Err(_) =>
        [MatrixMessageSend(MatrixMessageSendEvent(evt.room, UsageErrorBody(evt.sender, cfg.stationName)))]
  }

  // ---------------------------------------------------------------------------
  // Command dispatch

  /** The events a routed command produces. */
  function CommandOutput(cfg: Cli, ce: CommandEvent): (r: seq<Event>)
    ensures |r| == 1
    // help is answered in the command's own room and publishes nothing
    ensures ce.cmd.op == Help ==>
      r[0] == MatrixMessageSend(MatrixMessageSendEvent(ce.room, HelpBody(cfg)))
    // every other operation publishes exactly its actuation command and nothing to chat
    ensures ce.cmd.op != Help ==>
      r[0].MqttSendCommandMessage? && Actuation(ce.cmd.op) == Some(r[0].command)
  {
    if ce.cmd.op == Help then [MatrixMessageSend(MatrixMessageSendEvent(ce.room, HelpBody(cfg)))]
    else [MqttSendCommandMessage(Actuation(ce.cmd.op).value)]
  }

  // ---------------------------------------------------------------------------
  // The status differ

  /** The events a decoded status report produces, given the last status seen. */
  function StatusOutput(cfg: Cli, previous: Schema.Status, resp: Schema.Response): (r: seq<Event>)
    ensures |r| == (if resp.status != previous then |cfg.matrixRooms| else 0)
                + (if resp.message.Some? then |cfg.matrixRooms| else 0)
    // a changed status is announced first, once per watched room
    ensures resp.status != previous ==> r[..|cfg.matrixRooms|] == FanOut(cfg.matrixRooms, StatusBody(cfg, resp))
    // a message is always announced last, once per watched room, whatever the diff
    ensures resp.message.Some? ==>
      r[|r| - |cfg.matrixRooms|..] == FanOut(cfg.matrixRooms, MessageBody(cfg, resp, resp.message.value))
    // an unchanged status sends no status message
    ensures resp.status == previous && resp.message.None? ==> r == []
  {
    var status := StatusAnnouncement(cfg, previous, resp);
    var message := MessageAnnouncement(cfg, resp);
    assert (status + message)[..|status|] == status;
    assert (status + message)[|status|..] == message;
    status + message
  }

  /** The status part of the differ's output. */
  function StatusAnnouncement(cfg: Cli, previous: Schema.Status, resp: Schema.Response): seq<Event>
  {
    if resp.status != previous then FanOut(cfg.matrixRooms, StatusBody(cfg, resp)) else []
  }

  /** The message part of the differ's output. */
  function MessageAnnouncement(cfg: Cli, resp: Schema.Response): seq<Event>
  {
    match resp.message
    case Some(m) => FanOut(cfg.matrixRooms, MessageBody(cfg, resp, m))
    case None => []
  }

  // ---------------------------------------------------------------------------
  // The event loop as a state machine

  /** The loop's state: the last status seen, and whether the loop still runs. */
  datatype State = State(oldStatus: Schema.Status, running: bool)

  /** When the task starts: nothing known yet. */
  const Initial: State := State(Schema.DefaultStatus, true)

  /** The state after an event, and the events sent while handling it. */
  datatype Transition = Transition(next: State, emitted: seq<Event>)

  /** One turn of the `while let` loop. */
  function Step(cfg: Cli, decode: Decoder, s: State, e: Event): (t: Transition)
    // nothing happens once the loop has returned
    ensures !s.running ==> t == Transition(s, [])
    ensures t.next.running <==> s.running && !e.Exit?
    ensures e.Exit? ==> t.emitted == []
    // only a decoded status report changes the stored status, and then it becomes that status
    ensures !e.MqttStatusMessageReceived? ==> t.next.oldStatus == s.oldStatus
    ensures s.running && e.MqttStatusMessageReceived? && decode(e.payload).Some? ==>
      t.next.oldStatus == decode(e.payload).value.status
    // a payload that does not decode is dropped
    ensures e.MqttStatusMessageReceived? && decode(e.payload).None? ==> t == Transition(s, [])
    // the loop ignores the events it sends itself, except a routed command
    ensures e.MatrixMessageSend? || e.MqttSendCommandMessage? ==> t == Transition(s, [])
    // what a running loop sends for a chat message, a routed command and a decoded report
    ensures s.running && e.MatrixMessageReceive? ==> t.emitted == ChatOutput(cfg, e.received)
    ensures s.running && e.CommandReceive? ==> t.emitted == CommandOutput(cfg, e.commandEvent)
    ensures s.running && e.MqttStatusMessageReceived? && decode(e.payload).Some? ==>
      t.emitted == StatusOutput(cfg, s.oldStatus, decode(e.payload).value)
  {
    if !s.running then Transition(s, [])
    else
      match e
      case Exit => Transition(s.(running := false), [])
      case MatrixMessageReceive(m) => Transition(s, ChatOutput(cfg, m))
      case CommandReceive(ce) => Transition(s, CommandOutput(cfg, ce))
      case MqttStatusMessageReceived(payload) =>
        (match decode(payload)
         case Some(resp) =>
           var next := if s.oldStatus != resp.status then s.(oldStatus := resp.status) else s;
           Transition(next, StatusOutput(cfg, s.oldStatus, resp))
         case None => Transition(s, []))
      case MatrixMessageSend(_) => Transition(s, [])
      case MqttSendCommandMessage(_) => Transition(s, [])
  }

  lemma AppendAssoc(a: seq<Event>, b: seq<Event>, c: seq<Event>)
    ensures (a + b) + c == a + (b + c)
  {
  }

  /** The loop over a sequence of received events, in order. */
  function Process(cfg: Cli, decode: Decoder, s: State, events: seq<Event>): Transition
    decreases |events|
  {
    if events == [] then Transition(s, [])
    else
      var first := Step(cfg, decode, s, events[0]);
      var rest := Process(cfg, decode, first.next, events[1..]);
      Transition(rest.next, first.emitted + rest.emitted)
  }

  /** One step of `Process` over the suffix of `events` from index `i`. */
  lemma ProcessFrom(cfg: Cli, decode: Decoder, s: State, events: seq<Event>, i: nat)
    requires i < |events|
    ensures var first := Step(cfg, decode, s, events[i]);
            var rest := Process(cfg, decode, first.next, events[i + 1..]);
            Process(cfg, decode, s, events[i..]) == Transition(rest.next, first.emitted + rest.emitted)
  {
    assert events[i..][0] == events[i];
    assert events[i..][1..] == events[i + 1..];
  }

  /** Once the loop has returned, further events change nothing. */
  lemma {:induction false} ProcessStopped(cfg: Cli, decode: Decoder, s: State, events: seq<Event>)
    requires !s.running
    ensures Process(cfg, decode, s, events) == Transition(s, [])
    decreases |events|
  {
    if events != [] {
      ProcessStopped(cfg, decode, s, events[1..]);
    }
  }

  /** Processing two batches is processing the second from where the first left off. */
  lemma {:induction false} ProcessConcat(cfg: Cli, decode: Decoder, s: State, a: seq<Event>, b: seq<Event>)
    ensures var t1 := Process(cfg, decode, s, a);
            var t2 := Process(cfg, decode, t1.next, b);
            Process(cfg, decode, s, a + b) == Transition(t2.next, t1.emitted + t2.emitted)
    decreases |a|
  {
    if a == [] {
      assert a + b == b;
    } else {
      assert (a + b)[0] == a[0];
      assert (a + b)[1..] == a[1..] + b;
      var first := Step(cfg, decode, s, a[0]);
      ProcessConcat(cfg, decode, first.next, a[1..], b);
      var r1 := Process(cfg, decode, first.next, a[1..]);
      AppendAssoc(first.emitted, r1.emitted, Process(cfg, decode, r1.next, b).emitted);
    }
  }

  /** An `Exit` ends the loop: nothing after it is handled. */
  lemma ExitEndsTheLoop(cfg: Cli, decode: Decoder, s: State, before: seq<Event>, after: seq<Event>)
    ensures var t := Process(cfg, decode, s, before);
            Process(cfg, decode, s, before + [Exit] + after)
            == Transition(t.next.(running := false), t.emitted)
  {
    var t := Process(cfg, decode, s, before);
    ProcessConcat(cfg, decode, s, before, [Exit] + after);
    var stopped := Step(cfg, decode, t.next, Exit).next;
    ProcessStopped(cfg, decode, stopped, after);
    assert ([Exit] + after)[1..] == after;
    assert before + [Exit] + after == before + ([Exit] + after);
  }

  /** Processing two events is one step after the other. */
  lemma ProcessTwo(cfg: Cli, decode: Decoder, s: State, e1: Event, e2: Event)
    ensures var t1 := Step(cfg, decode, s, e1);
            var t2 := Step(cfg, decode, t1.next, e2);
            Process(cfg, decode, s, [e1, e2]) == Transition(t2.next, t1.emitted + t2.emitted)
  {
    var t1 := Step(cfg, decode, s, e1);
    var t2 := Step(cfg, decode, t1.next, e2);
    assert [e1, e2][0] == e1 && [e1, e2][1..] == [e2];
    assert [e2][0] == e2 && [e2][1..] == [];
    assert Process(cfg, decode, t1.next, [e2]) == Transition(t2.next, t2.emitted + []);
    assert t2.emitted + [] == t2.emitted;
  }

  /**
   * The same status report twice: the status is announced at most once, on the
   * first report and only if it differs from the stored status.
   */
  lemma SameStatusTwiceNotifiesOnce(cfg: Cli, decode: Decoder, s: State, payload: string)
    requires s.running
    requires decode(payload).Some? && decode(payload).value.message.None?
    ensures var resp := decode(payload).value;
            var t := Process(cfg, decode, s, [MqttStatusMessageReceived(payload), MqttStatusMessageReceived(payload)]);
            && t.next == s.(oldStatus := resp.status)
            && t.emitted == (if s.oldStatus != resp.status then FanOut(cfg.matrixRooms, StatusBody(cfg, resp)) else [])
  {
    var e := MqttStatusMessageReceived(payload);
    ProcessTwo(cfg, decode, s, e, e);
  }

  /**
   * Two reports with the same status, the second without a message (a later
   * heartbeat, say, with another timestamp): the second announces nothing and
   * leaves the state as the first left it.
   */
  lemma EqualStatusIsAnnouncedOnce(cfg: Cli, decode: Decoder, s: State, first: string, second: string)
    requires decode(first).Some? && decode(second).Some?
    requires decode(first).value.status == decode(second).value.status
    requires decode(second).value.message.None?
    ensures var t1 := Step(cfg, decode, s, MqttStatusMessageReceived(first));
            Process(cfg, decode, s, [MqttStatusMessageReceived(first), MqttStatusMessageReceived(second)])
            == Transition(t1.next, t1.emitted)
  {
    var e1 := MqttStatusMessageReceived(first);
    var e2 := MqttStatusMessageReceived(second);
    ProcessTwo(cfg, decode, s, e1, e2);
    var t1 := Step(cfg, decode, s, e1);
    assert Step(cfg, decode, t1.next, e2) == Transition(t1.next, []);
    assert t1.emitted + [] == t1.emitted;
  }

  /** A routed command, once the bus delivers it back to the loop, is acted on. */
  lemma RoutedCommandIsHandledNextTurn(cfg: Cli, decode: Decoder, s: State, evt: MatrixMessageReceiveEvent, ce: CommandEvent)
    requires s.running
    requires ChatOutput(cfg, evt) == [CommandReceive(ce)]
    ensures Process(cfg, decode, s, [MatrixMessageReceive(evt), CommandReceive(ce)])
            == Transition(s, [CommandReceive(ce)] + CommandOutput(cfg, ce))
  {
    ProcessTwo(cfg, decode, s, MatrixMessageReceive(evt), CommandReceive(ce));
  }

  /**
   * The marker check is on the raw body: a body that starts with a space is
   * ignored by the loop even though the parser would accept it.
   */
  lemma LeadingSpaceIsIgnored(cfg: Cli, evt: MatrixMessageReceiveEvent, rest: string)
    requires evt.body == " " + rest
    ensures ChatOutput(cfg, evt) == []
    ensures ParseCommand(evt.body) == ParseCommand(rest)
  {
    ParseIgnoresExtraSpaces(rest, "");
  }

  /** Parsed station names are lower-case, so a configured name with a capital never matches. */
  lemma UpperCaseStationNeverRoutes(cfg: Cli, evt: MatrixMessageReceiveEvent)
    requires !NoUpper(cfg.stationName)
    ensures forall k :: 0 <= k < |ChatOutput(cfg, evt)| ==> !ChatOutput(cfg, evt)[k].CommandReceive?
  {
  }

  // ---------------------------------------------------------------------------
  // The loop itself

  class Dispatcher {
    const config: Cli
    const decode: Decoder
    var oldStatus: Schema.Status
    var running: bool
    /** Every event this task has sent on the bus, oldest first. */
    var outbox: seq<Event>

    function Current(): State
      reads this
    {
      State(oldStatus, running)
    }

    constructor (config: Cli, decode: Decoder)
      ensures this.config == config && this.decode == decode
      ensures Current() == Initial && outbox == []
    {
      this.config := config;
      this.decode := decode;
      oldStatus := Schema.DefaultStatus;
      running := true;
      outbox := [];
    }

    /** `send_status_messages`: the same body to every watched room. */
    method SendStatusMessages(body: string)
      modifies this`outbox
      ensures outbox == old(outbox) + FanOut(config.matrixRooms, body)
    {
      var rooms := config.matrixRooms;
      for i := 0 to |rooms|
        invariant outbox == old(outbox) + FanOut(rooms[..i], body)
      {
        outbox := outbox + [MatrixMessageSend(MatrixMessageSendEvent(rooms[i], body))];
        assert FanOut(rooms[..i + 1], body) == FanOut(rooms[..i], body) + [MatrixMessageSend(MatrixMessageSendEvent(rooms[i], body))];
      }
      assert rooms[..|rooms|] == rooms;
    }

    /** `send_command`: publish one actuation command. */
    method SendCommand(cmd: Schema.Command)
      modifies this`outbox
      ensures outbox == old(outbox) + [MqttSendCommandMessage(cmd)]
    {
      outbox := outbox + [MqttSendCommandMessage(cmd)];
    }

    /** The chat-message arm of the loop. */
    method HandleChatMessage(evt: MatrixMessageReceiveEvent)
      modifies this`outbox
      ensures outbox == old(outbox) + ChatOutput(config, evt)
    {
      if !StartsWithMarker(evt.body) {
        return;
      }
      var room := evt.room;
      if room !in config.matrixRooms {
        return;
      }
      var sender := evt.sender;
      if config.matrixUsername == sender {
        return;
      }
      match ToCommandEvent(evt)
      case Ok(ce) =>
        if ce.cmd.stationName == config.stationName {
          var opOnly := ce.cmd.op.IsOperatorOnly();
          if !opOnly || sender in config.stationOperators {
            outbox := outbox + [CommandReceive(ce)];
          }
        }
      case Err(_) =>
        outbox := outbox + [MatrixMessageSend(MatrixMessageSendEvent(room, UsageErrorBody(sender, config.stationName)))];
    }

    /** The routed-command arm of the loop. */
    method HandleCommand(ce: CommandEvent)
      modifies this`outbox
      ensures outbox == old(outbox) + CommandOutput(config, ce)
    {
      match ce.cmd.op
      case Help =>
        outbox := outbox + [MatrixMessageSend(MatrixMessageSendEvent(ce.room, HelpBody(config)))];
      case Shutdown =>
        SendCommand(Schema.Command(Some(false), Some(false)));
      case PowerOn =>
        SendCommand(Schema.Command(Some(true), None));
      case PowerOff =>
        SendCommand(Schema.Command(Some(false), None));
      case PttEnable =>
        SendCommand(Schema.Command(None, Some(true)));
      case PttDisable =>
        SendCommand(Schema.Command(None, Some(false)));
    }

    /** The telemetry arm of the loop. */
    method HandleStatusMessage(payload: string)
      modifies this`outbox, this`oldStatus
      ensures decode(payload).None? ==> oldStatus == old(oldStatus) && outbox == old(outbox)
      ensures decode(payload).Some? ==>
        && oldStatus == decode(payload).value.status
        && outbox == old(outbox) + StatusOutput(config, old(oldStatus), decode(payload).value)
    {
      match decode(payload)
      case Some(resp) =>
        ghost var before := outbox;
        ghost var previous := oldStatus;
        if oldStatus != resp.status {
          SendStatusMessages(StatusBody(config, resp));
          oldStatus := resp.status;
        }
        assert outbox == before + StatusAnnouncement(config, previous, resp);
        if resp.message.Some? {
          SendStatusMessages(MessageBody(config, resp, resp.message.value));
        }
        assert outbox == before + StatusAnnouncement(config, previous, resp) + MessageAnnouncement(config, resp);
        AppendAssoc(before, StatusAnnouncement(config, previous, resp), MessageAnnouncement(config, resp));
      case None =>
    }

    /** One turn of the loop. */
    method Receive(e: Event)
      modifies this`outbox, this`oldStatus, this`running
      ensures Current() == Step(config, decode, old(Current()), e).next
      ensures outbox == old(outbox) + Step(config, decode, old(Current()), e).emitted
    {
      if !running {
        return;
      }
      match e
      case Exit =>
        running := false;
      case MatrixMessageReceive(m) =>
        HandleChatMessage(m);
      case CommandReceive(ce) =>
        HandleCommand(ce);
      case MqttStatusMessageReceived(payload) =>
        HandleStatusMessage(payload);
      case MatrixMessageSend(_) =>
      case MqttSendCommandMessage(_) =>
    }

    /** `run_task`: handle the received events in order until `Exit`. */
    method Run(events: seq<Event>)
      modifies this`outbox, this`oldStatus, this`running
      ensures Current() == Process(config, decode, old(Current()), events).next
      ensures outbox == old(outbox) + Process(config, decode, old(Current()), events).emitted
    {
      ghost var total := Process(config, decode, Current(), events);
      ghost var sent := outbox;
      var i := 0;
      while i < |events| && running
        invariant 0 <= i <= |events|
        invariant Process(config, decode, Current(), events[i..]).next == total.next
        invariant outbox + Process(config, decode, Current(), events[i..]).emitted == sent + total.emitted
      {
        ghost var before := outbox;
        ghost var first := Step(config, decode, Current(), events[i]);
        ghost var rest := Process(config, decode, first.next, events[i + 1..]);
        ProcessFrom(config, decode, Current(), events, i);
        Receive(events[i]);
        AppendAssoc(before, first.emitted, rest.emitted);
        i := i + 1;
      }
      if i < |events| {
        ProcessStopped(config, decode, Current(), events[i..]);
      } else {
        assert events[i..] == [];
      }
    }
  }
}
