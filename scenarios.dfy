/**
 * Whole-loop scenarios for one station, `mb7pmf`: an operator switching the
 * transmitter on and the telemetry that follows, a non-operator's attempts,
 * and a malformed command.
 */
module Scenarios {
  import opened Wrappers
  import opened Strings
  import opened Commands
  import opened Events
  import opened Config
  import opened Processing
  import Schema
  import CommandTests

  /** A chat message for this station, in a watched room, from someone other than the bot. */
  predicate ForStation(cfg: Cli, evt: MatrixMessageReceiveEvent)
  {
    && cfg.stationName == "mb7pmf"
    && evt.room in cfg.matrixRooms
    && evt.sender != cfg.matrixUsername
  }

  lemma ParsePowerOn(body: string)
    requires body == "!mb7pmf power on"
    ensures ParseCommand(body) == Ok(Command("mb7pmf", PowerOn))
  {
    CommandTests.ParseCommandOk();
  }

  lemma ParseHelp(body: string)
    requires body == "!mb7pmf help"
    ensures ParseCommand(body) == Ok(Command("mb7pmf", Help))
  {
    ParseRoundTrip("mb7pmf", Help);
    assert "!" + "mb7pmf" + " " + VerbText(Help) == body;
  }

  lemma ParseFlergle(body: string)
    requires body == "!mb7pmf flergle"
    ensures ParseCommand(body) == Err(UnknownCommand)
  {
    var ws := ["!mb7pmf", "flergle"];
    assert NoUpper(body);
    LowerFixed(body);
    assert Join(ws, " ") == body;
    TokensOfJoin(ws);
    assert Tokens(Lower(body))[1..] == ["flergle"];
  }

  /** An operator's `!mb7pmf power on` is routed as that command. */
  lemma OperatorPowerOnIsRouted(cfg: Cli, evt: MatrixMessageReceiveEvent)
    requires ForStation(cfg, evt) && evt.body == "!mb7pmf power on"
    requires evt.sender in cfg.stationOperators
    ensures ChatOutput(cfg, evt) == [CommandReceive(CommandEvent(evt.room, Command("mb7pmf", PowerOn)))]
  {
    ParsePowerOn(evt.body);
  }

  /** A non-operator's `!mb7pmf power on` publishes nothing and gets no reply. */
  lemma NonOperatorPowerOnIsDropped(cfg: Cli, evt: MatrixMessageReceiveEvent)
    requires ForStation(cfg, evt) && evt.body == "!mb7pmf power on"
    requires evt.sender !in cfg.stationOperators
    ensures ChatOutput(cfg, evt) == []
  {
    ParsePowerOn(evt.body);
  }

  /** Anyone's `!mb7pmf help`, operator or not, is routed. */
  lemma HelpIsRouted(cfg: Cli, evt: MatrixMessageReceiveEvent)
    requires ForStation(cfg, evt) && evt.body == "!mb7pmf help"
    ensures ChatOutput(cfg, evt) == [CommandReceive(CommandEvent(evt.room, Command("mb7pmf", Help)))]
  {
    ParseHelp(evt.body);
  }

  /** `!mb7pmf flergle` does not parse. */
  lemma FlergleIsRejected(cfg: Cli, evt: MatrixMessageReceiveEvent)
    requires ForStation(cfg, evt) && evt.body == "!mb7pmf flergle"
    ensures ChatOutput(cfg, evt) == [MatrixMessageSend(MatrixMessageSendEvent(evt.room, UsageErrorBody(evt.sender, "mb7pmf")))]
  {
    ParseFlergle(evt.body);
  }

  /**
   * A routed command, then two identical status reports with no message: the
   * command is acted on, and the status is announced once, and only if it
   * differs from the stored one.
   */
  lemma CommandThenRepeatedStatus(cfg: Cli, decode: Decoder, s: State, evt: MatrixMessageReceiveEvent,
                                  ce: CommandEvent, payload: string)
    requires s.running
    requires ChatOutput(cfg, evt) == [CommandReceive(ce)]
    requires decode(payload).Some? && decode(payload).value.message.None?
    ensures var resp := decode(payload).value;
            var status := MqttStatusMessageReceived(payload);
            Process(cfg, decode, s, [MatrixMessageReceive(evt), CommandReceive(ce), status, status])
            == Transition(s.(oldStatus := resp.status),
                          [CommandReceive(ce)] + CommandOutput(cfg, ce)
                          + (if s.oldStatus != resp.status then FanOut(cfg.matrixRooms, StatusBody(cfg, resp)) else []))
  {
    var status := MqttStatusMessageReceived(payload);
    RoutedCommandIsHandledNextTurn(cfg, decode, s, evt, ce);
    SameStatusTwiceNotifiesOnce(cfg, decode, s, payload);
    ProcessConcat(cfg, decode, s, [MatrixMessageReceive(evt), CommandReceive(ce)], [status, status]);
    assert [MatrixMessageReceive(evt), CommandReceive(ce)] + [status, status]
        == [MatrixMessageReceive(evt), CommandReceive(ce), status, status];
  }

  /**
   * A message routed as power-on (an operator's `!mb7pmf power on`, by
   * `OperatorPowerOnIsRouted`) is published as `(Some(true), None)`; the first
   * telemetry report that follows differs from the all-unknown initial status
   * and is announced in every watched room; an identical second report
   * announces nothing.
   */
  lemma PowerOnEndToEnd(cfg: Cli, decode: Decoder, evt: MatrixMessageReceiveEvent, payload: string)
    requires ChatOutput(cfg, evt) == [CommandReceive(CommandEvent(evt.room, Command(cfg.stationName, PowerOn)))]
    requires decode(payload).Some?
    requires decode(payload).value.status == Schema.Status(Some(true), None, None, None)
    requires decode(payload).value.message.None?
    ensures var ce := CommandEvent(evt.room, Command(cfg.stationName, PowerOn));
            var resp := decode(payload).value;
            Process(cfg, decode, Initial,
                    [MatrixMessageReceive(evt), CommandReceive(ce),
                     MqttStatusMessageReceived(payload), MqttStatusMessageReceived(payload)])
            == Transition(State(resp.status, true),
                          [CommandReceive(ce), MqttSendCommandMessage(Schema.Command(Some(true), None))]
                          + FanOut(cfg.matrixRooms, StatusBody(cfg, resp)))
  {
    var ce := CommandEvent(evt.room, Command(cfg.stationName, PowerOn));
    var resp := decode(payload).value;
    CommandThenRepeatedStatus(cfg, decode, Initial, evt, ce, payload);
    assert CommandOutput(cfg, ce) == [MqttSendCommandMessage(Schema.Command(Some(true), None))];
    assert Initial.oldStatus != resp.status;
    assert Initial.(oldStatus := resp.status) == State(resp.status, true);
  }

  /**
   * The whole scenario from the chat text: an operator's `!mb7pmf power on` in a
   * watched room, then the same telemetry report twice.
   */
  lemma OperatorPowerOnScenario(cfg: Cli, decode: Decoder, evt: MatrixMessageReceiveEvent, payload: string)
    requires ForStation(cfg, evt) && evt.body == "!mb7pmf power on"
    requires evt.sender in cfg.stationOperators
    requires decode(payload).Some?
    requires decode(payload).value.status == Schema.Status(Some(true), None, None, None)
    requires decode(payload).value.message.None?
    ensures var ce := CommandEvent(evt.room, Command("mb7pmf", PowerOn));
            var resp := decode(payload).value;
            Process(cfg, decode, Initial,
                    [MatrixMessageReceive(evt), CommandReceive(ce),
                     MqttStatusMessageReceived(payload), MqttStatusMessageReceived(payload)])
            == Transition(State(resp.status, true),
                          [CommandReceive(ce), MqttSendCommandMessage(Schema.Command(Some(true), None))]
                          + FanOut(cfg.matrixRooms, StatusBody(cfg, resp)))
  {
    OperatorPowerOnIsRouted(cfg, evt);
    PowerOnEndToEnd(cfg, decode, evt, payload);
  }

  /** A routed `help` is answered in the room it came from, and publishes nothing. */
  lemma HelpIsAnswered(cfg: Cli, decode: Decoder, evt: MatrixMessageReceiveEvent)
    requires ChatOutput(cfg, evt) == [CommandReceive(CommandEvent(evt.room, Command(cfg.stationName, Help)))]
    ensures var ce := CommandEvent(evt.room, Command(cfg.stationName, Help));
            Process(cfg, decode, Initial, [MatrixMessageReceive(evt), CommandReceive(ce)]).emitted
            == [CommandReceive(ce), MatrixMessageSend(MatrixMessageSendEvent(evt.room, HelpBody(cfg)))]
  {
    var ce := CommandEvent(evt.room, Command(cfg.stationName, Help));
    RoutedCommandIsHandledNextTurn(cfg, decode, Initial, evt, ce);
  }

  /** Anyone's `!mb7pmf help` in a watched room is answered there, and publishes nothing. */
  lemma HelpScenario(cfg: Cli, decode: Decoder, evt: MatrixMessageReceiveEvent)
    requires ForStation(cfg, evt) && evt.body == "!mb7pmf help"
    ensures var ce := CommandEvent(evt.room, Command("mb7pmf", Help));
            Process(cfg, decode, Initial, [MatrixMessageReceive(evt), CommandReceive(ce)]).emitted
            == [CommandReceive(ce), MatrixMessageSend(MatrixMessageSendEvent(evt.room, HelpBody(cfg)))]
  {
    HelpIsRouted(cfg, evt);
    HelpIsAnswered(cfg, decode, evt);
  }

  /** A command that does not parse gets exactly one reply, in its room, addressed to the sender. */
  lemma MalformedCommandGetsOneReply(cfg: Cli, evt: MatrixMessageReceiveEvent)
    requires PassesPrefilter(cfg, evt) && ParseCommand(evt.body).Err?
    ensures |ChatOutput(cfg, evt)| == 1
    ensures ChatOutput(cfg, evt)[0].MatrixMessageSend?
    ensures var reply := ChatOutput(cfg, evt)[0].send;
            && reply.room == evt.room
            && reply.body[..|evt.sender|] == evt.sender
            && Contains(reply.body, "!" + cfg.stationName + " help")
  {
    UsageErrorBodyShape(evt.sender, cfg.stationName);
  }
}
