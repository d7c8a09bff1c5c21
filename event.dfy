/** The events that travel on the bridge's internal bus. */
module Events {
  import opened Wrappers
  import opened Commands
  import Schema

  type RoomId = string
  type UserId = string

  datatype MatrixMessageReceiveEvent = MatrixMessageReceiveEvent(room: RoomId, sender: UserId, body: string)

  datatype MatrixMessageSendEvent = MatrixMessageSendEvent(room: RoomId, body: string)

  datatype CommandEvent = CommandEvent(room: RoomId, cmd: Command)

  /** The JSON text of a published command is represented by the command itself. */
  datatype Event =
    | MatrixMessageReceive(received: MatrixMessageReceiveEvent)
    | MatrixMessageSend(send: MatrixMessageSendEvent)
    | MqttStatusMessageReceived(payload: string)
    | MqttSendCommandMessage(command: Schema.Command)
    | CommandReceive(commandEvent: CommandEvent)
    | Exit

  /** `CommandEvent::try_from(MatrixMessageReceiveEvent)`: the room, and the parsed body. */
  function ToCommandEvent(evt: MatrixMessageReceiveEvent): (r: Result<CommandEvent, ParseError>)
    ensures r.Ok? <==> ParseCommand(evt.body).Ok?
    ensures r.Ok? ==> r.value.room == evt.room && r.value.cmd == ParseCommand(evt.body).value
    ensures r.Err? ==> r.error == ParseCommand(evt.body).error
  {
    match ParseCommand(evt.body)
    case Ok(cmd) => Ok(CommandEvent(evt.room, cmd))
    case Err(e) => Err(e)
  }

  /** The sender does not reach the command event: only room and body matter. */
  lemma ToCommandEventIgnoresSender(evt: MatrixMessageReceiveEvent, other: UserId)
    ensures ToCommandEvent(evt.(sender := other)) == ToCommandEvent(evt)
  {
  }
}
