# matrix-remote-closedown: the routing engine, modelled in Dafny

matrix-remote-closedown is a bot that connects Matrix chat rooms to a radio
station's remote-closedown controller over MQTT. This project models its
routing engine and proves properties of it. The engine has these parts:

- **Command parser.** It turns chat text such as `!mb7pmf power on` into a
  station name and one of six operations. It lower-cases the text, splits it
  on the space character, drops the empty pieces, requires a leading `!`, and
  matches the remaining words against a fixed verb table.
- **Chat filter.** It decides what a received chat message produces. The
  checks run in order: the `!` marker, a watched room, not the bot itself, the
  parse, the station name, and operator rights. The result is nothing, one
  usage-error reply, or a routed command.
- **Command dispatch.** A routed command is put back on the bridge's event bus
  and handled on a later turn. `help` answers in the room it came from. Every
  other operation publishes a partial actuation command, where each concerned
  field is set and each other field is left `None` ("do not change").
- **Status differ.** It decodes each telemetry report. Every watched room is
  told about the status only when it differs from the last status seen, and
  that status is then stored. A report's message is always sent to every room.
- **Event loop.** One task handles the bus's events in order until `Exit`. The
  last status seen is its only state, and it starts all-unknown.

Modules, one per source file:

- `Schema` (`schema.dfy`): the status, report and actuation-command types.
- `Commands` (`command.dfy`): the parser. Its unit tests, as lemmas, are in
  `CommandTests`.
- `Events` (`event.dfy`): the bus events and `CommandEvent::try_from`.
- `Config` (`config.dfy`): the configuration fields the engine reads, and the
  operator list text.
- `Processing` (`processing.dfy`): the event loop. The pure functions `Step`
  and `Process` specify one turn and a whole run. The class `Dispatcher` has
  the last status, the running flag and an outbox of sent events as fields. Its
  methods are proved to do exactly what `Step` and `Process` say.
- `Scenarios` (`scenarios.dfy`): whole-loop runs for a station called `mb7pmf`.
- `Wrappers` and `Strings`: `Option`/`Result`, joining, and substring
  occurrence.

Some behaviours of the code are easy to misread; the model follows the code:

- Commands are split on the space character alone. A tab is part of a
  token.
- The help text lists the operators even when there are none.
- A report's `message` is sent to every room whenever it is present, even
  when it is the empty text.
- The dispatcher checks for the `!` marker on the raw body. So
  `" !mb7pmf power on"` is dropped without a reply, although the parser
  accepts it (`LeadingSpaceIsIgnored`).
- The configured station name is compared as given, but parsed names are
  lower-case. So a station configured with a capital letter can never be
  addressed (`UpperCaseStationNeverRoutes`).

## Model

| member | source | states |
|---|---|---|
| Commands.Operation.IsOperatorOnly | src/command.rs:48-58 | an operation is operator-only exactly when it is not `Help` |
| Commands.Words | src/command.rs:64-71 | every row of the verb table is one or two words |
| Commands.ParseOperation | src/command.rs:61-75 | the op parser accepts `parts` as `op` exactly when `parts` is `op`'s row of the verb table; anything else is the unknown-command error |
| Commands.LowerChar | src/command.rs:23 | lower-casing a character leaves no capital, keeps space and `!` and nothing else becomes them, and fixes every non-capital |
| Commands.Lower | src/command.rs:23 | the character-wise lower-casing; its properties are LowerNoUpper, LowerFixed, LowerIdempotent, LowerAllSpaces and LowerConcat |
| Commands.LowerNoUpper | src/command.rs:23 | lower-cased text holds no capital letter |
| Commands.LowerFixed | src/command.rs:23 | text without capitals is unchanged by lower-casing |
| Commands.LowerIdempotent | src/command.rs:23 | lower-casing twice is lower-casing once |
| Commands.LowerAllSpaces | src/command.rs:23 | lower-cased text is all spaces exactly when the text is |
| Commands.LowerConcat | src/command.rs:23 | lower-casing distributes over concatenation |
| Commands.Split | src/command.rs:24 | `split(' ')` always yields at least one piece |
| Commands.SplitPieces | src/command.rs:24 | no piece of the split holds a space, and joining the pieces with a space gives the text back |
| Commands.DropEmpty | src/command.rs:24 | the `filter` that drops empty pieces; see DropEmptyKeeps and, for what it keeps, TokensOfJoin |
| Commands.DropEmptyKeeps | src/command.rs:24 | the filter keeps only non-empty pieces, each one taken from the input |
| Commands.Tokens | src/command.rs:24 | the `split`, `filter` and `collect` chain; see TokensShape, TokensEmptyIff, TokensFirstChar, TokensOfJoin and TokensIgnoreExtraSpaces |
| Commands.TokensShape | src/command.rs:24 | every token is non-empty and space-free |
| Commands.TokensEmptyIff | src/command.rs:24-25 | there are no tokens exactly when the text is all spaces |
| Commands.TokensNoUpper | src/command.rs:23-24 | tokens of lower-cased text hold no capital |
| Commands.TokensFirstChar | src/command.rs:24-27 | the first token begins with the first non-space character |
| Commands.TokensOfJoin | src/command.rs:24 | tokenising words joined by a space gives the words back |
| Commands.SplitOfJoin | src/command.rs:24 | splitting space-free pieces joined by a space gives the pieces back |
| Commands.TokensIgnoreExtraSpaces | src/command.rs:24 | a leading, trailing or doubled space does not change the tokens |
| Commands.ParseCommand | src/command.rs:22-35 | the empty-command error holds exactly for all-space text; on success the first token of the lower-cased text is `!` and the station name, the rest is the operation's verb row, and the name is lower-case and space-free |
| Commands.ParseCaseInsensitive | src/command.rs:23 | parsing the lower-cased text gives the same result |
| Commands.ParseIgnoresExtraSpaces | src/command.rs:24 | leading, trailing and repeated spaces do not change the parse |
| Commands.ParseMarker | src/command.rs:27-33 | the result is the bad-start error exactly when the first non-space character is not `!` |
| Commands.ParseRoundTrip | src/command.rs:28-30 | for every lower-case, space-free name and every operation, `!name verb` parses to that name and operation |
| Commands.VerbWords | src/command.rs:65-71 | the verb words are non-empty, space-free and lower-case |
| Commands.ParseOfTokens | src/command.rs:25-31 | text whose tokens are `!name` followed by a verb row parses to that command |
| CommandTests.ParseCommandOk | src/command.rs:81-90 | `!mb7pmf power on` parses to station `mb7pmf`, `PowerOn` |
| CommandTests.ParseCommandOkCase | src/command.rs:103-112 | `!MB7PMF Power ON` parses to station `mb7pmf`, `PowerOn` |
| CommandTests.ParseCommandErrCommandString | src/command.rs:114-117 | `mb7pmf power on` does not parse |
| CommandTests.ParseOperationOk | src/command.rs:119-130 | `help`, `shutdown` and `power on` are accepted as their operations |
| CommandTests.ParseOperationErr | src/command.rs:132-137 | `halp`, `[""]` and `[]` are rejected |
| CommandTests.ParseEmptyStationHelp | src/command.rs:27-30 | `! help` parses to the empty station name and `Help` |
| CommandTests.ParseMarkerWithoutVerb | src/command.rs:30 | `!x` alone is the unknown-command error, since there is no verb |
| Events.ToCommandEvent | src/event.rs:37-46 | the conversion succeeds exactly when the body parses; on success it keeps the room and the parsed command, and on failure it keeps the parse error |
| Events.ToCommandEventIgnoresSender | src/event.rs:31-46 | the sender does not affect the conversion |
| Config.StationOperatorsStringList | src/main.rs:90-96 | no operators give the empty text, one operator gives its id, and `n` operators give their lengths plus `2*(n-1)` |
| Config.StationOperatorsAppend | src/main.rs:91-95 | an operator appended to the list is appended to the text after `", "` |
| Config.StationOperatorsPrepend | src/main.rs:91-95 | an operator put first in the list is put first in the text, followed by `", "` |
| Processing.FormatOptionalBool | src/processing.rs:11-19 | the result is one of the three labels; with distinct labels, each label is shown exactly for its value |
| Processing.UsageErrorBody | src/processing.rs:70-73 | the usage-error reply text; see UsageErrorBodyShape |
| Processing.UsageErrorBodyShape | src/processing.rs:64-76 | the usage-error reply begins with the sender and contains `!<station> help` |
| Processing.HelpBody | src/processing.rs:87-96 | the help text; see HelpBodyMentions |
| Processing.HelpBodyMentions | src/processing.rs:82-98 | the help text contains the station's usage line and the operator list |
| Processing.StatusLines | src/processing.rs:156-186 | the four labelled status fields; each label comes from FormatOptionalBool |
| Processing.StatusBody | src/processing.rs:155-187 | the status notification; see StatusBodyMentions |
| Processing.StatusBodyMentions | src/processing.rs:151-188 | the status text contains `**<station>** at <timestamp>` and the four field labels |
| Processing.MessageBody | src/processing.rs:196-206 | the message notification; see MessageBodyMentions |
| Processing.MessageBodyMentions | src/processing.rs:192-207 | the message text contains the operator list and `Message: <message>` |
| Processing.FanOut | src/processing.rs:231-241 | one message per watched room, to the k-th room in the k-th place, each with the same body |
| Processing.Actuation | src/processing.rs:100-144 | `Help` publishes nothing; each other operation sets exactly the fields it concerns; only `PowerOn` turns power on, and only `PttEnable` enables push-to-talk |
| Processing.ActuationTable | src/processing.rs:100-144 | the five rows of the actuation table, and none for `Help` |
| Processing.ActuationInjective | src/processing.rs:100-144 | two operations with the same actuation are the same operation (`Help` alone has none) |
| Processing.StartsWithMarker | src/processing.rs:34-36 | the `!` check on the raw body; see ChatOutput and LeadingSpaceIsIgnored |
| Processing.PassesPrefilter | src/processing.rs:34-46 | the three silent checks before the parse; see ChatOutput, whose contract gives nothing when they fail |
| Processing.ChatOutput | src/processing.rs:33-78 | a command is routed exactly when all six checks pass, and it is the parsed command in the message's room; failing a silent check gives nothing; a parse failure gives exactly one reply to the room; a wrong station or a non-operator gives nothing |
| Processing.CommandOutput | src/processing.rs:79-146 | exactly one event: for `Help` the help text to the command's room, and otherwise the operation's actuation command |
| Processing.StatusOutput | src/processing.rs:147-209 | one status message per room first, exactly when the status changed; one message-text message per room last, exactly when a message is present; nothing for an unchanged status without a message |
| Processing.StatusAnnouncement | src/processing.rs:151-190 | the status part of the differ; see StatusOutput, which proves it is the fan-out exactly when the status changed |
| Processing.MessageAnnouncement | src/processing.rs:192-208 | the message part of the differ; see StatusOutput, which proves it is the fan-out exactly when a message is present |
| Processing.Step | src/processing.rs:27-216 | a stopped loop does nothing; `Exit` stops it; only a decoded report changes the stored status, and then it becomes the reported status; an undecodable payload and the loop's own outgoing events change nothing; a running loop sends the chat filter's output for a chat message, the command's output for a routed command and the differ's output for a decoded report |
| Processing.Process | src/processing.rs:27-216 | the `while let` loop over the received events; see ProcessStopped, ProcessConcat, ExitEndsTheLoop and ProcessTwo, and Dispatcher.Run, which is proved equal to it |
| Processing.ProcessStopped | src/processing.rs:29-32 | after `Exit`, no event changes anything |
| Processing.ProcessConcat | src/processing.rs:27 | processing two batches is processing the second from where the first left off |
| Processing.ExitEndsTheLoop | src/processing.rs:27-32 | everything after an `Exit` is ignored |
| Processing.ProcessTwo | src/processing.rs:27 | processing two events is two steps |
| Processing.EqualStatusIsAnnouncedOnce | src/processing.rs:151-207 | after any report, a second report with the same status and no message announces nothing and changes nothing, whatever its other fields |
| Processing.SameStatusTwiceNotifiesOnce | src/processing.rs:151-190 | the same report twice stores its status and announces it at most once, only if it differs from the stored status |
| Processing.RoutedCommandIsHandledNextTurn | src/processing.rs:53-99 | a routed command, delivered back to the loop, produces the command's output on that later turn |
| Processing.LeadingSpaceIsIgnored | src/processing.rs:34-36 | a body starting with a space produces nothing, though it parses like the body without the space |
| Processing.UpperCaseStationNeverRoutes | src/processing.rs:50 | with a capital letter in the configured station name, no message is ever routed |
| Processing.Dispatcher.constructor | src/processing.rs:21-25 | the loop starts running, with the all-unknown status and nothing sent |
| Processing.Dispatcher.SendStatusMessages | src/processing.rs:231-241 | appends exactly the fan-out of the body to the outbox |
| Processing.Dispatcher.SendCommand | src/processing.rs:220-229 | appends exactly the one actuation command |
| Processing.Dispatcher.HandleChatMessage | src/processing.rs:33-78 | appends exactly the chat filter's output |
| Processing.Dispatcher.HandleCommand | src/processing.rs:79-146 | appends exactly the command's output |
| Processing.Dispatcher.HandleStatusMessage | src/processing.rs:147-213 | without a decode it changes nothing; with one it stores the reported status and appends the differ's output |
| Processing.Dispatcher.Receive | src/processing.rs:27-215 | the new state and the appended events are exactly those of one step |
| Processing.Dispatcher.Run | src/processing.rs:21-218 | the new state and the appended events are exactly those of processing the event sequence |
| Scenarios.ParsePowerOn | src/command.rs:22-35 | `!mb7pmf power on` parses to `mb7pmf`, `PowerOn` |
| Scenarios.ParseHelp | src/command.rs:22-35 | `!mb7pmf help` parses to `mb7pmf`, `Help` |
| Scenarios.ParseFlergle | src/command.rs:30 | `!mb7pmf flergle` is the unknown-command error |
| Scenarios.OperatorPowerOnIsRouted | src/processing.rs:48-53 | an operator's `!mb7pmf power on` is routed as that command |
| Scenarios.NonOperatorPowerOnIsDropped | src/processing.rs:50-56 | a non-operator's power-on produces nothing |
| Scenarios.HelpIsRouted | src/processing.rs:48-53 | anyone's `!mb7pmf help` is routed, operator or not |
| Scenarios.FlergleIsRejected | src/processing.rs:64-76 | `!mb7pmf flergle` is answered with the usage error addressed to its sender |
| Scenarios.CommandThenRepeatedStatus | src/processing.rs:53-190 | a routed command followed by the same report twice: the command's output, then the status at most once |
| Scenarios.PowerOnEndToEnd | src/processing.rs:33-190 | a routed power-on publishes `(Some(true), None)`; the first report afterwards is announced in every room and the identical second one is not |
| Scenarios.OperatorPowerOnScenario | src/processing.rs:33-190 | an operator's `!mb7pmf power on` in a watched room, then the same report twice: `(Some(true), None)` is published, the first report is announced in every room and the second is not |
| Scenarios.HelpIsAnswered | src/processing.rs:79-97 | a routed `help` is answered in the room it came from and nothing is published |
| Scenarios.HelpScenario | src/processing.rs:33-97 | anyone's `!mb7pmf help` in a watched room is answered in that room and nothing is published |
| Scenarios.MalformedCommandGetsOneReply | src/processing.rs:34-76 | a message that passes the room, sender and marker checks but that the parser rejects gets exactly one reply, in its room, beginning with the sender and naming `!<station> help` |

## Left out

- Lower-casing covers ASCII letters only. Rust's Unicode `to_lowercase` is not modelled, including the characters whose lower case is longer than one character.
- Station names are taken as whole characters. Rust's byte slicing `parts[0][1..]` agrees with this once the `!` is removed.
- Telemetry decoding by `serde_json` is a constant function of the `Dispatcher`, from payload text to an optional report. JSON itself is not modelled.
- The RFC 3339 timestamp is kept only as its display text, so `chrono` is not modelled.
- `send_command` serialises the actuation command to JSON. The model publishes the command value itself, and its serialisation-failure branch is left out.
- Processing.HelpBodyMentions: `unindent` is modelled as the template with its common indentation removed. Its effect on configured values that contain line breaks is left out.
- Processing.MessageBodyMentions: `unindent` runs on the formatted text, so a telemetry message containing a line break can change the common indentation, and with it the message's own text, in the body sent. Message bodies are modelled as if the message has no line break, and the lemma holds for the body as modelled only.
- Processing.StatusBodyMentions: the configured station name is exposed to `unindent` the same way. A station name with a line break is left out like the message text above.
- Processing.StatusBodyMentions, Processing.MessageBodyMentions, Processing.UsageErrorBodyShape and Processing.HelpBodyMentions state which values a body contains, not its full markdown text. The text itself is the function's definition.
- Logging, metrics (`src/metrics.rs`) and the error logging in `send_event!` are left out.
- The broadcast channel is an outbox sequence. A failed send is not modelled.
- The loop's input is a sequence of events, and events the loop sends itself reach it only when they appear in that sequence. The order in which the bus interleaves events from other tasks is left out.
- The loop also ends when the receiver lags or the channel closes, since the `while let` stops on any receive error. That is not modelled; only `Exit` ends it.
- The MQTT and Matrix clients, the command line and its environment parsing, and the tokio runtime and signal handling are not part of this model. The rest of `main.rs` is left out too.
- The parser's whitespace unit test (`src/command.rs:92-101`) has no concrete lemma. The general lemma `Commands.ParseIgnoresExtraSpaces` covers the leading, trailing and repeated spaces it uses.
