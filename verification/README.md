# Dexon DIVIP control module: command encoder and socket lifecycle

This project models the core of a control module that keeps one TCP
connection to a Dexon DIVIP video processor and sends it XML-like command
messages. Each message starts with a credentials block. The model has two
parts.

- **Command encoder** (`Wire`, with text helpers in `Text`). `action` builds
  a command from the action name, its options and the stored configuration
  (`user`, `pass`, `need_ack`). The wire text is reproduced character for
  character, spaces included: `<setup version="1" > <username>…</username>
  <password>…</password> <needack>…</needack> </setup> `. The encoder's
  partner is a decoder, `Wire.Decode`, proved to be its inverse in both
  directions whenever the credentials contain no `<`.
- **Socket lifecycle and send gate** (`Connection`). `Instance` has the
  module's fields: `config`, the optional `socket` (absent after `delete`)
  and the last reported `status`. It also keeps a ghost list of every
  socket it has created. `Socket` stands for the transport handle, with
  `connected`, `destroyed` and the payloads written to it. The methods are
  `init_tcp`, `init`, `updateConfig`, `destroy`, the four transport event
  handlers and `action`. The object invariant `Valid` says that every
  socket other than the current one is destroyed. From it, at most one
  socket is live. Only `action` writes, and only to the current socket
  when it reports connected.

`Scenarios` drives the instance from configuration through connection to
an action, and states in its contracts what the transport receives.

Modelling choices:

- The `need_ack` and `recall_advance` dropdown values are the datatype
  `YesNo`.
- Numeric ids are `nat`. `Text.Decimal` renders them as JavaScript does for
  a non-negative integer below 10^21 (the ids the host offers are 1 to 256).
- An empty `host` string stands for a falsy host.

Behaviour that is easy to misread:

- The wire text has the spaces shown above, including the one before `>`
  and the one after `</setup>`.
- `init_tcp` reports WARNING "Connecting" even when no host is set. It then
  creates no socket.
- `destroy` destroys the socket but keeps the reference. It leaves the
  status unchanged.
- The gate in `action` is the transport's own `connected` flag. The
  reported status plays no part in it.

## Model

| member | source | states |
|---|---|---|
| `Wire.CommandOf` | index.js:250-264 | exactly the names `login`, `recall_layout` and `switch_audio` select a command, each its own kind; any other name selects none |
| `Wire.YesNoText` | index.js:98-101 | a flag is written as the dropdown text `Yes` or `No`, and each text belongs to exactly one flag |
| `Wire.LoginBlock` | index.js:248 | the credentials block is literally `<setup version="1" > <username>` user `</username> <password>` pass `</password> <needack>` flag `</needack> </setup> ` |
| `Wire.Body` | index.js:252-262 | after the block, `login` adds nothing, `recall_layout` adds `<recall_layout id="`id`" advance="`advance`" needack="`flag`"/>` and `switch_audio` adds `<audio><connect input_id="`input`" output_id="`output`"/></audio>`; only `login` adds the empty text |
| `Wire.Encode` | index.js:248-262 | a message is the credentials block immediately followed by its command's element |
| `Wire.BuildCommand` | index.js:245-264 | a command exists iff the action name is one of the three; it always starts with the credentials block; for `login` it is exactly that block, with nothing after it; for `recall_layout` it is the block followed by the `recall_layout` element built from the options' id and advance and the configured flag; for `switch_audio` it is the block followed by the `audio` element built from the two option ids; this holds for any user and password, and with `<`-free credentials the command also decodes to the configured user, password and flag and the requested command |
| `Wire.ParseYesNo` | index.js:98-101 | accepts exactly the two dropdown values `Yes`/`No` and returns the value whose text they are |
| `Wire.DecodeHeader` | index.js:248 | a string it accepts is exactly a credentials block followed by the remainder it returns, and the user and password it reads contain no `<` |
| `Wire.DecodeBody` | index.js:252-262 | whatever it accepts is exactly the text the encoder puts after the credentials block for the returned command; a `recall_layout` is accepted only if its `needack` repeats the header flag |
| `Wire.Decode` | index.js:248-262 | every string it accepts is the encoding of the message it returns (the decoder never invents a message) |
| `Wire.HeaderRoundTrip` | index.js:248 | the credentials block followed by any text decodes back to the user, password, flag and that text when user and password have no `<` |
| `Wire.BodyRoundTrip` | index.js:252-262 | the text after the credentials block decodes back to the command it was built from |
| `Wire.RecallBodyRoundTrip` | index.js:256-257 | the `recall_layout` element decodes back to its id and advance value, with `needack` equal to the configured flag |
| `Wire.AudioBodyRoundTrip` | index.js:260-261 | the `audio` element decodes back to its input and output ids |
| `Wire.EncodeDecode` | index.js:248-262 | decoding undoes encoding for every message whose user and password have no `<` |
| `Wire.CredentialsNotEscaped` | index.js:248 | because credentials are not escaped, two different user/password pairs can produce the same credentials block |
| `Wire.RecallLayoutEndsWithConfigAck` | index.js:256-257 | every `recall_layout` command ends with `needack="…"/>` carrying the configured `need_ack` flag, whatever the advance value |
| `Text.Decimal` | index.js:257 | an id is rendered as a non-empty string of digits with a leading zero only for zero |
| `Text.DecimalRoundTrip` | index.js:257 | reading the rendered digits gives back the id |
| `Text.ParseDecimalCanonical` | index.js:261 | every digit string without a leading zero is the rendering of the number it reads as, so ids and their texts correspond one to one |
| `Text.ParseId` | index.js:261 | accepts exactly the strings that are renderings of an id, and returns the id rendered as that string |
| `Connection.Socket.constructor` | index.js:52 | a new transport handle for the configured host and port, not yet connected, not destroyed, nothing written |
| `Connection.Socket.Destroy` | index.js:44-47 | a destroyed handle is no longer connected; what was written stays |
| `Connection.Socket.Send` | index.js:270 | appends exactly the payload to what the handle has received |
| `Connection.Instance.constructor` | index.js:6-16 | a new instance holds the configuration, no socket and no status |
| `Connection.Instance.AtMostOneLive` | index.js:44-52 | under the invariant, the live (created, not destroyed) sockets are at most one, and it is the current socket |
| `Connection.Instance.LiveIsCurrent` | index.js:44-52 | when the current socket is not destroyed, it is exactly the live set |
| `Connection.Instance.InitTcp` | index.js:41-71 | any previous socket is destroyed and dropped; status becomes WARNING "Connecting" in every case; a fresh socket for the configured host and port exists iff the host is non-empty; afterwards the live set is exactly the current socket |
| `Connection.Instance.Init` | index.js:31-39 | start-up has the same effect as `init_tcp`: the old socket is destroyed with its payloads kept, status is WARNING "Connecting", and a fresh socket for the configured host and port exists iff the host is non-empty |
| `Connection.Instance.UpdateConfig` | index.js:18-29 | the old socket is destroyed, the new configuration is stored, and reconnection follows `init_tcp`, leaving at most the one new socket live |
| `Connection.Instance.Destroy` | index.js:129-137 | the current socket is destroyed but its reference, the configuration and the status are kept; no socket stays live |
| `Connection.Instance.OnStatusChange` | index.js:54-56 | the transport's status and message are reported unchanged |
| `Connection.Instance.OnError` | index.js:58-62 | status becomes ERROR with the error's message, and the socket is no longer connected |
| `Connection.Instance.OnConnect` | index.js:64-67 | status becomes OK without a message, and the socket is connected |
| `Connection.Instance.OnData` | index.js:69 | received data changes nothing |
| `Connection.Instance.CanSend` | index.js:269 | the gate holds only when a socket is present and reports connected, and that socket is then the one live socket |
| `Connection.Instance.Action` | index.js:245-276 | the built command is appended once to the current socket's payloads iff a socket exists, it reports connected and the action is known; socket, configuration, status and every other socket stay unchanged |
| `Scenarios.SwitchAudioCommand` | index.js:260-261 | `switch_audio` 3 to 7 for user admin and password secret gives the credentials block followed by `<audio><connect input_id="3" output_id="7"/></audio>` |
| `Scenarios.ActionWhenConnected` | index.js:266-271 | after configuring with a host and connecting, any known action leaves exactly its built command, once, on the socket |
| `Scenarios.SwitchAudioWhenConnected` | index.js:266-271 | after configuring, connecting and sending `switch_audio` 3 to 7, the socket has received exactly the one literal payload `<setup version="1" > <username>admin</username> <password>secret</password> <needack>Yes</needack> </setup> <audio><connect input_id="3" output_id="7"/></audio>` |
| `Scenarios.LoginWithoutHost` | index.js:49-51 | with no host no socket is created, yet the status is WARNING "Connecting" |
| `Scenarios.DroppedAfterError` | index.js:58-62 | after an error the status is ERROR and a following command is not written |
| `Scenarios.UnknownActionWritesNothing` | index.js:250-266 | an unknown action name writes nothing even through an open gate |
| `Scenarios.ReconfigureTwice` | index.js:18-29 | two reconfigurations destroy both earlier sockets and leave the newest live |

## Left out

- Configuration fields, presets and action menus (`config_fields`, `CHOICES_COMMANDS`, `init_presets`, `actions`) are static host metadata. The 1..256 id ranges they declare are not checked by `action`, so ids are any `nat`.
- Text.Decimal: JavaScript numbers are doubles, so from 10^21 up an id is written in exponent notation (`1e+21`) and large ids lose precision; the model writes every `nat` in plain digits, which matches JavaScript only below 10^21.
- The `tcp` library is not part of this model. Connecting, its own reconnect attempts, and close events are not modelled. The event methods set the handle's `connected` flag on `connect` and clear it on `error`, as the transport does before it raises those events. A destroyed handle is assumed never to raise `connect`. `Socket.Destroy` assumes that destroying clears `connected`.
- Connection.Instance.OnError: the source reports the error object itself as the status message; the model reports the error's message text.
- `debug` and `log` output and the host framework plumbing (`instance_skel`) are left out. They have no effect on state.
- Asynchronous delivery of transport events is left out. Each event is one sequential method call.
- Non-integer or negative ids, and configuration values other than the `Yes`/`No` dropdown values, are not modelled. JavaScript would render them as text (for example `undefined`).
