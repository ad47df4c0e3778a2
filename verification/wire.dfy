/** The command encoder of the module's `action` handler: every command is
    the credentials block built from the stored configuration, followed by
    the element for the requested action. The text is reproduced exactly,
    spaces included. A decoder is given beside it as the encoder's inverse. */
module Wire {
  import opened Wrappers
  import opened Text

  /** The 'Yes'/'No' dropdown values of `need_ack` and `recall_advance`. */
  datatype YesNo = Yes | No

  /** The stored configuration: an empty `host` is JavaScript's falsy host. */
  datatype Config = Config(host: string, port: nat, needAck: YesNo, user: string, pass: string)

  /** The options an action carries; each action reads only its own. */
  datatype ActionOptions = ActionOptions(
    recallId: nat, recallAdvance: YesNo, switchInputId: nat, switchOutputId: nat)

  /** What the host passes to `action`: the action's name and its options. */
  datatype ActionRequest = ActionRequest(action: string, options: ActionOptions)

  /** The three recognised actions. */
  datatype Command = Login | RecallLayout(id: nat, advance: YesNo) | SwitchAudio(inputId: nat, outputId: nat)

  /** One wire message: the credentials and the command that follows them. */
  datatype Message = Message(user: string, pass: string, needAck: YesNo, command: Command)

  const SetupOpen := "<setup version=\"1\" > <username>"
  const UserClose := "</username> <password>"
  const PassClose := "</password> <needack>"
  const SetupClose := "</needack> </setup> "

  const RecallOpen := "<recall_layout id=\""
  const RecallAdvance := "\" advance=\""
  const RecallNeedAck := "\" needack=\""
  const RecallClose := "\"/>"

  const AudioOpen := "<audio><connect input_id=\""
  const AudioOutput := "\" output_id=\""
  const AudioClose := "\"/></audio>"

  const KnownActions: set<string> := {"login", "recall_layout", "switch_audio"}

  /** The dropdown text of a flag. */
  function YesNoText(v: YesNo): (r: string)
    ensures r == "Yes" <==> v == Yes
    ensures r == "No" <==> v == No
  {
    match v
    case Yes => "Yes"
    case No => "No"
  }

  function ParseYesNo(s: string): (r: Option<YesNo>)
    ensures r.Some? <==> s == "Yes" || s == "No"
    ensures r.Some? ==> YesNoText(r.value) == s
  {
    if s == "Yes" then Some(Yes) else if s == "No" then Some(No) else None
  }

  /** The credentials block every command starts with. */
  function LoginBlock(user: string, pass: string, needAck: YesNo): (r: string)
    ensures r == "<setup version=\"1\" > <username>" + user + "</username> <password>" + pass
      + "</password> <needack>" + YesNoText(needAck) + "</needack> </setup> "
  {
    SetupOpen + user + UserClose + pass + PassClose + YesNoText(needAck) + SetupClose
  }

  /** The text that follows the credentials block for each command. */
  function Body(c: Command, needAck: YesNo): (r: string)
    ensures r == [] <==> c.Login?
    ensures c.RecallLayout? ==>
      r == "<recall_layout id=\"" + Decimal(c.id) + "\" advance=\"" + YesNoText(c.advance)
        + "\" needack=\"" + YesNoText(needAck) + "\"/>"
    ensures c.SwitchAudio? ==>
      r == "<audio><connect input_id=\"" + Decimal(c.inputId) + "\" output_id=\"" + Decimal(c.outputId) + "\"/></audio>"
  {
    match c
    case Login => ""
    case RecallLayout(id, advance) =>
      RecallOpen + Decimal(id) + RecallAdvance + YesNoText(advance) + RecallNeedAck + YesNoText(needAck) + RecallClose
    case SwitchAudio(inputId, outputId) =>
      AudioOpen + Decimal(inputId) + AudioOutput + Decimal(outputId) + AudioClose
  }

  /** A whole message: the credentials block immediately followed by the
      command's element. */
  function Encode(m: Message): (r: string)
    ensures LoginBlock(m.user, m.pass, m.needAck) <= r
    ensures r[|LoginBlock(m.user, m.pass, m.needAck)|..] == Body(m.command, m.needAck)
  {
    LoginBlock(m.user, m.pass, m.needAck) + Body(m.command, m.needAck)
  }

  /** The `switch` of `action`: the command an action name selects, if any. */
  function CommandOf(request: ActionRequest): (r: Option<Command>)
    ensures r.Some? <==> request.action in KnownActions
    ensures r == Some(Login) <==> request.action == "login"
    ensures r.Some? && r.value.RecallLayout? <==> request.action == "recall_layout"
    ensures r.Some? && r.value.SwitchAudio? <==> request.action == "switch_audio"
  {
    var o := request.options;
    if request.action == "login" then Some(Login)
    else if request.action == "recall_layout" then Some(RecallLayout(o.recallId, o.recallAdvance))
    else if request.action == "switch_audio" then Some(SwitchAudio(o.switchInputId, o.switchOutputId))
    else None
  }

  /** `cmd` as `action` builds it from the request and the stored configuration:
      undefined for an unknown action, otherwise a text that starts with the
      credentials block (and for `login` is nothing more) and that decodes back to the configured credentials
      and the requested command whenever the credentials contain no '<'. */
  function BuildCommand(request: ActionRequest, config: Config): (cmd: Option<string>)
    ensures cmd.Some? <==> request.action in KnownActions
    ensures cmd.Some? ==> LoginBlock(config.user, config.pass, config.needAck) <= cmd.value
    ensures request.action == "login" ==> cmd == Some(LoginBlock(config.user, config.pass, config.needAck))
    ensures request.action == "recall_layout" ==>
      cmd == Some(LoginBlock(config.user, config.pass, config.needAck) + RecallOpen + Decimal(request.options.recallId)
        + RecallAdvance + YesNoText(request.options.recallAdvance) + RecallNeedAck + YesNoText(config.needAck) + RecallClose)
    ensures request.action == "switch_audio" ==>
      cmd == Some(LoginBlock(config.user, config.pass, config.needAck) + AudioOpen + Decimal(request.options.switchInputId)
        + AudioOutput + Decimal(request.options.switchOutputId) + AudioClose)
    ensures cmd.Some? && '<' !in config.user && '<' !in config.pass ==>
      Decode(cmd.value) == Some(Message(config.user, config.pass, config.needAck, CommandOf(request).value))
  {
    match CommandOf(request)
    case None => None
    case Some(c) =>
      var m := Message(config.user, config.pass, config.needAck, c);
      assert c == Login ==> Body(c, m.needAck) == [] && Encode(m) == LoginBlock(m.user, m.pass, m.needAck) + [];
      assert LoginBlock(m.user, m.pass, m.needAck) + [] == LoginBlock(m.user, m.pass, m.needAck);
      EncodeFlat(m);
      if '<' !in m.user && '<' !in m.pass then
        EncodeDecode(m);
        Some(Encode(m))
      else Some(Encode(m))
  }

  /** An encoded `recall_layout` or `switch_audio` message, written flat. */
  lemma EncodeFlat(m: Message)
    ensures m.command.RecallLayout? ==>
      Encode(m) == LoginBlock(m.user, m.pass, m.needAck) + RecallOpen + Decimal(m.command.id) + RecallAdvance
        + YesNoText(m.command.advance) + RecallNeedAck + YesNoText(m.needAck) + RecallClose
    ensures m.command.SwitchAudio? ==>
      Encode(m) == LoginBlock(m.user, m.pass, m.needAck) + AudioOpen + Decimal(m.command.inputId)
        + AudioOutput + Decimal(m.command.outputId) + AudioClose
  {
    var login := LoginBlock(m.user, m.pass, m.needAck);
    match m.command
    case Login =>
    case RecallLayout(id, advance) =>
      AppendSeven(login, RecallOpen, Decimal(id), RecallAdvance, YesNoText(advance), RecallNeedAck, YesNoText(m.needAck), RecallClose);
    case SwitchAudio(inputId, outputId) =>
      AppendFive(login, AudioOpen, Decimal(inputId), AudioOutput, Decimal(outputId), AudioClose);
  }

  lemma AppendSeven<T>(x: seq<T>, a: seq<T>, b: seq<T>, c: seq<T>, d: seq<T>, e: seq<T>, f: seq<T>, g: seq<T>)
    ensures x + (a + b + c + d + e + f + g) == x + a + b + c + d + e + f + g
  {
  }

  lemma AppendFive<T>(x: seq<T>, a: seq<T>, b: seq<T>, c: seq<T>, d: seq<T>, e: seq<T>)
    ensures x + (a + b + c + d + e) == x + a + b + c + d + e
  {
  }

  /** The credentials block with the body appended, regrouped to the right. */
  lemma LoginBlockShape(user: string, pass: string, needAck: YesNo, body: string)
    ensures LoginBlock(user, pass, needAck) + body
      == SetupOpen + (user + (UserClose + (pass + (PassClose + (YesNoText(needAck) + (SetupClose + body))))))
  {
    Regroup7(SetupOpen, user, UserClose, pass, PassClose, YesNoText(needAck), SetupClose, body);
  }

  lemma Regroup7<T>(a: seq<T>, b: seq<T>, c: seq<T>, d: seq<T>, e: seq<T>, f: seq<T>, g: seq<T>, h: seq<T>)
    ensures a + b + c + d + e + f + g + h == a + (b + (c + (d + (e + (f + (g + h))))))
  {
  }

  /** Reads the credentials block; returns user, password, acknowledgement
      flag and the text after the block. */
  function DecodeHeader(s: string): (r: Option<(string, string, YesNo, string)>)
    ensures r.Some? ==> s == LoginBlock(r.value.0, r.value.1, r.value.2) + r.value.3
    ensures r.Some? ==> '<' !in r.value.0 && '<' !in r.value.1
  {
    var afterOpen :- StripPrefix(s, SetupOpen);
    var user :- Field(afterOpen, '<', UserClose);
    var pass :- Field(user.1, '<', PassClose);
    var ack :- Field(pass.1, '<', SetupClose);
    var needAck :- ParseYesNo(ack.0);
    LoginBlockShape(user.0, pass.0, needAck, ack.1);
    Some((user.0, pass.0, needAck, ack.1))
  }

  /** Reads the text after the credentials block; a `recall_layout` element
      is accepted only when its `needack` repeats the header's flag. */
  function DecodeBody(body: string, needAck: YesNo): (r: Option<Command>)
    ensures r.Some? ==> Body(r.value, needAck) == body
  {
    if body == [] then Some(Login)
    else if RecallOpen <= body then
      var id :- Field(body[|RecallOpen|..], '"', RecallAdvance);
      var idValue :- ParseId(id.0);
      var advance :- Field(id.1, '"', RecallNeedAck);
      var advanceValue :- ParseYesNo(advance.0);
      var ack :- Field(advance.1, '"', RecallClose);
      var ackValue :- ParseYesNo(ack.0);
      if ack.1 == [] && ackValue == needAck then
        RecallShape(id.0, advance.0, ack.0);
        assert body == RecallOpen + body[|RecallOpen|..];
        assert ack.0 + RecallClose + ack.1 == ack.0 + RecallClose;
        Some(RecallLayout(idValue, advanceValue))
      else None
    else if AudioOpen <= body then
      var input :- Field(body[|AudioOpen|..], '"', AudioOutput);
      var inputValue :- ParseId(input.0);
      var output :- Field(input.1, '"', AudioClose);
      var outputValue :- ParseId(output.0);
      if output.1 == [] then
        AudioShape(input.0, output.0);
        assert body == AudioOpen + body[|AudioOpen|..];
        assert output.0 + AudioClose + output.1 == output.0 + AudioClose;
        Some(SwitchAudio(inputValue, outputValue))
      else None
    else None
  }

  lemma RecallShape(id: string, advance: string, ack: string)
    ensures RecallOpen + id + RecallAdvance + advance + RecallNeedAck + ack + RecallClose
      == RecallOpen + (id + (RecallAdvance + (advance + (RecallNeedAck + (ack + RecallClose)))))
  {
    Regroup6(RecallOpen, id, RecallAdvance, advance, RecallNeedAck, ack, RecallClose);
  }

  lemma AudioShape(input: string, output: string)
    ensures AudioOpen + input + AudioOutput + output + AudioClose
      == AudioOpen + (input + (AudioOutput + (output + AudioClose)))
  {
    Regroup4(AudioOpen, input, AudioOutput, output, AudioClose);
  }

  lemma Regroup6<T>(a: seq<T>, b: seq<T>, c: seq<T>, d: seq<T>, e: seq<T>, f: seq<T>, g: seq<T>)
    ensures a + b + c + d + e + f + g == a + (b + (c + (d + (e + (f + g)))))
  {
  }

  lemma Regroup4<T>(a: seq<T>, b: seq<T>, c: seq<T>, d: seq<T>, e: seq<T>)
    ensures a + b + c + d + e == a + (b + (c + (d + e)))
  {
  }

  /** Reads a whole wire message. */
  function Decode(s: string): (r: Option<Message>)
    ensures r.Some? ==> Encode(r.value) == s
    ensures r.Some? ==> '<' !in r.value.user && '<' !in r.value.pass
  {
    var header :- DecodeHeader(s);
    var command :- DecodeBody(header.3, header.2);
    Some(Message(header.0, header.1, header.2, command))
  }

  lemma HeaderRoundTrip(user: string, pass: string, needAck: YesNo, body: string)
    requires '<' !in user && '<' !in pass
    ensures DecodeHeader(LoginBlock(user, pass, needAck) + body) == Some((user, pass, needAck, body))
  {
    var ack := YesNoText(needAck);
    var t2 := ack + (SetupClose + body);
    var t1 := pass + (PassClose + t2);
    var t0 := user + (UserClose + t1);
    LoginBlockShape(user, pass, needAck, body);
    StripPrefixOf(SetupOpen, t0);
    FieldOf(user, UserClose, t1, '<');
    FieldOf(pass, PassClose, t2, '<');
    FieldOf(ack, SetupClose, body, '<');
  }

  lemma BodyRoundTrip(c: Command, needAck: YesNo)
    ensures DecodeBody(Body(c, needAck), needAck) == Some(c)
  {
    match c
    case Login =>
    case RecallLayout(id, advance) => RecallBodyRoundTrip(id, advance, needAck);
    case SwitchAudio(inputId, outputId) => AudioBodyRoundTrip(inputId, outputId, needAck);
  }

  lemma NoQuoteInDecimal(n: nat)
    ensures '"' !in Decimal(n)
  {
  }

  lemma RecallBodyRoundTrip(id: nat, advance: YesNo, needAck: YesNo)
    ensures DecodeBody(Body(RecallLayout(id, advance), needAck), needAck) == Some(RecallLayout(id, advance))
  {
    var idText, advText, ackText := Decimal(id), YesNoText(advance), YesNoText(needAck);
    var t1 := advText + (RecallNeedAck + (ackText + RecallClose));
    var t0 := idText + (RecallAdvance + t1);
    var body := Body(RecallLayout(id, advance), needAck);
    RecallShape(idText, advText, ackText);
    assert body == RecallOpen + t0;
    StripPrefixOf(RecallOpen, t0);
    assert body != [] && RecallOpen <= body && body[|RecallOpen|..] == t0;
    NoQuoteInDecimal(id);
    FieldOf(idText, RecallAdvance, t1, '"');
    ParseIdOfDecimal(id);
    FieldOf(advText, RecallNeedAck, ackText + RecallClose, '"');
    FieldAtEnd(ackText, RecallClose, '"');
    assert ParseYesNo(advText) == Some(advance);
    assert ParseYesNo(ackText) == Some(needAck);
  }

  lemma AudioBodyRoundTrip(inputId: nat, outputId: nat, needAck: YesNo)
    ensures DecodeBody(Body(SwitchAudio(inputId, outputId), needAck), needAck) == Some(SwitchAudio(inputId, outputId))
  {
    var inText, outText := Decimal(inputId), Decimal(outputId);
    var t0 := inText + (AudioOutput + (outText + AudioClose));
    var body := Body(SwitchAudio(inputId, outputId), needAck);
    AudioShape(inText, outText);
    assert body == AudioOpen + t0;
    StripPrefixOf(AudioOpen, t0);
    assert AudioOpen <= body && body[|AudioOpen|..] == t0;
    assert body[1] == AudioOpen[1] != RecallOpen[1];
    NoQuoteInDecimal(inputId);
    NoQuoteInDecimal(outputId);
    FieldOf(inText, AudioOutput, outText + AudioClose, '"');
    ParseIdOfDecimal(inputId);
    FieldAtEnd(outText, AudioClose, '"');
    ParseIdOfDecimal(outputId);
  }

  /** Decoding undoes encoding whenever the credentials contain no '<'. */
  lemma EncodeDecode(m: Message)
    requires '<' !in m.user && '<' !in m.pass
    ensures Decode(Encode(m)) == Some(m)
  {
    HeaderRoundTrip(m.user, m.pass, m.needAck, Body(m.command, m.needAck));
    BodyRoundTrip(m.command, m.needAck);
  }

  /** The credentials are embedded without escaping: a user name holding the
      closing tags and a password holding them give the same wire text. */
  lemma CredentialsNotEscaped(x: string, y: string, z: string, needAck: YesNo)
    ensures x + UserClose + y != x
    ensures LoginBlock(x + UserClose + y, z, needAck) == LoginBlock(x, y + UserClose + z, needAck)
  {
    assert |x + UserClose + y| > |x|;
    MoveClosingTags(SetupOpen, x, UserClose, y, z, PassClose, YesNoText(needAck), SetupClose);
  }

  lemma MoveClosingTags<T>(o: seq<T>, x: seq<T>, u: seq<T>, y: seq<T>, z: seq<T>, p: seq<T>, k: seq<T>, c: seq<T>)
    ensures o + (x + u + y) + u + z + p + k + c == o + x + u + (y + u + z) + p + k + c
  {
  }

  /** Every `recall_layout` command ends with the configured `need_ack` flag,
      whatever its `advance` value. */
  lemma RecallLayoutEndsWithConfigAck(request: ActionRequest, config: Config)
    requires request.action == "recall_layout"
    ensures var cmd := BuildCommand(request, config).value;
      var tail := RecallNeedAck + YesNoText(config.needAck) + RecallClose;
      |tail| <= |cmd| && cmd[|cmd| - |tail|..] == tail
  {
    var o := request.options;
    var m := Message(config.user, config.pass, config.needAck, RecallLayout(o.recallId, o.recallAdvance));
    assert BuildCommand(request, config) == Some(Encode(m));
    var login := LoginBlock(config.user, config.pass, config.needAck);
    var ack := YesNoText(config.needAck);
    var front := login + RecallOpen + Decimal(o.recallId) + RecallAdvance + YesNoText(o.recallAdvance);
    var tail := RecallNeedAck + ack + RecallClose;
    SplitTail(login, RecallOpen, Decimal(o.recallId), RecallAdvance, YesNoText(o.recallAdvance), RecallNeedAck, ack, RecallClose);
    assert Encode(m) == front + tail;
    assert (front + tail)[|front + tail| - |tail|..] == tail;
  }

  lemma SplitTail<T>(x: seq<T>, a: seq<T>, b: seq<T>, c: seq<T>, d: seq<T>, e: seq<T>, f: seq<T>, g: seq<T>)
    ensures x + (a + b + c + d + e + f + g) == (x + a + b + c + d) + (e + f + g)
  {
  }
}
