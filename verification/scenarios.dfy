/** The module instance driven from configuration through connection to an
    action; the contracts state what the transport receives, proved from the
    contracts of the instance's methods. */
module Scenarios {
  import opened Wrappers
  import opened Text
  import opened Wire
  import opened Connection

  const AdminConfig := Config("10.0.0.5", 6464, Yes, "admin", "secret")

  /** Configured with a host and connected, any known action writes
      exactly the command built for it, once. */
  method ActionWhenConnected(request: ActionRequest) returns (written: seq<string>)
    requires request.action in KnownActions
    ensures written == [BuildCommand(request, AdminConfig).value]
  {
    var instance := new Instance(AdminConfig);
    instance.Init();
    var h := instance.socket.value;
    instance.OnConnect(h);
    instance.Action(request);
    written := h.sent;
  }

  /** Configured with a host, connected, then `switch_audio` 3 to 7: the
      socket receives exactly one payload, the credentials block for admin
      and secret followed by the audio element for input 3 and output 7. */
  method SwitchAudioWhenConnected() returns (written: seq<string>)
    ensures written == ["<setup version=\"1\" > <username>admin</username> <password>secret</password> <needack>Yes</needack> </setup> <audio><connect input_id=\"3\" output_id=\"7\"/></audio>"]
  {
    var request := ActionRequest("switch_audio", ActionOptions(1, No, 3, 7));
    written := ActionWhenConnected(request);
    SwitchAudioCommand(request);
  }

  lemma SwitchAudioCommand(request: ActionRequest)
    requires request == ActionRequest("switch_audio", ActionOptions(1, No, 3, 7))
    ensures BuildCommand(request, AdminConfig) == Some("<setup version=\"1\" > <username>admin</username> <password>secret</password> <needack>Yes</needack> </setup> <audio><connect input_id=\"3\" output_id=\"7\"/></audio>")
  {
    assert Decimal(3) == "3" && Decimal(7) == "7";
    PayloadStep1();
    PayloadStep2();
    PayloadStep3();
    PayloadStep4();
    PayloadStep5();
    PayloadStep6();
    PayloadStep7();
    PayloadStep8();
    PayloadStep9();
    PayloadStep10();
    PayloadStep11();
  }

  // The expected payload, assembled one piece at a time.

  lemma PayloadStep1()
    ensures "<setup version=\"1\" > <username>" + "admin"
      == "<setup version=\"1\" > <username>admin"
  {
  }

  lemma PayloadStep2()
    ensures "<setup version=\"1\" > <username>admin" + "</username> <password>"
      == "<setup version=\"1\" > <username>admin</username> <password>"
  {
  }

  lemma PayloadStep3()
    ensures "<setup version=\"1\" > <username>admin</username> <password>" + "secret"
      == "<setup version=\"1\" > <username>admin</username> <password>secret"
  {
  }

  lemma PayloadStep4()
    ensures "<setup version=\"1\" > <username>admin</username> <password>secret" + "</password> <needack>"
      == "<setup version=\"1\" > <username>admin</username> <password>secret</password> <needack>"
  {
  }

  lemma PayloadStep5()
    ensures "<setup version=\"1\" > <username>admin</username> <password>secret</password> <needack>" + "Yes"
      == "<setup version=\"1\" > <username>admin</username> <password>secret</password> <needack>Yes"
  {
  }

  lemma PayloadStep6()
    ensures "<setup version=\"1\" > <username>admin</username> <password>secret</password> <needack>Yes" + "</needack> </setup> "
      == "<setup version=\"1\" > <username>admin</username> <password>secret</password> <needack>Yes</needack> </setup> "
  {
  }

  lemma PayloadStep7()
    ensures "<setup version=\"1\" > <username>admin</username> <password>secret</password> <needack>Yes</needack> </setup> " + "<audio><connect input_id=\""
      == "<setup version=\"1\" > <username>admin</username> <password>secret</password> <needack>Yes</needack> </setup> <audio><connect input_id=\""
  {
  }

  lemma PayloadStep8()
    ensures "<setup version=\"1\" > <username>admin</username> <password>secret</password> <needack>Yes</needack> </setup> <audio><connect input_id=\"" + "3"
      == "<setup version=\"1\" > <username>admin</username> <password>secret</password> <needack>Yes</needack> </setup> <audio><connect input_id=\"3"
  {
  }

  lemma PayloadStep9()
    ensures "<setup version=\"1\" > <username>admin</username> <password>secret</password> <needack>Yes</needack> </setup> <audio><connect input_id=\"3" + "\" output_id=\""
      == "<setup version=\"1\" > <username>admin</username> <password>secret</password> <needack>Yes</needack> </setup> <audio><connect input_id=\"3\" output_id=\""
  {
  }

  lemma PayloadStep10()
    ensures "<setup version=\"1\" > <username>admin</username> <password>secret</password> <needack>Yes</needack> </setup> <audio><connect input_id=\"3\" output_id=\"" + "7"
      == "<setup version=\"1\" > <username>admin</username> <password>secret</password> <needack>Yes</needack> </setup> <audio><connect input_id=\"3\" output_id=\"7"
  {
  }

  lemma PayloadStep11()
    ensures "<setup version=\"1\" > <username>admin</username> <password>secret</password> <needack>Yes</needack> </setup> <audio><connect input_id=\"3\" output_id=\"7" + "\"/></audio>"
      == "<setup version=\"1\" > <username>admin</username> <password>secret</password> <needack>Yes</needack> </setup> <audio><connect input_id=\"3\" output_id=\"7\"/></audio>"
  {
  }

  /** Without a host no socket is created, the status is still WARNING
      "Connecting", and a `login` action has nowhere to go. */
  method LoginWithoutHost() returns (hasSocket: bool, status: Option<Status>)
    ensures !hasSocket
    ensures status == Some(Status(Warning, Some("Connecting")))
  {
    var instance := new Instance(Config("", 6464, Yes, "admin", "secret"));
    instance.Init();
    instance.Action(ActionRequest("login", ActionOptions(1, No, 1, 1)));
    hasSocket, status := instance.socket.Some?, instance.status;
  }

  /** An error after connecting reports ERROR and the next command is dropped. */
  method DroppedAfterError() returns (written: seq<string>, status: Option<Status>)
    ensures written == []
    ensures status == Some(Status(Error, Some("ECONNRESET")))
  {
    var instance := new Instance(AdminConfig);
    instance.Init();
    var h := instance.socket.value;
    instance.OnConnect(h);
    instance.OnError(h, "ECONNRESET");
    instance.Action(ActionRequest("login", ActionOptions(1, No, 1, 1)));
    written, status := h.sent, instance.status;
  }

  /** An unknown action name writes nothing, even through an open gate. */
  method UnknownActionWritesNothing(name: string) returns (written: seq<string>)
    requires name !in KnownActions
    ensures written == []
  {
    var instance := new Instance(AdminConfig);
    instance.Init();
    var h := instance.socket.value;
    instance.OnConnect(h);
    instance.Action(ActionRequest(name, ActionOptions(1, No, 1, 1)));
    written := h.sent;
  }

  /** Reconfiguring twice destroys both earlier sockets and leaves one live. */
  method ReconfigureTwice() returns (firstDestroyed: bool, secondDestroyed: bool, lastLive: bool)
    ensures firstDestroyed && secondDestroyed && lastLive
  {
    var instance := new Instance(AdminConfig);
    instance.Init();
    var first := instance.socket.value;
    instance.UpdateConfig(Config("10.0.0.6", 6464, No, "admin", "secret"));
    var second := instance.socket.value;
    instance.UpdateConfig(Config("10.0.0.7", 6464, No, "admin", "secret"));
    var last := instance.socket.value;
    firstDestroyed, secondDestroyed, lastLive := first.destroyed, second.destroyed, !last.destroyed;
  }
}
