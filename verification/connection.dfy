/** The module instance's socket lifecycle and send gate. The `tcp`
    transport is abstract: a `Socket` records whether it is connected,
    whether it has been destroyed and what has been written to it, and
    those flags change only through the transport events modelled below. */
module Connection {
  import opened Wrappers
  import opened Wire

  /** The host application's status levels (`STATE_OK`, `STATE_WARNING`, ...). */
  datatype Level = Ok | Warning | Error | Unknown

  /** A status report: a level and an optional message. */
  datatype Status = Status(level: Level, message: Option<string>)

  const ConnectingStatus := Status(Warning, Some("Connecting"))

  /** One transport handle, created for a host and port. */
  class Socket {
    const host: string
    const port: nat
    var connected: bool
    var destroyed: bool
    var sent: seq<string>

    constructor (host: string, port: nat)
      ensures this.host == host && this.port == port
      ensures !connected && !destroyed && sent == []
    {
      this.host := host;
      this.port := port;
      connected, destroyed, sent := false, false, [];
    }

    /** Closes the transport for good; nothing already written is lost. */
    method Destroy()
      modifies this
      ensures destroyed && !connected && sent == old(sent)
    {
      destroyed, connected := true, false;
    }

    /** Writes one payload to the transport. */
    method Send(payload: string)
      modifies this
      ensures sent == old(sent) + [payload]
      ensures connected == old(connected) && destroyed == old(destroyed)
    {
      sent := sent + [payload];
    }
  }

  /** The module instance: its configuration, its optional socket (`undefined`
      after `delete`), the last status it reported, and, as a ghost, every
      socket it ever created. */
  class Instance {
    var config: Config
    var socket: Option<Socket>
    var status: Option<Status>
    ghost var handles: seq<Socket>

    /** Every socket other than the current one is destroyed, and a
        destroyed socket is never connected. */
    ghost predicate Valid()
      reads this, handles
    {
      (socket.Some? ==> socket.value in handles) &&
      (forall i :: 0 <= i < |handles| ==> handles[i].connected ==> !handles[i].destroyed) &&
      (forall i :: 0 <= i < |handles| && socket != Some(handles[i]) ==> handles[i].destroyed)
    }

    ghost function Current(): set<Socket>
      reads this
    {
      if socket.Some? then {socket.value} else {}
    }

    /** The sockets that have been created and not destroyed. */
    ghost function Live(): set<Socket>
      reads this, handles
    {
      set i | 0 <= i < |handles| && !handles[i].destroyed :: handles[i]
    }

    /** The gate of `action`: a socket is present and reports connected.
        A socket that passes the gate is the one live socket. */
    predicate CanSend()
      requires Valid()
      reads this, handles
      ensures CanSend() ==> socket.Some? && socket.value.connected && Live() == {socket.value}
    {
      if socket.Some? && socket.value.connected then
        LiveIsCurrent();
        true
      else false
    }

    /** At most one socket is live, and it is the current one. */
    lemma AtMostOneLive()
      requires Valid()
      ensures Live() <= Current()
      ensures |Live()| <= 1
    {
      if socket.Some? {
        assert Live() <= {socket.value};
        if socket.value in Live() {
          assert Live() == {socket.value};
        } else {
          assert Live() == {};
        }
      } else {
        assert Live() == {};
      }
    }

    constructor (config: Config)
      ensures Valid()
      ensures this.config == config && socket == None && status == None && handles == []
    {
      this.config := config;
      socket, status := None, None;
      handles := [];
    }

    /** `init_tcp`: destroys and forgets any socket, reports "Connecting"
        and, when a host is configured, creates a fresh socket for it. */
    method InitTcp()
      requires Valid()
      modifies this, Current()
      ensures Valid()
      ensures config == old(config)
      ensures old(socket).Some? ==> old(socket).value.destroyed && old(socket).value.sent == old(socket.value.sent)
      ensures status == Some(ConnectingStatus)
      ensures config.host == "" ==> socket == None && handles == old(handles)
      ensures config.host != "" ==>
        socket.Some? && fresh(socket.value) && handles == old(handles) + [socket.value] &&
        socket.value.host == config.host && socket.value.port == config.port &&
        !socket.value.connected && !socket.value.destroyed && socket.value.sent == []
      ensures Live() == Current()
    {
      if socket.Some? {
        socket.value.Destroy();
        socket := None;
      }
      status := Some(ConnectingStatus);
      if config.host != "" {
        var s := new Socket(config.host, config.port);
        handles := handles + [s];
        socket := Some(s);
      }
      LiveIsCurrent();
    }

    /** After `init_tcp` the current socket, if any, is not destroyed. */
    lemma LiveIsCurrent()
      requires Valid()
      requires socket.Some? ==> !socket.value.destroyed
      ensures Live() == Current()
    {
      AtMostOneLive();
      if socket.Some? {
        var i :| 0 <= i < |handles| && handles[i] == socket.value;
        assert socket.value in Live();
      }
    }

    /** `init`: the host's start-up hook opens the connection. */
    method Init()
      requires Valid()
      modifies this, Current()
      ensures Valid()
      ensures config == old(config)
      ensures old(socket).Some? ==> old(socket).value.destroyed && old(socket).value.sent == old(socket.value.sent)
      ensures status == Some(ConnectingStatus)
      ensures config.host == "" ==> socket == None && handles == old(handles)
      ensures config.host != "" ==>
        socket.Some? && fresh(socket.value) && handles == old(handles) + [socket.value] &&
        socket.value.host == config.host && socket.value.port == config.port &&
        !socket.value.connected && !socket.value.destroyed && socket.value.sent == []
      ensures Live() == Current()
    {
      InitTcp();
    }

    /** `updateConfig`: destroys and forgets the old socket, stores the new
        configuration and reconnects through `init_tcp`. */
    method UpdateConfig(newConfig: Config)
      requires Valid()
      modifies this, Current()
      ensures Valid()
      ensures config == newConfig
      ensures old(socket).Some? ==> old(socket).value.destroyed && old(socket).value.sent == old(socket.value.sent)
      ensures status == Some(ConnectingStatus)
      ensures newConfig.host == "" ==> socket == None && handles == old(handles)
      ensures newConfig.host != "" ==>
        socket.Some? && fresh(socket.value) && handles == old(handles) + [socket.value] &&
        socket.value.host == newConfig.host && socket.value.port == newConfig.port &&
        !socket.value.connected && !socket.value.destroyed && socket.value.sent == []
      ensures Live() == Current()
    {
      if socket.Some? {
        socket.value.Destroy();
        socket := None;
      }
      config := newConfig;
      InitTcp();
    }

    /** `destroy`: destroys the current socket but keeps the reference;
        status and configuration are left alone. */
    method Destroy()
      requires Valid()
      modifies Current()
      ensures Valid()
      ensures socket == old(socket) && config == old(config) && status == old(status) && handles == old(handles)
      ensures socket.Some? ==> socket.value.destroyed && socket.value.sent == old(socket.value.sent)
      ensures Live() == {}
    {
      if socket.Some? {
        socket.value.Destroy();
      }
      AtMostOneLive();
    }

    /** The 'status_change' handler: forwards the transport's status as is. */
    method OnStatusChange(level: Level, message: Option<string>)
      requires Valid()
      modifies this`status
      ensures Valid()
      ensures status == Some(Status(level, message))
    {
      status := Some(Status(level, message));
    }

    /** The 'error' event of socket `h`: the transport drops its connection
        and the handler reports ERROR with the error's message. */
    method OnError(h: Socket, message: string)
      requires Valid() && h in handles
      modifies this`status, h
      ensures Valid()
      ensures status == Some(Status(Error, Some(message)))
      ensures !h.connected && h.destroyed == old(h.destroyed) && h.sent == old(h.sent)
    {
      h.connected := false;
      status := Some(Status(Error, Some(message)));
    }

    /** The 'connect' event of socket `h`: the transport is connected and the
        handler reports OK without a message. A destroyed socket never
        connects. */
    method OnConnect(h: Socket)
      requires Valid() && h in handles && !h.destroyed
      modifies this`status, h
      ensures Valid()
      ensures status == Some(Status(Ok, None))
      ensures h.connected && !h.destroyed && h.sent == old(h.sent)
    {
      h.connected := true;
      status := Some(Status(Ok, None));
    }

    /** The 'data' handler ignores what the device sends. */
    method OnData(h: Socket, data: string)
      requires Valid() && h in handles
      ensures Valid()
      ensures unchanged(this) && unchanged(h)
    {
    }

    /** `action`: builds the command for the request and writes it to the
        socket exactly once when the gate is open; an unknown action, a
        missing socket or a disconnected one writes nothing. Nothing but the
        current socket's written payloads can change. */
    method Action(request: ActionRequest)
      requires Valid()
      modifies Current()
      ensures Valid()
      ensures socket == old(socket) && config == old(config) && status == old(status) && handles == old(handles)
      ensures socket.Some? ==>
        socket.value.connected == old(socket.value.connected) &&
        socket.value.destroyed == old(socket.value.destroyed)
      ensures socket.Some? ==>
        socket.value.sent ==
          if old(CanSend()) && BuildCommand(request, config).Some?
          then old(socket.value.sent) + [BuildCommand(request, config).value]
          else old(socket.value.sent)
    {
      var cmd := BuildCommand(request, config);
      if cmd.Some? {
        if CanSend() {
          socket.value.Send(cmd.value);
        }
      }
    }
  }
}
