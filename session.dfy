/** The VISS WebSocket session hook (`useVissWebSocket`): the connection
    state, the 20-entry message log and the subscription registry, updated
    by the user's calls and by the four transport callbacks of the socket.

    React's `setState` is taken as an immediate field update. The clock
    (`toLocaleTimeString()`, `Date.now()`) is an input parameter, and
    `JSON.parse`/`JSON.stringify` are the session's `codec`. */
module Session {
  import opened Base
  import opened Json
  import opened MessageLog
  import opened Subscriptions
  import opened Commands

  /** The sub-protocol every session socket asks for. */
  const Protocol: string := "VISS-noenc"

  /** `host:8080`, as the log and the error texts name the server. */
  function Endpoint(host: string): string
  {
    host + ":8080"
  }

  /** The server URL the session opens for a host. */
  function SocketUrl(host: string): (r: string)
    ensures r == "ws://" + Endpoint(host)
    ensures |r| == |host| + 10
  {
    "ws://" + host + ":8080"
  }

  /** The text of the InvalidStateError `send` throws before the socket is open. */
  const StillConnecting: string := "Failed to execute 'send' on 'WebSocket': Still in CONNECTING state."

  /** The `close` code and reason `disconnect` uses. */
  const NormalClosure: nat := 1000
  const UserDisconnected: string := "User disconnected"

  datatype ReadyState = Connecting | Open | Closing | Closed

  /** The browser's WebSocket as far as the session uses it: what was asked
      of it (the frames it transmitted, the close requests) and its state. */
  class Socket {
    const host: string
    const url: string
    const protocol: string
    var readyState: ReadyState
    var sent: seq<string>
    var closeRequests: seq<(nat, string)>

    /** `new WebSocket("ws://host:8080", "VISS-noenc")`. */
    constructor (host: string)
      ensures this.host == host && url == SocketUrl(host) && protocol == Protocol
      ensures readyState == Connecting && sent == [] && closeRequests == []
    {
      this.host := host;
      url := SocketUrl(host);
      protocol := Protocol;
      readyState := Connecting;
      sent := [];
      closeRequests := [];
    }

    /** `send(text)`: throws (`ok` false) while still connecting; an open
        socket transmits the text; a closing or closed one drops it without
        throwing. */
    method Send(text: string) returns (ok: bool)
      modifies this`sent
      ensures ok == (readyState != Connecting)
      ensures sent == if readyState == Open then old(sent) + [text] else old(sent)
    {
      ok := readyState != Connecting;
      if readyState == Open {
        sent := sent + [text];
      }
    }

    /** `close(code, reason)`: starts the closing handshake unless one is
        already under way or done, in which case it does nothing. */
    method Close(code: nat, reason: string)
      modifies this`readyState, this`closeRequests
      ensures old(readyState) in {Closing, Closed} ==>
        readyState == old(readyState) && closeRequests == old(closeRequests)
      ensures old(readyState) in {Connecting, Open} ==>
        readyState == Closing && closeRequests == old(closeRequests) + [(code, reason)]
    {
      if readyState == Connecting || readyState == Open {
        readyState := Closing;
        closeRequests := closeRequests + [(code, reason)];
      }
    }
  }

  /** The state the hook holds and the handle of its current socket. */
  class VissSession {
    const codec: Codec
    var hostIP: string
    var isConnected: bool
    var isConnecting: bool
    var connectionError: Option<string>
    var messages: seq<Message>
    var subscriptions: Registry
    var socket: Socket?

    /** Kept by every operation: the log is bounded and the registry is a
        Map of truthy ids. */
    predicate Valid()
      reads this
    {
      |messages| <= Capacity && ValidRegistry(subscriptions)
    }

    /** The initial state of the hook. */
    constructor (codec: Codec)
      ensures Valid() && this.codec == codec
      ensures hostIP == "127.0.0.1" && !isConnected && !isConnecting
      ensures connectionError == None && messages == [] && subscriptions == [] && socket == null
    {
      this.codec := codec;
      hostIP := "127.0.0.1";
      isConnected := false;
      isConnecting := false;
      connectionError := None;
      messages := [];
      subscriptions := [];
      socket := null;
    }

    /** `addMessage(type, content)`, stamped with `time`. */
    method AddMessage(kind: MessageType, content: string, time: string)
      requires Valid()
      modifies this`messages
      ensures Valid()
      ensures messages == Append(old(messages), Message(kind, content, time))
    {
      messages := Append(messages, Message(kind, content, time));
    }

    /** `connectToHost(host)`. A blank host only sets the error. Otherwise
        the session is connecting to `host`, and either the socket opens
        (it becomes the current one, not yet open) or its constructor
        throws `openFailure`, which is set as the error and logged. */
    method ConnectToHost(host: string, openFailure: Option<string>, time: string)
      requires Valid()
      modifies this`hostIP, this`isConnecting, this`connectionError, this`messages, this`socket
      ensures Valid()
      ensures isConnected == old(isConnected) && subscriptions == old(subscriptions)
      ensures IsBlank(host) ==>
        && connectionError == Some("Please enter a host IP address")
        && hostIP == old(hostIP) && isConnecting == old(isConnecting)
        && messages == old(messages) && socket == old(socket)
      ensures !IsBlank(host) ==> hostIP == host
      ensures !IsBlank(host) && openFailure.None? ==>
        && isConnecting && connectionError == None && messages == old(messages)
        && socket != null && fresh(socket)
        && socket.host == host && socket.url == SocketUrl(host) && socket.protocol == Protocol
        && socket.readyState == Connecting && socket.sent == [] && socket.closeRequests == []
      ensures !IsBlank(host) && openFailure.Some? ==>
        && !isConnecting && socket == old(socket)
        && connectionError == Some("Connection error: " + openFailure.value)
        && messages == Append(old(messages), Message(Error, "Connection error: " + openFailure.value, time))
    {
      if IsBlank(host) {
        connectionError := Some("Please enter a host IP address");
        return;
      }
      StartConnect(host, openFailure, time);
    }

    /** `connectToHost` past the blank-host guard: record the host and open
        a socket to it, or log the constructor's failure. */
    method StartConnect(host: string, openFailure: Option<string>, time: string)
      requires Valid()
      modifies this`hostIP, this`isConnecting, this`connectionError, this`messages, this`socket
      ensures Valid() && hostIP == host
      ensures openFailure.None? ==>
        && isConnecting && connectionError == None && messages == old(messages)
        && socket != null && fresh(socket)
        && socket.host == host && socket.url == SocketUrl(host) && socket.protocol == Protocol
        && socket.readyState == Connecting && socket.sent == [] && socket.closeRequests == []
      ensures openFailure.Some? ==>
        && !isConnecting && socket == old(socket)
        && connectionError == Some("Connection error: " + openFailure.value)
        && messages == Append(old(messages), Message(Error, "Connection error: " + openFailure.value, time))
    {
      isConnecting := true;
      connectionError := None;
      hostIP := host;
      if openFailure.Some? {
        OpenFailed(openFailure.value, time);
      } else {
        var s := new Socket(host);
        socket := s;
      }
    }

    /** The `catch` of `connectToHost`: the socket constructor threw. */
    method OpenFailed(message: string, time: string)
      requires Valid()
      modifies this`isConnecting, this`connectionError, this`messages
      ensures Valid() && !isConnecting
      ensures connectionError == Some("Connection error: " + message)
      ensures messages == Append(old(messages), Message(Error, "Connection error: " + message, time))
    {
      isConnecting := false;
      connectionError := Some("Connection error: " + message);
      AddMessage(Error, "Connection error: " + message, time);
    }

    /** `onopen` of the socket `from`: the browser has opened it. */
    method OnOpen(from: Socket, time: string)
      requires Valid()
      modifies this, from`readyState
      ensures Valid() && from.readyState == Open
      ensures isConnected && !isConnecting
      ensures messages == Append(old(messages), Message(System, "Connected to " + Endpoint(from.host), time))
      ensures hostIP == old(hostIP) && connectionError == old(connectionError)
      ensures subscriptions == old(subscriptions) && socket == old(socket)
    {
      from.readyState := Open;
      isConnected := true;
      isConnecting := false;
      AddMessage(System, "Connected to " + Endpoint(from.host), time);
    }

    /** `onmessage` with the frame text `data`: the text is always logged;
        a frame that parses is offered to the registry, which takes it only
        when it confirms a subscription. */
    method OnMessage(data: string, time: string)
      requires Valid()
      modifies this`messages, this`subscriptions
      ensures Valid()
      ensures messages == Append(old(messages), Message(Received, data, time))
      ensures subscriptions == match ParseJson(codec, data)
        case Ok(frame) => Track(old(subscriptions), frame, time)
        case Err(_) => old(subscriptions)
    {
      AddMessage(Received, data, time);
      var parsed := ParseJson(codec, data);
      if parsed.Ok? {
        subscriptions := Track(subscriptions, parsed.value, time);
      }
    }

    /** `onclose` of the socket `from`, whichever socket is current. */
    method OnClose(from: Socket, wasClean: bool, code: nat, reason: string, time: string)
      requires Valid()
      modifies this, from`readyState
      ensures Valid() && from.readyState == Closed
      ensures !isConnected && !isConnecting && socket == null
      ensures messages == Append(old(messages), CloseMessage(wasClean, code, reason, time))
      ensures hostIP == old(hostIP) && connectionError == old(connectionError)
      ensures subscriptions == old(subscriptions)
    {
      from.readyState := Closed;
      isConnected := false;
      isConnecting := false;
      socket := null;
      if wasClean {
        AddMessage(System, "Connection closed", time);
      } else {
        AddMessage(Error, "Connection lost: " + NatToString(code) + " " + (if reason == "" then "Unknown error" else reason), time);
      }
    }

    /** `onerror` of the socket `from`; the connection flag is left to
        `onclose`. */
    method OnError(from: Socket, time: string)
      requires Valid()
      modifies this`isConnecting, this`connectionError, this`messages
      ensures Valid() && !isConnecting
      ensures connectionError == Some("Failed to connect to " + Endpoint(from.host))
      ensures messages == Append(old(messages), Message(Error, "Connection error to " + Endpoint(from.host), time))
    {
      isConnecting := false;
      connectionError := Some("Failed to connect to " + Endpoint(from.host));
      AddMessage(Error, "Connection error to " + Endpoint(from.host), time);
    }

    /** `disconnect()`: closes the current socket, if any, with 1000 "User
        disconnected", and forgets it and every subscription; logs nothing. */
    method Disconnect()
      requires Valid()
      modifies this`socket, this`isConnected, this`subscriptions, socket
      ensures Valid()
      ensures socket == null && !isConnected && subscriptions == []
      ensures old(socket) != null ==>
        && old(socket.readyState) in {Connecting, Open} ==>
             old(socket).readyState == Closing &&
             old(socket).closeRequests == old(socket.closeRequests) + [(NormalClosure, UserDisconnected)]
      ensures old(socket) != null ==> old(socket).sent == old(socket.sent)
      ensures old(socket) != null && old(socket.readyState) in {Closing, Closed} ==>
        old(socket).readyState == old(socket.readyState) && old(socket).closeRequests == old(socket.closeRequests)
    {
      if socket != null {
        socket.Close(NormalClosure, UserDisconnected);
        socket := null;
      }
      isConnected := false;
      subscriptions := [];
    }

    /** `sendMessage(message)`: refuses, with one error entry and nothing
        transmitted, when not connected, when the text is blank, when it is
        not JSON or when the socket throws; otherwise hands the text to the
        socket and logs it as sent. */
    method SendMessage(message: string, time: string) returns (ok: bool)
      requires Valid()
      modifies this`messages, socket
      ensures Valid() && socket == old(socket)
      ensures socket != null ==> socket.readyState == old(socket.readyState) && socket.closeRequests == old(socket.closeRequests)
      ensures ok <==> SendAccepted(isConnected, socket != null && old(socket.readyState) != Connecting, codec, message)
      ensures ok ==> messages == Append(old(messages), Message(Sent, message, time))
      ensures ok ==> socket.sent == if socket.readyState == Open then old(socket.sent) + [message] else old(socket.sent)
      ensures !ok ==> messages == Append(old(messages), Message(Error, SendError(isConnected && socket != null, codec, message), time))
      ensures !ok && socket != null ==> socket.sent == old(socket.sent)
    {
      if !isConnected || socket == null {
        AddMessage(Error, "Not connected to server", time);
        return false;
      }
      if IsBlank(message) {
        AddMessage(Error, "Cannot send empty message", time);
        return false;
      }
      var parsed := ParseJson(codec, message);
      if parsed.Err? {
        AddMessage(Error, "Invalid JSON: " + parsed.error, time);
        return false;
      }
      ok := socket.Send(message);
      if !ok {
        AddMessage(Error, "Invalid JSON: " + StillConnecting, time);
        return;
      }
      AddMessage(Sent, message, time);
    }

    /** `sendCommand(command)`: the command's JSON text, sent as a message. */
    method SendCommand(command: Json, time: string) returns (ok: bool)
      requires Valid()
      modifies this`messages, socket
      ensures Valid() && socket == old(socket)
      ensures socket != null ==> socket.readyState == old(socket.readyState) && socket.closeRequests == old(socket.closeRequests)
      ensures ok <==> SendAccepted(isConnected, socket != null && old(socket.readyState) != Connecting, codec, codec.stringify(command))
      ensures ok ==> messages == Append(old(messages), Message(Sent, codec.stringify(command), time))
      ensures !ok ==> messages == Append(old(messages), Message(Error, SendError(isConnected && socket != null, codec, codec.stringify(command)), time))
      ensures ok ==> socket.sent == if socket.readyState == Open then old(socket.sent) + [codec.stringify(command)] else old(socket.sent)
      ensures !ok && socket != null ==> socket.sent == old(socket.sent)
    {
      ok := SendMessage(codec.stringify(command), time);
    }

    /** `clearMessages()`. */
    method ClearMessages()
      requires Valid()
      modifies this`messages
      ensures Valid() && messages == []
    {
      messages := [];
    }

    /** `unsubscribeFromId(id)`: sends an unsubscribe for `id`, stamped with
        `stamp`, and forgets the subscription only when the send went through. */
    method UnsubscribeFromId(id: Json, stamp: string, time: string) returns (ok: bool)
      requires Valid()
      modifies this`messages, this`subscriptions, socket
      ensures Valid() && socket == old(socket)
      ensures socket != null ==> socket.readyState == old(socket.readyState) && socket.closeRequests == old(socket.closeRequests)
      ensures ok <==> SendAccepted(isConnected, socket != null && old(socket.readyState) != Connecting,
                                   codec, codec.stringify(BuildUnsubscribe(id, NoOptions, stamp)))
      ensures subscriptions == if ok then Remove(old(subscriptions), id) else old(subscriptions)
      ensures var text := codec.stringify(BuildUnsubscribe(id, NoOptions, stamp));
        && (ok ==> messages == Append(old(messages), Message(Sent, text, time)))
        && (!ok ==> messages == Append(old(messages), Message(Error, SendError(isConnected && socket != null, codec, text), time)))
        && (ok ==> socket.sent == if socket.readyState == Open then old(socket.sent) + [text] else old(socket.sent))
        && (!ok && socket != null ==> socket.sent == old(socket.sent))
    {
      var command := BuildUnsubscribe(id, NoOptions, stamp);
      ok := SendCommand(command, time);
      if ok {
        subscriptions := Remove(subscriptions, id);
      }
    }

    /** `setHost(newHost)`. */
    method SetHost(newHost: string)
      requires Valid()
      modifies this`hostIP
      ensures Valid() && hostIP == newHost
    {
      hostIP := newHost;
    }
  }

  /** The entry `onclose` logs. */
  function CloseMessage(wasClean: bool, code: nat, reason: string, time: string): Message
  {
    if wasClean then Message(System, "Connection closed", time)
    else Message(Error, "Connection lost: " + NatToString(code) + " " + (if reason == "" then "Unknown error" else reason), time)
  }

  /** When `sendMessage` transmits: connected to a socket that is past
      connecting, with text that is not blank and parses. */
  predicate SendAccepted(connected: bool, socketReady: bool, codec: Codec, message: string)
  {
    connected && socketReady && !IsBlank(message) && ParseJson(codec, message).Ok?
  }

  /** The error `sendMessage` logs when it refuses `message`. */
  function SendError(hasSocket: bool, codec: Codec, message: string): string
  {
    if !hasSocket then "Not connected to server"
    else if IsBlank(message) then "Cannot send empty message"
    else match ParseJson(codec, message)
      case Err(e) => "Invalid JSON: " + e
      case Ok(_) => "Invalid JSON: " + StillConnecting
  }
}
