// src/Client.cpp: the object of one connection, updated in place.
module ClientObject {
  import opened Results
  import opened IrcCasemap
  import opened Framing
  import opened ServerState
  import opened Primitives
  import opened Membership
  import opened Connection

  datatype LineReadStatus = LINE_INCOMPLETE | LINE_COMPLETE | LINE_TOO_LONG

  /** Position of the first LF from `start` on, or the length when there is none. */
  method FindLF(text: string) returns (position: nat)
    ensures position == FirstLF(text)
  {
    position := 0;
    assert text[0..] == text;
    while position < |text| && text[position] != '\n'
      invariant position <= |text|
      invariant position + FirstLF(text[position..]) == FirstLF(text)
    {
      assert text[position..][1..] == text[position + 1..];
      position := position + 1;
    }
  }

  class Client {
    const socketFd: int
    const host: string
    var inputBuffer: string
    var outputBuffer: string
    var nickname: string
    var username: string
    var realname: string
    var passwordAccepted: bool
    var nicknameReceived: bool
    var usernameReceived: bool
    var registered: bool
    var joinedChannels: set<string>
    var disconnectRequested: bool
    var disconnectReason: string
    /** The lines taken so far: a record, which also numbers the bot's possible answers. */
    var lines: seq<string>
    ghost var offered: string
    ghost var welcomes: nat
    ghost var marks: map<string, Mark>
    ghost var received: string
    ghost var accepted: seq<Delivery>
    ghost var sent: string

    /** The client as a value, with the records that only the properties speak of. */
    ghost function View(): User
      reads this
    {
      User(
        Account(host, nickname, username, realname, passwordAccepted, nicknameReceived, usernameReceived,
                registered, offered, welcomes),
        joinedChannels, marks, inputBuffer, received, lines,
        Output(outputBuffer, disconnectRequested, disconnectReason, accepted, sent))
    }

    constructor (socketFd: int, host: string)
      ensures this.socketFd == socketFd && View() == NewUser(host)
    {
      this.socketFd := socketFd;
      this.host := host;
      inputBuffer, outputBuffer := "", "";
      nickname, username, realname := "", "", "";
      passwordAccepted, nicknameReceived, usernameReceived, registered := false, false, false, false;
      joinedChannels := {};
      disconnectRequested, disconnectReason := false, "";
      offered, welcomes, marks, received, lines, accepted, sent := "", 0, map[], "", [], [], "";
    }

    predicate IsVirtual() {
      socketFd < 0
    }

    predicate IsReadyToRegister()
      reads this
    {
      passwordAccepted && nicknameReceived && usernameReceived
    }

    method AppendToInputBuffer(data: string)
      modifies this
      ensures View() == old(View()).(inBuffer := old(inputBuffer) + data, received := old(received) + data)
    {
      inputBuffer := inputBuffer + data;
      received := received + data;
    }

    /** Queueing is the only use; `log` says to which channel's history the line belongs. */
    method AppendToOutputBuffer(data: string, ghost log: Option<string>)
      modifies this
      ensures View() == old(View()).(
                          out := old(View()).out.(buffer := old(outputBuffer) + data,
                                                  accepted := old(accepted) + [Delivery(data, log)]))
    {
      outputBuffer := outputBuffer + data;
      accepted := accepted + [Delivery(data, log)];
    }

    /** The first request wins, and an empty reason becomes a generic one. */
    method RequestDisconnect(reason: string)
      modifies this
      ensures View() == old(View()).(out := Request(old(View()).out, reason))
    {
      if disconnectRequested {
        return;
      }
      disconnectRequested := true;
      if reason == "" {
        disconnectReason := "Client disconnected";
        return;
      }
      disconnectReason := reason;
    }

    method RemoveSentOutput(sentByteCount: nat)
      modifies this
      ensures View() == old(View()).(out := SentSome(old(View()).out, Min(sentByteCount, |old(outputBuffer)|)))
    {
      if sentByteCount >= |outputBuffer| {
        sent := sent + outputBuffer;
        assert outputBuffer[..|outputBuffer|] == outputBuffer;
        outputBuffer := "";
        return;
      }
      sent := sent + outputBuffer[..sentByteCount];
      outputBuffer := outputBuffer[sentByteCount..];
    }

    method JoinChannel(channelName: string)
      modifies this
      ensures View() == JoinedTo(old(View()), Normalize(channelName))
    {
      var key := NormalizeCopy(channelName);
      joinedChannels := joinedChannels + {key};
    }

    method LeaveChannel(channelName: string)
      modifies this
      ensures View() == LeftFrom(old(View()), {Normalize(channelName)})
    {
      var key := NormalizeCopy(channelName);
      joinedChannels := joinedChannels - {key};
      marks := marks - {key};
    }

    /**
     * Take the next line off the input buffer. A complete line is counted as
     * taken unless it is empty; an oversized one is discarded.
     */
    method ExtractNextLine() returns (status: LineReadStatus, completeLine: string)
      modifies this
      ensures match ExtractNext(old(inputBuffer))
              case Incomplete => status == LINE_INCOMPLETE && View() == old(View())
              case TooLong(rest) => status == LINE_TOO_LONG && View() == old(View()).(inBuffer := rest)
              case Complete(line, rest) =>
                && status == LINE_COMPLETE && completeLine == line
                && View() == old(View()).(inBuffer := rest,
                                          lines := old(lines) + if line == "" then [] else [line])
    {
      completeLine := "";
      var newlinePos := FindLF(inputBuffer);
      if newlinePos == |inputBuffer| {
        if |inputBuffer| > MAX_LINE - 1 {
          inputBuffer := "";
          return LINE_TOO_LONG, "";
        }
        return LINE_INCOMPLETE, "";
      }
      var totalLength := newlinePos + 1;
      if totalLength > MAX_LINE {
        inputBuffer := inputBuffer[totalLength..];
        return LINE_TOO_LONG, "";
      }
      var contentLength := newlinePos;
      if contentLength > 0 && inputBuffer[contentLength - 1] == '\r' {
        contentLength := contentLength - 1;
      }
      completeLine := inputBuffer[..contentLength];
      assert completeLine == StripCR(inputBuffer[..newlinePos]);
      inputBuffer := inputBuffer[totalLength..];
      lines := lines + if completeLine == "" then [] else [completeLine];
      return LINE_COMPLETE, completeLine;
    }
  }
}
