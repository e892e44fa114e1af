/**
 * The server of core/ServerManager.java as objects: the ServerManager with its
 * running flag and its list of connected terminals, and the per-terminal
 * FSClient whose run loop speaks the protocol of module Protocol.
 *
 * Sockets, threads, the clock, random numbers and the database are not
 * objects here: what they would supply comes in as parameters.
 */
module Server {
  import opened Wrappers
  import opened Protocol

  /** The number of characters in a generated client name. */
  const NameLength: nat := 8

  /** Why stopServer throws. */
  datatype StopError = NotRunning

  /** The position of the first element equal to x. */
  function IndexOf<T(==)>(s: seq<T>, x: T): (k: nat)
    requires x in s
    ensures k < |s| && s[k] == x && x !in s[..k]
  {
    if s[0] == x then 0 else 1 + IndexOf(s[1..], x)
  }

  /**
   * The list with its first element equal to x taken out, which is what
   * ArrayList.remove(Object) leaves; a list without x is left as it is.
   */
  function RemoveFirst<T(==)>(s: seq<T>, x: T): (r: seq<T>)
    ensures x !in s ==> r == s
    ensures x in s ==> r == s[..IndexOf(s, x)] + s[IndexOf(s, x) + 1..]
  {
    if s == [] then []
    else if s[0] == x then s[1..]
    else
      RemoveFirstCons(s, x);
      [s[0]] + RemoveFirst(s[1..], x)
  }

  /** The slice facts behind RemoveFirst's contract when the head is not x. */
  lemma RemoveFirstCons<T>(s: seq<T>, x: T)
    requires s != [] && s[0] != x
    ensures x in s ==> x in s[1..] && IndexOf(s, x) == IndexOf(s[1..], x) + 1
    ensures x in s ==> s[..IndexOf(s, x)] == [s[0]] + s[1..][..IndexOf(s[1..], x)]
    ensures x in s ==> s[IndexOf(s, x) + 1..] == s[1..][IndexOf(s[1..], x) + 1..]
  {
    assert s == [s[0]] + s[1..];
  }

  /** Removing the first occurrence takes exactly one copy of x out of the list's multiset. */
  lemma {:induction false} RemoveFirstMultiset<T>(s: seq<T>, x: T)
    ensures multiset(RemoveFirst(s, x)) == multiset(s) - multiset{x}
  {
    if s != [] {
      assert s == [s[0]] + s[1..];
      if s[0] != x {
        RemoveFirstMultiset(s[1..], x);
        assert RemoveFirst(s, x) == [s[0]] + RemoveFirst(s[1..], x);
      }
    }
  }

  /**
   * generateClientName: eight characters, each the character of the charset
   * at the index the random generator drew for that position.
   */
  method GenerateClientName(charset: string, picks: seq<int>) returns (name: string)
    requires |charset| > 0
    requires |picks| == NameLength
    requires forall i :: 0 <= i < |picks| ==> 0 <= picks[i] < |charset|
    ensures |name| == NameLength
    ensures forall i :: 0 <= i < NameLength ==> name[i] == charset[picks[i]]
    ensures forall i :: 0 <= i < |name| ==> name[i] in charset
  {
    name := [];
    for i := 0 to NameLength
      invariant |name| == i
      invariant forall j :: 0 <= j < i ==> name[j] == charset[picks[j]]
    {
      name := name + [charset[picks[i]]];
    }
  }

  class ServerManager {
    var isRunning: bool
    var clients: seq<FSClient>

    /** A server that has not started: not running, no clients. */
    constructor ()
      ensures !isRunning && clients == []
    {
      isRunning := false;
      clients := [];
    }

    /** The first statement of run(): the server counts as running from then on. */
    method Start()
      modifies this`isRunning
      ensures isRunning
    {
      isRunning := true;
    }

    /**
     * stopServer: on a server that is not running it fails and changes
     * nothing; otherwise it clears the running flag.
     */
    method StopServer() returns (r: Outcome<StopError>)
      modifies this`isRunning
      ensures r == if old(isRunning) then Pass else Fail(NotRunning)
      ensures !isRunning
      ensures r.Fail? ==> isRunning == old(isRunning)
    {
      if !isRunning {
        return Fail(NotRunning);
      }
      isRunning := false;
      r := Pass;
    }

    /** The accept loop's fsclients.add: the new client goes at the end. */
    method AddClient(client: FSClient)
      modifies this`clients
      ensures clients == old(clients) + [client]
    {
      clients := clients + [client];
    }

    /** removeClient: the first occurrence of the client leaves the list, if it is there. */
    method RemoveClient(client: FSClient)
      modifies this`clients
      ensures clients == RemoveFirst(old(clients), client)
    {
      clients := RemoveFirst(clients, client);
    }
  }

  class FSClient {
    const server: ServerManager
    const clientName: string
    var clientIdentifier: Option<string>   // null until the handshake line is read
    var isConnected: bool
    var sent: seq<string>                  // frames written to the output stream, oldest first
    var calls: seq<DbCall>                 // enrolment and attendance calls made, oldest first

    /** A client of the given server with a freshly generated name. */
    constructor (server: ServerManager, charset: string, picks: seq<int>)
      requires |charset| > 0
      requires |picks| == NameLength
      requires forall i :: 0 <= i < |picks| ==> 0 <= picks[i] < |charset|
      ensures this.server == server
      ensures |clientName| == NameLength && forall i :: 0 <= i < NameLength ==> clientName[i] == charset[picks[i]]
      ensures clientIdentifier == None && !isConnected && sent == [] && calls == []
    {
      var name := GenerateClientName(charset, picks);
      this.server := server;
      clientName := name;
      clientIdentifier := None;
      isConnected := false;
      sent := [];
      calls := [];
    }

    /** disconnect(): only clears the flag; the loop sees it at its next test. */
    method Disconnect()
      modifies this`isConnected
      ensures !isConnected
    {
      isConnected := false;
    }

    /** sendCommand: writes the command followed by a line feed. */
    method SendCommand(command: string)
      modifies this`sent
      ensures sent == old(sent) + [Frame(command)]
    {
      sent := sent + [command + "\n"];
    }

    /**
     * The switch of run() on one received command: reads the command's
     * follow-up lines and the database's answer, records the database call,
     * and writes the replies.
     */
    method HandleCommand(command: Command, input: Inputs) returns (rest: Inputs)
      requires clientIdentifier.Some?
      requires |input.lines| >= FollowUps(command)
      requires command == EnrollFinger ==> |input.enrolled| > 0
      requires command == ScanFinger ==> |input.attended| > 0
      modifies this`isConnected, this`sent, this`calls
      ensures var n := FollowUps(command);
        var r := Protocol.Handle(command, input.lines[..n],
                   Session(clientIdentifier.value, old(isConnected), 0, old(sent), old(calls), input.(lines := input.lines[n..])));
        isConnected == r.connected && sent == r.sent && calls == r.calls && rest == r.input
    {
      rest := input;
      var clientId := clientIdentifier.value;
      if command.Beat? {
        SendCommand("heartbeat");
      } else if command.Disconnect? {
        Disconnect();
      } else if command.EnrollFinger? {
        var fields := rest.lines[..8];
        rest := rest.(lines := rest.lines[8..]);
        var isSuccessful := rest.enrolled[0];
        rest := rest.(enrolled := rest.enrolled[1..]);
        calls := calls + [Enroll(fields[0], fields[1], fields[2], fields[3], fields[4], fields[5], fields[6], fields[7], clientId)];
        if isSuccessful {
          SendCommand("OK");
        } else {
          SendCommand("FAIL");
        }
      } else if command.ScanFinger? {
        var fingerId := rest.lines[0];
        rest := rest.(lines := rest.lines[1..]);
        var found := rest.attended[0];
        rest := rest.(attended := rest.attended[1..]);
        calls := calls + [Attend(fingerId, clientId)];
        if found.Some? {
          SendCommand("OK");
          SendCommand(found.value);
        } else {
          SendCommand("FAIL");
        }
      }
    }

    /**
     * The heartbeat test at the top of the loop of run(): disconnect() when
     * the time since the last message is at least the threshold and below
     * twice the threshold; nothing otherwise.
     */
    method Heartbeat(timeDifference: int, threshold: int)
      modifies this`isConnected
      ensures isConnected == (old(isConnected) && !Alarm(timeDifference, threshold))
    {
      if timeDifference >= threshold {
        if !(timeDifference >= threshold * 2) {
          Disconnect();
        }
      }
    }

    /**
     * The pending message of one turn of run(): read the command line, handle
     * the command, and take the clock reading that becomes the time of the
     * last message.
     */
    method ReceiveMessage(input: Inputs) returns (rest: Inputs, last: int)
      requires clientIdentifier.Some? && CanDispatch(input)
      modifies this`isConnected, this`sent, this`calls
      ensures var r := Dispatch(Session(clientIdentifier.value, old(isConnected), 0, old(sent), old(calls), input));
        isConnected == r.connected && sent == r.sent && calls == r.calls && rest == r.input && last == r.prev
    {
      var message := input.lines[0];
      rest := input.(lines := input.lines[1..]);
      rest := HandleCommand(Decode(message), rest);
      last := rest.clock[0];
      rest := rest.(clock := rest.clock[1..]);
    }

    /**
     * One turn of the loop of run(): the heartbeat test on a fresh clock
     * reading, then, when input is pending, one message handled and the time
     * of the last message reset to a second clock reading.
     */
    method Turn(input: Inputs, previousMillisTime: int, threshold: int) returns (rest: Inputs, last: int)
      requires clientIdentifier.Some? && Supplied(input)
      modifies this`isConnected, this`sent, this`calls
      ensures Session(clientIdentifier.value, isConnected, last, sent, calls, rest) ==
              Step(Session(clientIdentifier.value, old(isConnected), previousMillisTime, old(sent), old(calls), input), threshold)
    {
      var currentMillisTime := input.clock[0];
      Heartbeat(currentMillisTime - previousMillisTime, threshold);
      rest := input.(clock := input.clock[1..], ready := input.ready[1..]);
      last := previousMillisTime;
      if input.ready[0] {
        ghost var checked := Session(clientIdentifier.value, isConnected, previousMillisTime, sent, calls, rest);
        rest, last := ReceiveMessage(rest);
        assert Session(clientIdentifier.value, isConnected, last, sent, calls, rest) == Dispatch(checked);
      }
    }

    /**
     * run(): the handshake, then the loop of heartbeat test and message
     * handling, then, once the loop has exited, removal from the server's
     * client list. The loop runs while the inputs last; when the next turn's
     * inputs are not all there it stops, still connected.
     */
    method Run(env: Inputs, threshold: int) returns (status: Status)
      requires clientIdentifier == None && sent == [] && calls == []
      modifies this, server`clients
      ensures var (st, s) := Serve(env, threshold);
        status == st && isConnected == s.connected && sent == s.sent && calls == s.calls &&
        clientIdentifier == (if st == AwaitingIdentifier then None else Some(s.clientId))
      ensures server.clients == if status == Closed then RemoveFirst(old(server.clients), this) else old(server.clients)
      ensures server.isRunning == old(server.isRunning)
    {
      isConnected := true;
      var input := env;
      if |input.lines| == 0 {
        return AwaitingIdentifier;
      }
      clientIdentifier := Some(input.lines[0]);
      input := input.(lines := input.lines[1..]);
      var previousMillisTime := 0;
      var stalled := false;
      while isConnected && !stalled
        invariant clientIdentifier == Some(env.lines[0])
        invariant Protocol.Run(Session(env.lines[0], isConnected, previousMillisTime, sent, calls, input), threshold) == Serve(env, threshold)
        invariant stalled ==> isConnected && !Supplied(input)
        invariant server.clients == old(server.clients)
        decreases |input.clock| + (if stalled then 0 else 1)
      {
        if !Supplied(input) {
          stalled := true;
        } else {
          ghost var before := Session(env.lines[0], isConnected, previousMillisTime, sent, calls, input);
          input, previousMillisTime := Turn(input, previousMillisTime, threshold);
          assert Protocol.Run(before, threshold) == Protocol.Run(Step(before, threshold), threshold);
        }
      }
      if stalled {
        status := Waiting;
      } else {
        status := Closed;
        server.RemoveClient(this);
      }
    }
  }
}
