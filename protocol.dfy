/**
 * The line protocol between the server and one fingerprint-scanner terminal,
 * as the session loop FSClient.run of core/ServerManager.java runs it, stated
 * as a transducer over values.
 *
 * The socket, the clock and the database are replaced by what they supply:
 * the lines the terminal sends, the successive readings of the millisecond
 * clock, whether input is pending at each turn of the loop, and the answers of
 * the enrolment and attendance calls. What comes out is the list of frames
 * written back to the terminal, the list of calls made to the database, and
 * the liveness of the session.
 */
module Protocol {
  import opened Wrappers

  /** The commands a terminal sends, one keyword per line. */
  datatype Command =
    | Beat
    | Disconnect
    | EnrollFinger
    | ScanFinger
    | DeleteFingerOk
    | DeleteFingerFail
    | DeleteAllData
    | Unrecognised

  /** The keyword line that selects a recognised command. */
  function Keyword(c: Command): string
    requires c != Unrecognised
  {
    match c
    case Beat => "beat"
    case Disconnect => "disconnect"
    case EnrollFinger => "enrollFinger"
    case ScanFinger => "scanFinger"
    case DeleteFingerOk => "deleteFingerOk"
    case DeleteFingerFail => "deleteFingerFail"
    case DeleteAllData => "deleteAllDataFromDatabase"
  }

  /** The switch on a received line: a line that is no keyword matches no case. */
  function Decode(line: string): (c: Command)
    ensures c != Unrecognised ==> Keyword(c) == line
  {
    if line == "beat" then Beat
    else if line == "disconnect" then Disconnect
    else if line == "enrollFinger" then EnrollFinger
    else if line == "scanFinger" then ScanFinger
    else if line == "deleteFingerOk" then DeleteFingerOk
    else if line == "deleteFingerFail" then DeleteFingerFail
    else if line == "deleteAllDataFromDatabase" then DeleteAllData
    else Unrecognised
  }

  /** How many lines a command reads after its keyword line. */
  function FollowUps(c: Command): nat
  {
    match c
    case EnrollFinger => 8
    case ScanFinger => 1
    case _ => 0
  }

  /** What sendCommand writes for one command: its text and a line feed. */
  function Frame(text: string): string
  {
    text + "\n"
  }

  /**
   * The heartbeat test at the top of the loop: it calls disconnect() when the
   * time since the last message has reached the threshold but not twice it.
   */
  predicate Alarm(elapsed: int, threshold: int)
  {
    elapsed >= threshold && !(elapsed >= threshold * 2)
  }

  /** Everything the environment supplies to one session, in the order it is used. */
  datatype Inputs = Inputs(
    lines: seq<string>,              // lines the terminal sends
    clock: seq<int>,                 // successive readings of the millisecond clock
    ready: seq<bool>,                // whether input is pending, one per turn of the loop
    enrolled: seq<bool>,             // answers of successive enrolment calls
    attended: seq<Option<string>>)   // answers of successive attendance calls: the first name on success

  /** A call the session makes into the database, with the data it passes. */
  datatype DbCall =
    | Enroll(first: string, middle: string, last: string, age: string, gender: string,
             phone: string, address: string, fingerId: string, clientId: string)
    | Attend(fingerId: string, clientId: string)

  /** The state of a session inside its loop, with the inputs not yet used. */
  datatype Session = Session(
    clientId: string,     // the identifier read in the handshake
    connected: bool,      // is_connected
    prev: int,            // previousMillisTime, the time of the last message
    sent: seq<string>,    // frames written to the terminal, oldest first
    calls: seq<DbCall>,   // calls made to the database, oldest first
    input: Inputs)

  /** How a run of the session ends. */
  datatype Status =
    | AwaitingIdentifier  // blocked reading the identifier line
    | Waiting             // still connected; the inputs for the next turn are not all there
    | Closed              // the loop has exited because is_connected is false

  /** Whether the inputs hold the keyword line, its follow-up lines, the
      database answer and the clock reading that handling a message uses. */
  predicate CanDispatch(input: Inputs)
  {
    |input.lines| > 0 &&
    |input.lines| > FollowUps(Decode(input.lines[0])) &&
    |input.clock| > 0 &&
    (Decode(input.lines[0]) == EnrollFinger ==> |input.enrolled| > 0) &&
    (Decode(input.lines[0]) == ScanFinger ==> |input.attended| > 0)
  }

  /** Whether the inputs hold everything the next turn of the loop uses. */
  predicate Supplied(input: Inputs)
  {
    |input.clock| > 0 && |input.ready| > 0 &&
    (input.ready[0] ==> CanDispatch(input.(clock := input.clock[1..])))
  }

  /** The effect of one recognised command on the session, given its follow-up lines. */
  function Handle(command: Command, args: seq<string>, s: Session): (r: Session)
    requires |args| == FollowUps(command)
    requires command == EnrollFinger ==> |s.input.enrolled| > 0
    requires command == ScanFinger ==> |s.input.attended| > 0
    ensures r.clientId == s.clientId && r.prev == s.prev
    ensures r.input.lines == s.input.lines && r.input.clock == s.input.clock && r.input.ready == s.input.ready
  {
    match command
    case Beat => s.(sent := s.sent + [Frame("heartbeat")])
    case Disconnect => s.(connected := false)
    case EnrollFinger =>
      var ok := s.input.enrolled[0];
      s.(sent := s.sent + [Frame(if ok then "OK" else "FAIL")],
         calls := s.calls + [Enroll(args[0], args[1], args[2], args[3], args[4], args[5], args[6], args[7], s.clientId)],
         input := s.input.(enrolled := s.input.enrolled[1..]))
    case ScanFinger =>
      var found := s.input.attended[0];
      s.(sent := s.sent + (if found.Some? then [Frame("OK"), Frame(found.value)] else [Frame("FAIL")]),
         calls := s.calls + [Attend(args[0], s.clientId)],
         input := s.input.(attended := s.input.attended[1..]))
    case _ => s
  }

  /** Reading one message and its follow-up lines, handling it, and taking the
      clock reading that becomes the time of the last message. */
  function Dispatch(s: Session): (r: Session)
    requires CanDispatch(s.input)
    ensures |r.input.clock| == |s.input.clock| - 1 && r.input.ready == s.input.ready
    ensures r.prev == s.input.clock[0]
  {
    var command := Decode(s.input.lines[0]);
    var n := FollowUps(command);
    var handled := Handle(command, s.input.lines[1..n + 1], s.(input := s.input.(lines := s.input.lines[n + 1..])));
    handled.(prev := handled.input.clock[0], input := handled.input.(clock := handled.input.clock[1..]))
  }

  /** One turn of the loop: the heartbeat test, then the pending message if there is one. */
  function Step(s: Session, threshold: int): (r: Session)
    requires Supplied(s.input)
    ensures |r.input.clock| == |s.input.clock| - (if s.input.ready[0] then 2 else 1)
    ensures r.input.ready == s.input.ready[1..]
    ensures r.clientId == s.clientId
    ensures r.connected ==> s.connected
    ensures s.sent <= r.sent && s.calls <= r.calls
    ensures r.prev == if s.input.ready[0] then s.input.clock[1] else s.prev
  {
    var now := s.input.clock[0];
    var checked := s.(connected := if Alarm(now - s.prev, threshold) then false else s.connected,
                      input := s.input.(clock := s.input.clock[1..], ready := s.input.ready[1..]));
    if s.input.ready[0] then Dispatch(checked) else checked
  }

  /**
   * The loop `while (is_connected)`, run for as long as the inputs last. It
   * ends either closed, with the flag cleared, or waiting, still connected,
   * for inputs the next turn needs; it keeps the client identifier.
   */
  function Run(s: Session, threshold: int): (result: (Status, Session))
    ensures result.0 != AwaitingIdentifier
    ensures result.0 == Closed <==> !result.1.connected
    ensures result.0 == Waiting ==> !Supplied(result.1.input)
    ensures result.1.clientId == s.clientId
    decreases |s.input.clock|
  {
    if !s.connected then (Closed, s)
    else if !Supplied(s.input) then (Waiting, s)
    else Run(Step(s, threshold), threshold)
  }

  /**
   * The session from the start: the handshake reads the identifier line, the
   * time of the last message starts at 0, then the loop runs. Without an
   * identifier line the session is still blocked in the handshake.
   */
  function Serve(input: Inputs, threshold: int): (result: (Status, Session))
    ensures result.0 == AwaitingIdentifier <==> |input.lines| == 0
    ensures |input.lines| > 0 ==> result.1.clientId == input.lines[0]
  {
    if |input.lines| == 0 then (AwaitingIdentifier, Session("", true, 0, [], [], input))
    else Run(Session(input.lines[0], true, 0, [], [], input.(lines := input.lines[1..])), threshold)
  }
}
