/**
 * Properties of the session protocol of module Protocol: the dispatch table
 * turn by turn, the heartbeat rule, and what whole runs do.
 */
module SessionProperties {
  import opened Protocol

  /** A line selects a recognised command exactly when it is that command's keyword. */
  lemma DecodeKeyword(line: string, c: Command)
    requires c != Unrecognised
    ensures Decode(line) == c <==> line == Keyword(c)
  {
  }

  /**
   * After one turn of a connected session, the session is still connected
   * exactly when the heartbeat test did not fire and the message read (if
   * any) was not `disconnect`.
   */
  lemma HeartbeatStep(s: Session, t: int)
    requires s.connected && Supplied(s.input)
    ensures Step(s, t).connected <==>
              !(t <= s.input.clock[0] - s.prev < 2 * t) &&
              !(s.input.ready[0] && Decode(s.input.lines[0]) == Disconnect)
  {
  }

  /**
   * `beat` reads no further line and writes exactly the frame `heartbeat`;
   * the heartbeat test only clears the flag, so a turn whose test fires
   * still answers the pending `beat`.
   */
  lemma BeatStep(s: Session, t: int)
    requires Supplied(s.input) && s.input.ready[0] && Decode(s.input.lines[0]) == Beat
    ensures var r := Step(s, t);
      r.sent == s.sent + ["heartbeat\n"] && r.calls == s.calls &&
      r.input.lines == s.input.lines[1..] &&
      r.connected == (s.connected && !Alarm(s.input.clock[0] - s.prev, t))
  {
    assert Frame("heartbeat") == "heartbeat\n";
  }

  /** `disconnect` reads no further line, writes nothing and clears the flag. */
  lemma DisconnectStep(s: Session, t: int)
    requires Supplied(s.input) && s.input.ready[0] && Decode(s.input.lines[0]) == Disconnect
    ensures var r := Step(s, t);
      r.sent == s.sent && r.calls == s.calls &&
      r.input.lines == s.input.lines[1..] && !r.connected
  {
  }

  /**
   * `enrollFinger` reads the next eight lines as first, middle and last name,
   * age, gender, phone, address and fingerprint id, passes them with the
   * client identifier to one enrolment call, and writes one frame: `OK` when
   * the call succeeded, `FAIL` otherwise.
   */
  lemma EnrollStep(s: Session, t: int)
    requires Supplied(s.input) && s.input.ready[0] && Decode(s.input.lines[0]) == EnrollFinger
    ensures var r := Step(s, t); var l := s.input.lines;
      r.input.lines == l[9..] &&
      r.calls == s.calls + [Enroll(l[1], l[2], l[3], l[4], l[5], l[6], l[7], l[8], s.clientId)] &&
      r.sent == s.sent + [if s.input.enrolled[0] then "OK\n" else "FAIL\n"] &&
      r.input.enrolled == s.input.enrolled[1..] &&
      r.connected == (s.connected && !Alarm(s.input.clock[0] - s.prev, t))
  {
    var l := s.input.lines;
    assert l[1..9][0] == l[1] && l[1..9][7] == l[8];
    assert Frame("OK") == "OK\n" && Frame("FAIL") == "FAIL\n";
  }

  /**
   * `scanFinger` reads one line, the fingerprint id, passes it with the client
   * identifier to one attendance call, and writes `OK` and the attendee's
   * first name when the call succeeded, the single frame `FAIL` otherwise.
   */
  lemma ScanStep(s: Session, t: int)
    requires Supplied(s.input) && s.input.ready[0] && Decode(s.input.lines[0]) == ScanFinger
    ensures var r := Step(s, t); var l := s.input.lines; var found := s.input.attended[0];
      r.input.lines == l[2..] &&
      r.calls == s.calls + [Attend(l[1], s.clientId)] &&
      r.sent == s.sent + (if found.Some? then ["OK\n", found.value + "\n"] else ["FAIL\n"]) &&
      r.input.attended == s.input.attended[1..] &&
      r.connected == (s.connected && !Alarm(s.input.clock[0] - s.prev, t))
  {
    assert Frame("OK") == "OK\n" && Frame("FAIL") == "FAIL\n";
  }

  /**
   * `deleteFingerOk`, `deleteFingerFail`, `deleteAllDataFromDatabase` and any
   * unrecognised line read no further line, write nothing, call nothing and
   * leave the session connected unless the heartbeat test fired; they still
   * count as a message for the heartbeat.
   */
  lemma QuietStep(s: Session, t: int)
    requires Supplied(s.input) && s.input.ready[0]
    requires Decode(s.input.lines[0]) in {DeleteFingerOk, DeleteFingerFail, DeleteAllData, Unrecognised}
    ensures var r := Step(s, t);
      r.sent == s.sent && r.calls == s.calls &&
      r.input.lines == s.input.lines[1..] &&
      r.input.enrolled == s.input.enrolled && r.input.attended == s.input.attended &&
      r.connected == (s.connected && !Alarm(s.input.clock[0] - s.prev, t)) &&
      r.prev == s.input.clock[1]
  {
  }

  /**
   * A run only ever appends frames and database calls: what was written and
   * called before the run is a prefix of what has been at its end.
   */
  lemma {:induction false} RunOnlyAppends(s: Session, t: int)
    ensures var r := Run(s, t).1;
      s.sent <= r.sent && s.calls <= r.calls
    decreases |s.input.clock|
  {
    if s.connected && Supplied(s.input) {
      var next := Step(s, t);
      RunOnlyAppends(next, t);
      var r := Run(next, t).1;
      assert s.sent <= next.sent <= r.sent;
      assert s.calls <= next.calls <= r.calls;
    }
  }

  /** Every frame is terminated by a line feed. */
  predicate Terminated(frames: seq<string>)
  {
    forall i :: 0 <= i < |frames| ==> |frames[i]| > 0 && frames[i][|frames[i]| - 1] == '\n'
  }

  /** A run writes nothing but line-feed-terminated frames. */
  lemma {:induction false} RunFramesTerminated(s: Session, t: int)
    requires Terminated(s.sent)
    ensures Terminated(Run(s, t).1.sent)
    decreases |s.input.clock|
  {
    if s.connected && Supplied(s.input) {
      var next := Step(s, t);
      assert Terminated(next.sent) by {
        forall f | f in ["heartbeat", "OK", "FAIL"] + (if s.input.attended != [] && s.input.attended[0].Some? then [s.input.attended[0].value] else [])
          ensures Frame(f)[|Frame(f)| - 1] == '\n'
        {
        }
      }
      RunFramesTerminated(next, t);
    }
  }

  /**
   * A session that receives nothing closes exactly when one of the clock
   * readings falls inside the heartbeat window [T, 2T) after the last
   * message; a reading 2T or more after it does nothing. Otherwise it is
   * still connected when the inputs run out. It writes and calls nothing.
   */
  lemma {:induction false} SilentSession(s: Session, t: int)
    requires s.connected
    requires |s.input.clock| <= |s.input.ready|
    requires forall i :: 0 <= i < |s.input.ready| ==> !s.input.ready[i]
    ensures var (status, r) := Run(s, t);
      status == (if exists i :: 0 <= i < |s.input.clock| && Alarm(s.input.clock[i] - s.prev, t) then Closed else Waiting) &&
      r.connected == (status == Waiting) &&
      r.sent == s.sent && r.calls == s.calls && r.prev == s.prev && r.input.lines == s.input.lines
    decreases |s.input.clock|
  {
    if |s.input.clock| > 0 {
      var next := Step(s, t);
      assert next.input.clock == s.input.clock[1..];
      if !Alarm(s.input.clock[0] - s.prev, t) {
        SilentSession(next, t);
        if exists i :: 0 <= i < |s.input.clock| && Alarm(s.input.clock[i] - s.prev, t) {
          var i :| 0 <= i < |s.input.clock| && Alarm(s.input.clock[i] - s.prev, t);
          assert next.input.clock[i - 1] == s.input.clock[i];
        }
      }
    }
  }

  /**
   * Because the time of the last message starts at 0, a new session that
   * never sends anything is not closed by the heartbeat test as long as
   * every clock reading is at least 2T: it stays connected and silent.
   */
  lemma SilentNewSession(input: Inputs, t: int)
    requires |input.lines| > 0
    requires |input.clock| <= |input.ready|
    requires forall i :: 0 <= i < |input.ready| ==> !input.ready[i]
    requires forall i :: 0 <= i < |input.clock| ==> input.clock[i] >= 2 * t
    ensures var (status, r) := Serve(input, t);
      status == Waiting && r.connected && r.sent == [] && r.calls == []
  {
    var s := Session(input.lines[0], true, 0, [], [], input.(lines := input.lines[1..]));
    SilentSession(s, t);
  }

  /**
   * Whether no turn of the loop, idle or not, fires the heartbeat test: its
   * first clock reading is never within [T, 2T) after the time of the last
   * message. `clock` and `ready` are the readings and readiness flags still
   * to come, and `prev` is the time of the last message, which a handled
   * message moves to the turn's second reading.
   */
  predicate Prompt(clock: seq<int>, ready: seq<bool>, prev: int, t: int)
    decreases |clock|
  {
    clock == [] || ready == [] ||
    (!Alarm(clock[0] - prev, t) &&
     if ready[0] then |clock| < 2 || Prompt(clock[2..], ready[1..], clock[1], t)
     else Prompt(clock[1..], ready[1..], prev, t))
  }

  /**
   * Keep-alive: a terminal that never sends `disconnect`, and whose messages
   * (of any kind) come often enough that no turn's heartbeat test fires, is
   * never closed, however many idle turns the loop polls between its
   * messages.
   */
  lemma {:induction false} KeptAlive(s: Session, t: int)
    requires s.connected
    requires forall i :: 0 <= i < |s.input.lines| ==> s.input.lines[i] != "disconnect"
    requires Prompt(s.input.clock, s.input.ready, s.prev, t)
    ensures Run(s, t).0 == Waiting
    decreases |s.input.clock|
  {
    if Supplied(s.input) {
      var next := Step(s, t);
      if s.input.ready[0] {
        var n := FollowUps(Decode(s.input.lines[0]));
        assert next.input.lines == s.input.lines[n + 1..];
        assert next.input.clock == s.input.clock[2..];
        assert next.connected;
      } else {
        assert next.input.lines == s.input.lines;
        assert next.input.clock == s.input.clock[1..];
      }
      KeptAlive(next, t);
    }
  }

  /**
   * With T = 10 and the last message at 0, idle turns reading 5 and 14 around
   * a `beat` read at 8 (the reset reading 9) leave the session open; without
   * the beat the same idle readings 5, 9, 14 close it, because 14 falls in
   * [10, 20).
   */
  lemma BeatBetweenIdleTurns()
    ensures Run(Session("id", true, 0, [], [], Inputs(["beat"], [5, 8, 9, 14], [false, true, false], [], [])), 10).0 == Waiting
    ensures Run(Session("id", true, 0, [], [], Inputs([], [5, 9, 14], [false, false, false], [], [])), 10).0 == Closed
  {
    var s := Session("id", true, 0, [], [], Inputs(["beat"], [5, 8, 9, 14], [false, true, false], [], []));
    assert Prompt([14], [false], 9, 10);
    assert Prompt([8, 9, 14], [true, false], 0, 10);
    assert Prompt(s.input.clock, s.input.ready, s.prev, 10);
    KeptAlive(s, 10);
    var q := Session("id", true, 0, [], [], Inputs([], [5, 9, 14], [false, false, false], [], []));
    SilentSession(q, 10);
    assert Alarm(q.input.clock[2] - q.prev, 10);
  }

  /**
   * A new session, whose time of the last message starts at 0, is kept open
   * from its first turn: with T = 10 the first reading 1000 is far beyond 2T,
   * and the beats that follow come less than T apart.
   */
  lemma NewSessionKeptAlive()
    ensures Serve(Inputs(["T1", "beat", "beat"], [1000, 1001, 1005, 1006], [true, true], [], []), 10).0 == Waiting
  {
    var input := Inputs(["T1", "beat", "beat"], [1000, 1001, 1005, 1006], [true, true], [], []);
    var s := Session("T1", true, 0, [], [], input.(lines := input.lines[1..]));
    assert Prompt([1005, 1006], [true], 1001, 10);
    assert Prompt(s.input.clock, s.input.ready, 0, 10);
    KeptAlive(s, 10);
  }
}
