# Fingerprint attendance server: session protocol and export query, in Dafny

This project models two pieces of a server that fingerprint-scanner terminals
connect to.

**The terminal session.** `ServerManager.FSClient.run` is the loop that
serves one connected terminal. It reads one line as the terminal's
identifier. It then loops while the session is connected. Each turn reads the
clock and applies the heartbeat test. When input is pending, the turn reads a
command line and that command's follow-up lines. It calls the database if the
command needs it, writes the reply frames and resets the time of the last
message. The model states this loop twice:

- module `Protocol` states it as a pure transducer (`Step`, `Run`, `Serve`).
  The lines the terminal sends, the clock readings, the readiness of the input
  stream and the database's answers go in. The frames written back, the
  database calls made and the session's liveness come out.
- module `Server` states it as the class `FSClient`, whose `Run` method is a
  `while` loop over fields. The method's contract ties it to
  `Protocol.Serve`.

The class `ServerManager` holds the running flag and the list of connected
clients. Module `SessionProperties` proves the dispatch table and the
heartbeat rule.

**The export query.** `TempExportQueryData` holds a date and an event name
that an attendance export filters on. `buildDate` accepts a string only in the
shape `^\d{4}-((1[0-2])|(0?[1-9]))-\d{1,2}$`. Module `ExportQuery` states the
matcher. It proves the matcher accepts exactly the renderings of valid year,
month and day groups. The class method `BuildDate` changes the stored date
only on acceptance.

The heartbeat threshold `Const.DISCON_THRESHOLD` and the character set
`Const.CHARSET` are defined outside the modelled files. They are parameters
here: `threshold` and `charset`.

The heartbeat rule is the code's. The code does not close a terminal that
has been silent for 2T or more. It calls `disconnect()` only when the time
since the last message is at least T and below 2T, and a reading 2T or more
after the last message does nothing. The time of the last message starts at
0, so the first reading of a new session is normally far beyond 2T and does
not close it. `SessionProperties.SilentSession` and
`SessionProperties.SilentNewSession` prove this rule.

## Model

| member | source | states |
|---|---|---|
| `Protocol.Decode` | src/main/java/core/ServerManager.java:219-347 | a line selects a command only when it is that command's keyword; any other line is an unrecognised command |
| `SessionProperties.DecodeKeyword` | src/main/java/core/ServerManager.java:219-347 | a line decodes to a recognised command if and only if the line is that command's keyword |
| `Protocol.Step` | src/main/java/core/ServerManager.java:196-352 | one turn uses one clock reading, or two when a message is pending; it never reconnects a session; it only appends frames and calls; the time of the last message becomes the second reading when a message was handled, and is unchanged otherwise |
| `Protocol.Dispatch` | src/main/java/core/ServerManager.java:214-351 | handling a message uses one clock reading, and that reading becomes the time of the last message, whatever the command, including an unrecognised one |
| `Protocol.Handle` | src/main/java/core/ServerManager.java:219-347 | handling a command leaves the client identifier, the time of the last message, the unread lines, the clock and the readiness flags alone |
| `SessionProperties.HeartbeatStep` | src/main/java/core/ServerManager.java:196-238 | after one turn a connected session is still connected if and only if the elapsed time was not within [T, 2T) and the message read was not `disconnect` |
| `SessionProperties.BeatStep` | src/main/java/core/ServerManager.java:220-231 | `beat` reads no further line, calls nothing and writes exactly `heartbeat\n`, even in a turn whose heartbeat test cleared the flag |
| `SessionProperties.DisconnectStep` | src/main/java/core/ServerManager.java:232-238 | `disconnect` reads no further line, writes nothing, calls nothing and clears the flag |
| `SessionProperties.EnrollStep` | src/main/java/core/ServerManager.java:239-284 | `enrollFinger` reads the next 8 lines as first, middle, last name, age, gender, phone, address and fingerprint id, in that order; it makes one enrolment call with them and the client identifier; it writes `OK\n` on success and `FAIL\n` otherwise |
| `SessionProperties.ScanStep` | src/main/java/core/ServerManager.java:285-322 | `scanFinger` reads exactly 1 line; it makes one attendance call with that line and the client identifier; it writes `OK\n` and the first name on success, and only `FAIL\n` on failure |
| `SessionProperties.QuietStep` | src/main/java/core/ServerManager.java:324-351 | `deleteFingerOk`, `deleteFingerFail`, `deleteAllDataFromDatabase` and unrecognised lines read no further line; they write nothing and call nothing; they disconnect only if the heartbeat test fired; the time of the last message is still reset |
| `Protocol.Run` | src/main/java/core/ServerManager.java:196-356 | the loop ends closed if and only if the flag is cleared; otherwise it waits, still connected, for inputs the next turn needs; it never ends in the handshake, and it keeps the client identifier |
| `Protocol.Serve` | src/main/java/core/ServerManager.java:180-196 | a session is still in the handshake if and only if no identifier line has arrived; otherwise its identifier is the first line; what its start with the last message at time 0 implies is proved by `SessionProperties.SilentNewSession` |
| `SessionProperties.RunOnlyAppends` | src/main/java/core/ServerManager.java:196-356 | a run only appends: the frames and calls before it are a prefix of those after it |
| `SessionProperties.RunFramesTerminated` | src/main/java/core/ServerManager.java:462-470 | every frame a run writes ends with a line feed |
| `SessionProperties.SilentSession` | src/main/java/core/ServerManager.java:193-214 | a session that receives nothing closes if and only if some clock reading falls within [T, 2T) of the last message; a reading 2T or more later does nothing; it writes and calls nothing |
| `SessionProperties.SilentNewSession` | src/main/java/core/ServerManager.java:187-210 | because the time of the last message starts at 0, a new silent session stays connected while every reading is at least 2T |
| `SessionProperties.KeptAlive` | src/main/java/core/ServerManager.java:196-238 | a terminal that never sends `disconnect`, and whose messages of any kind come often enough that no turn's heartbeat test fires (idle turns included, and a first reading 2T or more after time 0 allowed), is never closed: the run ends waiting, still connected |
| `SessionProperties.NewSessionKeptAlive` | src/main/java/core/ServerManager.java:186-231 | a new session whose first reading is far beyond 2T after time 0, followed by beats less than T apart, stays open from its first turn |
| `SessionProperties.BeatBetweenIdleTurns` | src/main/java/core/ServerManager.java:196-231 | with T = 10, one `beat` between idle polling turns keeps a session open that the same idle readings alone would close |
| `Server.RemoveFirst` | src/main/java/core/ServerManager.java:127-129 | removing a client takes out its first occurrence and keeps the order of the rest; a list without the client is unchanged |
| `Server.RemoveFirstMultiset` | src/main/java/core/ServerManager.java:127-129 | removing a client takes exactly one copy of it out of the list |
| `Server.GenerateClientName` | src/main/java/core/ServerManager.java:441-453 | the name has exactly 8 characters; character i is the charset character at the i-th random index; every character is in the charset |
| `Server.ServerManager.constructor` | src/main/java/core/ServerManager.java:20-36 | a new server is not running and has no clients |
| `Server.ServerManager.Start` | src/main/java/core/ServerManager.java:40-41 | the server counts as running once `run` starts |
| `Server.ServerManager.StopServer` | src/main/java/core/ServerManager.java:84-94 | on a server that is not running, it fails with `NotRunning` and leaves the flag unchanged; otherwise it succeeds and clears the flag |
| `Server.ServerManager.AddClient` | src/main/java/core/ServerManager.java:54-56 | a new client goes at the end of the list |
| `Server.ServerManager.RemoveClient` | src/main/java/core/ServerManager.java:127-129 | the list loses the first occurrence of the client, if the client is there |
| `Server.FSClient.constructor` | src/main/java/core/ServerManager.java:149-153 | a new client has a generated 8-character name; it has no identifier, is not connected, and has sent and called nothing |
| `Server.FSClient.Disconnect` | src/main/java/core/ServerManager.java:173-175 | `disconnect()` only clears the flag |
| `Server.FSClient.SendCommand` | src/main/java/core/ServerManager.java:462-470 | a command is written as its text followed by a line feed |
| `Server.FSClient.HandleCommand` | src/main/java/core/ServerManager.java:219-347 | the switch on one command consumes the command's follow-up lines and database answer; its replies, calls and flag are those of `Protocol.Handle` |
| `Server.FSClient.Heartbeat` | src/main/java/core/ServerManager.java:197-210 | the flag is cleared exactly when the elapsed time is at least T and below 2T, and is otherwise left as it was |
| `Server.FSClient.ReceiveMessage` | src/main/java/core/ServerManager.java:214-351 | reading and handling one pending message, and taking the clock reading that becomes the time of the last message, leave the session as `Protocol.Dispatch` says |
| `Server.FSClient.Turn` | src/main/java/core/ServerManager.java:196-352 | one turn of the loop leaves the session exactly as `Protocol.Step` says |
| `Server.FSClient.Run` | src/main/java/core/ServerManager.java:178-373 | the whole run gives the status, flag, frames, calls and identifier that `Protocol.Serve` gives; a run that ends closed removes the client from the server's list, and any other run leaves the list alone; the server's running flag never changes |
| `ExportQuery.DatePatternSound` | src/main/java/utility/TempExportQueryData.java:18 | every accepted string is a 4-digit year, a dash, a month (`1`–`9`, `01`–`09` or `10`–`12`), a dash and a 1–2 digit day |
| `ExportQuery.DatePatternComplete` | src/main/java/utility/TempExportQueryData.java:18 | every string of that shape is accepted and splits back into its own groups |
| `ExportQuery.DigitsValue` | src/main/java/utility/TempExportQueryData.java:20 | the value of n digits is below 10^n |
| `ExportQuery.DateOf` | src/main/java/utility/TempExportQueryData.java:20 | the stored date of an accepted string has a year from 0 to 9999, a month from 1 to 12 and a day from 0 to 99 |
| `ExportQuery.AcceptedShape` | src/main/java/utility/TempExportQueryData.java:18 | every accepted string is 8 to 10 characters long and names a month from 1 to 12 |
| `ExportQuery.DatePatternExamples` | src/main/java/utility/TempExportQueryData.java:18 | the pattern does not range-check the day, so `2024-1-0` and `2024-01-99` match; months `0`, `00` and `13` do not |
| `ExportQuery.TempExportQueryData.constructor` | src/main/java/utility/TempExportQueryData.java:5-7 | a new query holds no date and no event name |
| `ExportQuery.TempExportQueryData.GetDateQuery` | src/main/java/utility/TempExportQueryData.java:10-12 | returns the stored date as it is; `BuildDate` states what is stored |
| `ExportQuery.TempExportQueryData.GetEventNameQuery` | src/main/java/utility/TempExportQueryData.java:14 | returns the stored event name as it is; `BuildEventName` states what is stored |
| `ExportQuery.TempExportQueryData.BuildDate` | src/main/java/utility/TempExportQueryData.java:17-23 | it returns true if and only if the string matches; on a match the stored date becomes the one the string names; on a mismatch the date is unchanged; the event name never changes |
| `ExportQuery.TempExportQueryData.BuildEventName` | src/main/java/utility/TempExportQueryData.java:25-27 | the name is stored verbatim, `GetEventNameQuery` returns it, and the date is unchanged |

## Left out

- Most of the accept loop of `ServerManager.run` (ServerManager.java:42-76) is not modelled: `accept`, starting one thread per client, `interrupt()` on shutdown, and the busy wait for the client list to empty. These are sockets and concurrency. Its first statement (:41), which sets the running flag, is modelled as `Start`, and `fsclients.add(client)` (:56) is modelled as `AddClient`.
- Closing the server socket in `stopServer`, and `isClosed`, are not modelled: they are socket operations.
- Stream handling is not modelled: `setIO`, `closeAll` and the `IOException` catch blocks of `run` and `sendCommand`. Input is a sequence of lines, `input.ready()` is a sequence of flags, and output is a sequence of frames.
- The interrupt path of `run` (ServerManager.java:353-368) is not modelled. It writes `disconnect` to a client forced off at shutdown. It depends on thread interruption.
- Every `app.sendToConsole`, `LogHelper` and `app.updateClientsList` call is left out. These are display and logging calls with no effect on the protocol.
- The clock reading the `beat` case takes for its round-trip log line is left out. Only the two readings that decide the heartbeat are modelled: one at the top of the turn and one after a message.
- `app.getEventData()` belongs to the display, which is not part of this model. The event name and location it supplies to `scanFinger` are therefore not part of the recorded attendance call.
- `DatabaseManager.enrollUser` and `recordAttendance` are answered by input sequences: success flags for enrolments, and the first name or a failure for attendance. The database and `DatabaseManager.java` are not part of this model.
- The data holders `TempEnrollmentData`, `TempAttendanceData` and `EventData` are not part of this model. The lines a command reads are recorded verbatim in the call they feed, so the model does not parse fingerprint ids.
- `Server.FSClient.Run` requires a client that has not run yet. The source starts each client's thread once, and the contract speaks of the frames and calls of that one run.
- The model's inputs are finite, and the server's are not. A run stops, still connected, before any turn whose clock reading, readiness flag, lines or database answer are not all supplied. This stands for a session that is still blocked or still looping.
- End of stream is not modelled. At end of stream `readLine` returns null, and a `switch` on null throws.
- `threshold * 2` is computed with unbounded integers. A 32-bit overflow of the constant's doubling is not modelled. The constant is defined outside the modelled files, and its type is unknown.
- `Date.valueOf` is modelled only as reading out the year, month and day values. Its own rejection of a day of 0 or above 31 is not modelled. That rejection throws out of `buildDate` even though the pattern accepts such days. Its lenient roll-over of, say, 31 April is not modelled either. This is library behaviour, not code of the modelled files.
- Null arguments are not modelled. `buildDate(null)` throws, and `buildEventName(null)` stores null.
- The getters `getClients`, `getClientName`, `getClientID` and `getClientSocketAddress` simply return fields. They are not modelled apart from the fields themselves.
