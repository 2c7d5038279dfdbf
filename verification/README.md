# ToF board driver: a verified model

This project models the driver of the Evocortex Time-of-Flight rangefinder board. A board
sits on a node of an object-dictionary bus and carries two sensors. The driver's core is modelled:

- the board's initialisation handshake, a chain of gates in this order: already initialised,
  null server, node ID, update rate, node registration, device type, firmware version,
  communication version, build date;
- the creation of the two sensors, release, device reset, sensor lookup;
- the per-tick polling of both sensors and the polling loop;
- each sensor's read-and-publish policy;
- the decoding of the 32-bit distance+status word.

The communication server is an oracle (`Bus.ComServer`). It answers the k-th call ever made
on it with `answers(k)`, a transport result plus a protocol error code plus the object's value.
It also records every request in `trace`. This lets the contracts say exactly which bus calls
an operation makes. In particular, they show that a failed gate stops all further traffic.

Modules, one per component of the source:

| file | module | source |
|---|---|---|
| basics.dfy | `Basics` | fixed-width integers, `Option` |
| bus.dfy | `Bus` | the communication server as an oracle |
| objects.dfy | `Objects` | constants and object dictionary of `ToFBoard.h`, sensor object addressing |
| range_status.dfy | `RangeStatuses` | `ToFRangeStatus` of `ToFSensor.h` |
| status_word.dfy | `StatusWord` | bit decoding of the distance+status word |
| sensor.dfy | `Sensors` | class `ToFSensor` |
| handshake.dfy | `Handshake` | the gates of `ToFBoard::init` as a specification |
| board.dfy | `Boards` | class `ToFBoard` |

Where the code does less than its own comments and messages say, the model follows the code:

- The constructor's comment gives the node ID range as [1;127]
  (include/evo_tof_interface/ToFBoard.h:86), but the guard is written `id < 1 && id > 127`, so it
  never rejects anything. Node 0 and nodes above 127 pass. `Handshake.NodeIdNeverRejected` proves
  that the outcome does not depend on the node ID.
- The rate guard is `rate <= 0.1`, so a rate of exactly 0.1 Hz is refused, while the log message
  (src/ToFBoard.cpp:63) says ">= 0.1" is required.
- The device-type check compares only the low byte of the value read.

## Model

| member | source | states |
|---|---|---|
| `Objects.SensorObjectIdRoundTrip` | src/ToFSensor.cpp:48-51 | the ID `11000 + 1000*id + 101/102` of a sensor register decodes back to that sensor slot and register |
| `Objects.SensorObjectOfSound` | src/ToFSensor.cpp:48-51 | an object ID that decodes to a slot and register is exactly that register's ID (the other direction of the round trip) |
| `Objects.SensorObjectIdInjective` | include/evo_tof_interface/ToFBoard.h:70-74 | two sensor registers share an object ID only if they are the same slot and register |
| `Objects.SensorObjectsOfBoard` | include/evo_tof_interface/ToFBoard.h:52-73 | for slots 0 and 1 the IDs are 11101, 11102, 12101 and 12102; they fit in 16 bits and differ from the board objects 10001-10004 and 10101 |
| `RangeStatuses.Named` | include/evo_tof_interface/ToFSensor.h:47-57 | a byte has a name exactly when it is 0, 1, 2, 4, 5, 7, 8 or 14, and the named status has that byte as its code |
| `RangeStatuses.NamedCode` | include/evo_tof_interface/ToFSensor.h:47-57 | the eight codes are pairwise distinct: naming a status's code gives the status back |
| `StatusWord.DecodeDistance` | src/ToFSensor.cpp:95-96 | the distance is the unique 16-bit value congruent to the word modulo 2^16, i.e. its low 16 bits |
| `StatusWord.DecodeStatus` | src/ToFSensor.cpp:95-97 | the status byte and the distance together make up the low three bytes of the word; bits 24-31 are ignored |
| `StatusWord.DecodeEncode` | src/ToFSensor.cpp:95-97 | for any distance below 2^16, status below 2^8 and top byte, decoding `top*2^24 + status*2^16 + distance` yields that distance and status, unnamed status bytes included |
| `StatusWord.EncodeDecode` | src/ToFSensor.cpp:95-97 | every 32-bit word is the encoding of its top byte, decoded status and decoded distance, so decoding loses only the top byte |
| `Sensors.AfterDistanceRead` | src/ToFSensor.cpp:76-100 | a transport failure or a protocol error leaves distance and status unchanged; a completed read publishes the low three bytes of the word |
| `Sensors.LastKnownGoodStale` | src/ToFSensor.cpp:80-92 | over any series of reads none of which completes, the sensor keeps its earlier distance and status |
| `Sensors.LastKnownGoodLatest` | src/ToFSensor.cpp:76-100 | after a series of reads, the sensor shows the word of the latest completed read, whatever failed after it |
| `Sensors.Sensor.constructor` | src/ToFSensor.cpp:46-53 | a new sensor of slot `id` addresses objects `11000 + 1000*id + 101` and `+ 102` and is not initialised |
| `Sensors.Sensor.Init` | src/ToFSensor.cpp:55-66 | fails exactly when already initialised; afterwards the sensor is initialised |
| `Sensors.Sensor.Release` | src/ToFSensor.cpp:34-40 | clears the initialised flag and touches nothing else, so a second call changes nothing |
| `Sensors.Sensor.ReadDistanceAndStatus` | src/ToFSensor.cpp:76-100 | issues one read of the distance+status object (20 ms, 1 retry); returns false exactly on a transport failure; the new distance and status are `AfterDistanceRead` of the old ones and the answer |
| `Sensors.Sensor.ReadSigma` | src/ToFSensor.cpp:102-124 | issues one read of the sigma object; returns false exactly on a transport failure; may change no sensor field |
| `Sensors.Sensor.Update` | src/ToFSensor.cpp:68-74 | reads distance+status then sigma, in that order, always returns true, and stores only distance and status |
| `Sensors.Sensor.GetDistanceMM` | include/evo_tof_interface/ToFSensor.h:77 | returns the stored distance and changes nothing |
| `Sensors.Sensor.GetSigmaMM` | include/evo_tof_interface/ToFSensor.h:78 | returns the stored sigma and changes nothing |
| `Sensors.Sensor.GetRangeStatus` | include/evo_tof_interface/ToFSensor.h:79 | returns the stored status byte and changes nothing |
| `Handshake.HandshakeSucceedsIff` | src/ToFBoard.cpp:40-134 | the ordered gate chain succeeds exactly when every condition holds: not initialised, server present, rate above 0.1, registration accepted by the transport, the four constant reads complete, device-type low byte 3, communication version 1.0 |
| `Handshake.NodeIdNeverRejected` | src/ToFBoard.cpp:55-59 | the node-ID gate never fails, and the outcome of the handshake is the same for every node ID |
| `Handshake.LowRateRefused` | src/ToFBoard.cpp:61-65 | a rate of 0.1 Hz or less, 0.1 itself included, is refused before any bus call |
| `Handshake.DeviceTypeLowByte` | src/ToFBoard.cpp:79-86 | once the device-type read completes, the type gate passes exactly when the value's low byte is 3 |
| `Boards.Board.constructor` | src/ToFBoard.cpp:29-33 | a new board keeps its node ID, server, rate (default 10 Hz) and logging flag (default off), is not initialised and has an empty two-slot sensor list |
| `Boards.Board.Init` | src/ToFBoard.cpp:40-134 | succeeds exactly when no gate fails; issues exactly the bus calls of the gates it reached, none when already initialised or without a server; on failure leaves the flag as it was and the sensor list untouched; on success the list holds fresh, initialised sensors and the flag is set |
| `Boards.Board.CheckDevice` | src/ToFBoard.cpp:55-106 | runs the node, rate and registration gates, then the constant reads; succeeds exactly when no gate of the handshake fails, and issues exactly the bus calls of the gates it reached |
| `Boards.Board.ReadDeviceInfo` | src/ToFBoard.cpp:76-106 | reads device type, firmware version, communication version and build date in that order; succeeds exactly when every read completes, the type's low byte is 3 and the version is 1.0; a failure issues no later read |
| `Boards.Board.CreateSensors` | src/ToFBoard.cpp:108-120 | fills slots 0 and 1 with fresh, initialised sensors of those IDs |
| `Boards.Board.Release` | src/ToFBoard.cpp:136-153 | does nothing on an uninitialised board; otherwise releases every sensor and clears the flag, so a second call does nothing; no sensor's distance, status or sigma changes |
| `Boards.Board.ResetDevice` | src/ToFBoard.cpp:155-173 | fails with no bus call when uninitialised; otherwise writes 1, or 0x45564F42 for the bootloader, to object 10101; succeeds exactly when transport and node accept; never changes the initialised flag |
| `Boards.Board.GetSensor` | src/ToFBoard.cpp:175-190 | gives a sensor exactly when the board is initialised and `id < 2`, and then the sensor of slot `id` |
| `Boards.Board.IsInitialized` | src/ToFBoard.cpp:192-195 | reports the initialised flag |
| `Boards.Board.UpdateAll` | src/ToFBoard.cpp:212-215 | one tick updates sensor 0 and then sensor 1 (four reads in that order); each sensor's reading follows its own distance+status answer; no sensor's flag or stored sigma changes |
| `Boards.Board.UpdateHandler` | src/ToFBoard.cpp:201-223 | after any number of ticks the bus saw exactly that many ticks' reads, and each sensor's reading is its earlier reading updated by its own distance+status answer of every tick, in order (`Polled`); no sensor's flag or stored sigma changes |
| `Boards.PolledIsLastKnownGood` | src/ToFBoard.cpp:210-215 | the tick-by-tick reading of a slot equals the last-known-good policy over that slot's answers, so after the loop each sensor shows its latest completed word |
| `Boards.Board.ReadConstObject` | src/ToFBoard.cpp:225-241 | one read (default timeout, 1 retry); succeeds exactly when transport and node both accept |
| `Boards.Board.WriteDataObject` | src/ToFBoard.cpp:243-326 | one write (default timeout, 2 retries); succeeds exactly when transport and node both accept; after a protocol error, exactly one follow-up read is made and its result is ignored |

## Left out

- The worker thread, `std::atomic`, the `_run_update` handshake and the join: `UpdateHandler`
  runs a given number of ticks sequentially, and `Release` does not model stopping a thread.
  Torn or interleaved reads by other threads are therefore not modelled.
- Timing: the loop period, the sleep after each tick (and its negative duration on overrun),
  the 1 ms settle delay and the 10 x 1 ms start wait in `init`. The start wait never causes a failure.
- The communication server's internals, whose headers are not part of this model. Three
  assumptions follow from that. A response carries the object's value both as an unsigned word
  and as the float it holds. The board stores a constant object's value only after a completed
  read. The server records nothing about registration beyond the request.
- Floating point: update rates and the float constants are `real`; the communication version
  test is exact equality with 1.0; the distance is kept as the 16-bit integer the float holds exactly.
- Sensor snapshot initial values: `std::atomic` leaves them indeterminate, so the model
  constrains nothing about them before the first completed read.
- Logging and its messages, including the per-error-code messages of `writeDataObject`.
- C++ access control: only the board may construct a sensor or call its `init` and `update`.
  Dafny has no private members here, so this is not enforced.
- The destructors, which only call `release`.
- Boards.Board.ResetDevice: when the node refuses the write, the diagnostic read-back goes into the
  same reset object; the model assumes that read stores nothing there, so `resetValue` keeps the
  value written. The field is private and is assigned again before every write.
- The ROS test node, which only publishes values.
