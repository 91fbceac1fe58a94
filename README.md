# Relay bank of the ESP32 relay controller

The firmware drives eight relays from ESP32 GPIO pins and lets a browser
toggle them over HTTP. Its relay logic is small:

- a fixed table of eight pin numbers (`relayPins`);
- a parallel array of cached on/off states (`relayStates`), zero-initialised;
- a loop in `setup` that configures each relay pin as an output and drives it LOW;
- the `/toggle` request handler. It reads the `relay` parameter and checks the
  index is in range. It then flips the cached state and drives the relay's pin
  to the new level. It answers 200 "OK" in every case.

This project models that logic in Dafny and proves its properties.

- `relays.dfy`, module `Relays`: the pin table, the C `int` and `size_t`
  arithmetic of the range check, and the state as a value (`Board`: cached
  states plus the level each pin was last driven to). It also holds the
  functions that say what booting and toggling do (`DriveLow`, `Toggle`) and
  the lemmas about them.
- `relay_bank.dfy`, module `RelayBoard`: the class `RelayBank`. It keeps the
  states in an array that the handler updates in place. Pin levels and
  output configuration are fields that stand in for `digitalWrite` and
  `pinMode`. Its methods are proved against the functions of `Relays`.

A pin level is a `bool`: true is HIGH, false is LOW. The handler's input is
the already-parsed `relay` parameter as `Option<int32>`, where `None` means the
request has no `relay` parameter.

Every relay is a native GPIO pin, and on means HIGH. The firmware has no
expander, no polarity setting and no self-test.

## Model

| member | source | states |
|---|---|---|
| `Relays.RelayTable` | src/main.cpp:27-28 | there are eight relay pins, one cached state slot per pin, and no two relays share a pin |
| `Relays.ToSize` | src/main.cpp:72 | the signed index is converted to the unsigned `size_t` type for the comparison; the result is the value in [0, 2^32) congruent to the index modulo 2^32 |
| `Relays.InRange` | src/main.cpp:72 | the handler's guard (sign test, then the unsigned comparison with the table size) accepts an index exactly when 0 <= index < 8 |
| `Relays.UnsignedCompareRejectsNegatives` | src/main.cpp:72 | a negative index converts to at least 2^31, so the unsigned comparison by itself would also reject it |
| `Relays.InitialStates` | src/main.cpp:28 | the zero-initialised cache has one entry per relay and every entry is off |
| `Relays.DriveLow` | src/main.cpp:48-51 | after driving a list of pins LOW in turn, every listed pin is LOW, every other pin keeps its level, and the driven pins are exactly the old ones plus the listed ones |
| `Relays.BootAgrees` | src/main.cpp:28 | after boot the cached states (all off) and the relay pins (all LOW) agree for every index, whatever levels the pins powered up with |
| `Relays.Toggle` | src/main.cpp:70-75 | the effect of one request keeps one cached state per relay, and a request without a `relay` parameter, or with an index outside 0 <= index < 8, leaves the states and pin levels exactly as they were |
| `Relays.ToggleFlipsSelected` | src/main.cpp:72-74 | an accepted toggle negates the selected relay's cached state, and the selected pin is HIGH exactly when the new state is on |
| `Relays.ToggleLeavesOthers` | src/main.cpp:73-74 | an accepted toggle keeps eight states and leaves every other relay's cached state unchanged; the pins are distinct, and every pin other than the selected relay's keeps both whether it was ever written and its level |
| `Relays.ToggleRejected` | src/main.cpp:70-75 | a request without a `relay` parameter, or with an index that is negative or at least 8, leaves every state and pin level unchanged |
| `Relays.ToggleKeepsAgreement` | src/main.cpp:72-74 | if cache and pins agree before a request, they agree after it, for every request |
| `Relays.ToggleTwice` | src/main.cpp:73-74 | the same request twice restores the cached states, and also the pin levels when cache and pins agreed before |
| `Relays.ToggleThreeTwiceFromBoot` | src/main.cpp:69-78 | from boot, toggling relay 3 turns it alone on and drives pin 26 HIGH, and toggling it again restores the booted bank |
| `RelayBoard.RelayBank.constructor` | src/main.cpp:28 | the cache starts as eight off states; no pin is configured yet and the pins keep their power-on levels |
| `RelayBoard.RelayBank.InitPins` | src/main.cpp:48-51 | the loop makes every relay pin an output and drives it LOW in table order (`DriveLow`); the cached states are untouched |
| `RelayBoard.RelayBank.HandleToggle` | src/main.cpp:69-78 | the array and pin levels change as `Toggle` says; cache/pin agreement is preserved; the reply is 200 "text/plain" "OK" whether or not the index was accepted |
| `RelayBoard.Boot` | src/main.cpp:28-51 | after the static initialisation of the cache (line 28) and the pin loop of `setup` (lines 48-51), every relay is off, every relay pin is an output driven LOW, and cache and pins agree; the outputs are exactly the relay pins, and every other pin keeps its power-on level or stays unwritten (`DriveLow`) |

## Left out

- Wi-Fi station set-up and the wait-for-connection loop: network I/O.
- Web server route registration, the request and parameter objects, and
  `String::toInt`: library code whose behaviour is not visible here. The
  handler's input is modelled as the already-parsed optional index. A
  non-numeric parameter, which `toInt` turns into 0, is therefore not modelled.
- The HTML page of the `/` route: presentation only. It reads the cached
  states and paints a button green when its relay is on.
- The over-the-air update integration, its `millis()`-throttled progress
  logging, and `loop`, which only services the update library:
  firmware-update plumbing and timing.
- Serial logging and the hard-coded network credentials: they do not affect
  relay behaviour.
- `pinMode` is modelled only as the set of pins configured as outputs. Any
  electrical effect of configuring a pin is not modelled.
- Concurrency between the asynchronous web server's handlers is not modelled.
  Each request is treated as running to completion on its own.
