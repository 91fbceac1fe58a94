/** The relay table of the controller firmware and the value-level meaning of
    its two relay operations: the boot loop that drives every relay pin LOW,
    and the handler of a `GET /toggle` request. The class in relay_bank.dfy
    implements both on an array and is proved against the functions here. */
module Relays {

  datatype Option<T> = None | Some(value: T)

  /** A C `int` on the target, which is 32 bits wide. */
  newtype int32 = x: int | -0x8000_0000 <= x < 0x8000_0000

  /** GPIO pin number of each relay, in relay-index order (`relayPins`). */
  const RelayPins: seq<int> := [32, 33, 25, 26, 27, 14, 12, 13]

  /** `sizeof(relayPins) / sizeof(relayPins[0])`: the length of `relayStates`
      and the bound of the setup loop and of the toggle guard. */
  const RelayCount: nat := |RelayPins|

  /** No two relays share a pin. */
  predicate DistinctPins(pins: seq<int>)
  {
    forall i, j :: 0 <= i < j < |pins| ==> pins[i] != pins[j]
  }

  /** The table holds eight pins, pairwise distinct, so a `digitalWrite` to
      one relay's pin never changes another relay's level. */
  lemma RelayTable()
    ensures RelayCount == 8
    ensures DistinctPins(RelayPins)
  {
  }

  /** The conversion of a 32-bit `int` to the 32-bit unsigned `size_t` that C
      applies before comparing the two: the unique value in [0, 2^32) that is
      congruent to `x` modulo 2^32. */
  function ToSize(x: int32): (n: nat)
    ensures n < 0x1_0000_0000
    ensures (n - x as int) % 0x1_0000_0000 == 0
  {
    if x >= 0 then x as int else x as int + 0x1_0000_0000
  }

  /** The guard of the toggle handler, `relay >= 0 && relay < sizeof ...`,
      with the right operand of `&&` compared in `size_t`. It accepts exactly
      the indices of the relay table. */
  function InRange(relay: int32): (ok: bool)
    ensures ok <==> 0 <= relay as int < RelayCount
  {
    relay >= 0 && ToSize(relay) < RelayCount
  }

  /** The sign test that runs first is not what rejects a negative index on
      its own: the unsigned comparison would also reject every one of them,
      since a negative `int` converts to at least 2^31. */
  lemma UnsignedCompareRejectsNegatives(relay: int32)
    requires relay < 0
    ensures ToSize(relay) >= 0x8000_0000 && ToSize(relay) >= RelayCount
  {
  }

  /** What the relay operations act on: the cached state of each relay
      (`relayStates`) and the level each GPIO pin was last driven to by
      `digitalWrite` (true is HIGH, false is LOW). A pin that was never
      written has no entry. */
  datatype Board = Board(states: seq<bool>, levels: map<int, bool>)

  /** The cache and the hardware agree: every relay's pin has been driven, to
      HIGH exactly when its cached state is on. */
  predicate Agrees(b: Board)
  {
    && |b.states| == RelayCount
    && forall i :: 0 <= i < RelayCount ==>
         RelayPins[i] in b.levels && b.levels[RelayPins[i]] == b.states[i]
  }

  /** The zero initialisation of `relayStates`: every relay off. */
  function InitialStates(): (s: seq<bool>)
    ensures |s| == RelayCount
    ensures forall i :: 0 <= i < |s| ==> !s[i]
  {
    seq(RelayCount, _ => false)
  }

  /** The pins of a table, as a set. */
  function PinSet(pins: seq<int>): set<int>
  {
    set p | p in pins
  }

  /** The levels after `digitalWrite(pin, LOW)` for each of `pins` in turn:
      every written pin is LOW, every other pin keeps its level. */
  function DriveLow(levels: map<int, bool>, pins: seq<int>): (r: map<int, bool>)
    ensures r.Keys == levels.Keys + PinSet(pins)
    ensures forall p :: p in pins ==> !r[p]
    ensures forall p :: p in levels && p !in pins ==> r[p] == levels[p]
    decreases |pins|
  {
    if pins == [] then levels
    else DriveLow(levels, pins[..|pins| - 1])[pins[|pins| - 1] := false]
  }

  /** One more step of the boot loop: driving the first `i + 1` pins LOW is
      driving the first `i` and then pin `i`, and configures one more pin. */
  lemma DriveLowStep(levels: map<int, bool>, pins: seq<int>, i: nat)
    requires i < |pins|
    ensures DriveLow(levels, pins[..i + 1]) == DriveLow(levels, pins[..i])[pins[i] := false]
    ensures PinSet(pins[..i + 1]) == PinSet(pins[..i]) + {pins[i]}
  {
  }

  /** Booting: the zero-initialised cache together with the relay pins all
      driven LOW agree, whatever levels the pins powered up with. */
  lemma BootAgrees(powerOn: map<int, bool>)
    ensures Agrees(Board(InitialStates(), DriveLow(powerOn, RelayPins)))
  {
  }

  /** The effect of one `GET /toggle` request on the board. `relay` is the
      request's `relay` parameter after parsing, or None when the request has
      none. An accepted index has its cached state flipped and its pin driven
      to the new state; anything else changes nothing. */
  function Toggle(b: Board, relay: Option<int32>): (r: Board)
    requires |b.states| == RelayCount
    ensures |r.states| == |b.states|
    ensures (relay.None? || !(0 <= relay.value as int < RelayCount)) ==> r == b
  {
    match relay
    case None => b
    case Some(k) =>
      if InRange(k) then
        var on := !b.states[k];
        Board(b.states[k := on], b.levels[RelayPins[k] := on])
      else b
  }

  /** An accepted toggle flips the selected relay and drives its pin HIGH
      exactly when the relay is now on. */
  lemma ToggleFlipsSelected(b: Board, k: int32)
    requires |b.states| == RelayCount
    requires 0 <= k as int < RelayCount
    ensures Toggle(b, Some(k)).states[k] == !b.states[k]
    ensures Toggle(b, Some(k)).levels[RelayPins[k]] == Toggle(b, Some(k)).states[k]
  {
  }

  /** An accepted toggle leaves every other relay's cached state as it was,
      keeps eight states, and touches no pin but the selected relay's: every
      other pin, relay pin or not, stays written or unwritten as before and
      keeps its level. Relay `i`'s pin is one of those other pins. */
  lemma ToggleLeavesOthers(b: Board, k: int32, i: int)
    requires |b.states| == RelayCount
    requires 0 <= k as int < RelayCount
    requires 0 <= i < RelayCount && i != k as int
    ensures |Toggle(b, Some(k)).states| == RelayCount
    ensures Toggle(b, Some(k)).states[i] == b.states[i]
    ensures RelayPins[i] != RelayPins[k]
    ensures forall p :: p != RelayPins[k] ==>
              (p in Toggle(b, Some(k)).levels <==> p in b.levels)
    ensures forall p :: p != RelayPins[k] && p in b.levels ==>
              Toggle(b, Some(k)).levels[p] == b.levels[p]
  {
  }

  /** A request without a `relay` parameter, or with an index outside the
      table (negative or at least eight), changes nothing. */
  lemma ToggleRejected(b: Board, relay: Option<int32>)
    requires |b.states| == RelayCount
    requires relay.None? || !(0 <= relay.value as int < RelayCount)
    ensures Toggle(b, relay) == b
  {
  }

  /** Every request keeps the cache and the hardware in agreement. */
  lemma ToggleKeepsAgreement(b: Board, relay: Option<int32>)
    requires Agrees(b)
    ensures Agrees(Toggle(b, relay))
  {
  }

  /** The same request twice restores the cached states; when cache and
      hardware agreed before, it restores the pin levels as well. */
  lemma ToggleTwice(b: Board, relay: Option<int32>)
    requires |b.states| == RelayCount
    ensures Toggle(Toggle(b, relay), relay).states == b.states
    ensures Agrees(b) ==> Toggle(Toggle(b, relay), relay) == b
  {
  }

  /** A freshly booted eight-relay bank: toggling relay 3 turns it alone on
      and drives pin 26 HIGH; toggling it again turns everything off. */
  lemma ToggleThreeTwiceFromBoot(powerOn: map<int, bool>)
    ensures var b := Board(InitialStates(), DriveLow(powerOn, RelayPins));
            var once := Toggle(b, Some(3));
            && (forall i :: 0 <= i < RelayCount ==> once.states[i] == (i == 3))
            && once.levels[26]
            && Toggle(once, Some(3)) == b
  {
  }
}
