/** The relay bank as the firmware keeps it: a global array of cached relay
    states that the `/toggle` handler updates in place, and the GPIO pins that
    `pinMode` and `digitalWrite` act on. */
module RelayBoard {
  import opened Relays

  /** The reply a request handler sends: status code, content type, body. */
  datatype Response = Response(status: nat, contentType: string, body: string)

  class RelayBank {
    /** `relayStates`: the cached on/off state of each relay. */
    var states: array<bool>
    /** The level each GPIO pin was last driven to by `digitalWrite`
        (true is HIGH); a pin never written has no entry. */
    var pinLevel: map<int, bool>
    /** The pins configured as outputs by `pinMode(pin, OUTPUT)`. */
    var outputs: set<int>

    /** `relayStates` has one entry per relay pin. */
    ghost predicate Valid()
      reads this
    {
      states.Length == RelayCount
    }

    /** The state the relay operations act on, as a value. */
    ghost function View(): Board
      reads this, states
    {
      Board(states[..], pinLevel)
    }

    /** The bank before `setup` runs: `relayStates` zero-initialised, no pin
        configured, the pins at whatever levels they powered up with. */
    constructor (powerOn: map<int, bool>)
      ensures Valid() && fresh(states)
      ensures states[..] == InitialStates()
      ensures pinLevel == powerOn && outputs == {}
    {
      states := new bool[RelayCount](_ => false);
      pinLevel := powerOn;
      outputs := {};
    }

    /** The pin loop of `setup`: configures every relay pin as an output and
        drives it LOW, in table order. The cached states are not touched. */
    method InitPins()
      requires Valid()
      modifies this`pinLevel, this`outputs
      ensures Valid() && states[..] == old(states[..])
      ensures pinLevel == DriveLow(old(pinLevel), RelayPins)
      ensures outputs == old(outputs) + PinSet(RelayPins)
    {
      for i := 0 to RelayCount
        invariant pinLevel == DriveLow(old(pinLevel), RelayPins[..i])
        invariant outputs == old(outputs) + PinSet(RelayPins[..i])
      {
        DriveLowStep(old(pinLevel), RelayPins, i);
        outputs := outputs + {RelayPins[i]};
        pinLevel := pinLevel[RelayPins[i] := false];
      }
      assert RelayPins[..RelayCount] == RelayPins;
    }

    /** The `/toggle` handler. `relay` is the parsed `relay` parameter, None
        when the request has none. The bank changes as `Toggle` says, and the
        reply is 200 "OK" whether or not the index was accepted. */
    method HandleToggle(relay: Option<int32>) returns (reply: Response)
      requires Valid()
      modifies states, this`pinLevel
      ensures Valid()
      ensures View() == Toggle(old(View()), relay)
      ensures Agrees(old(View())) ==> Agrees(View())
      ensures reply == Response(200, "text/plain", "OK")
    {
      if relay.Some? {
        var k := relay.value;
        if k >= 0 && ToSize(k) < RelayCount {
          states[k] := !states[k];
          pinLevel := pinLevel[RelayPins[k] := states[k]];
        }
      }
      reply := Response(200, "text/plain", "OK");
      if Agrees(old(View())) {
        ToggleKeepsAgreement(old(View()), relay);
      }
    }
  }

  /** Start-up as far as the relays go: the static initialisation of
      `relayStates` followed by the pin loop of `setup`. Afterwards every relay
      is off, every relay pin is an output driven LOW, and the cache and the
      hardware agree; no other pin is configured or written. */
  method Boot(powerOn: map<int, bool>) returns (bank: RelayBank)
    ensures fresh(bank) && fresh(bank.states) && bank.Valid()
    ensures bank.states[..] == InitialStates()
    ensures forall i :: 0 <= i < RelayCount ==>
              RelayPins[i] in bank.outputs && RelayPins[i] in bank.pinLevel && !bank.pinLevel[RelayPins[i]]
    ensures Agrees(bank.View())
    ensures bank.pinLevel == DriveLow(powerOn, RelayPins)
    ensures bank.outputs == PinSet(RelayPins)
  {
    bank := new RelayBank(powerOn);
    bank.InitPins();
    BootAgrees(powerOn);
    forall i | 0 <= i < RelayCount
      ensures RelayPins[i] in bank.outputs
    {
      assert RelayPins[i] in RelayPins;
    }
  }
}
