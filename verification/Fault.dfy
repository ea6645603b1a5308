/**
The fault word (apps/rover_controller/src/safety/fault.c): a 32-bit mask updated with or and and-not,
seen as the set of faults it stands for.
*/
module Fault {

  datatype FaultBit = CmdTimeout | AgentLost | Undervoltage | Overcurrent | MotorFeedback | EstopInput | WatchdogExpired

  /** The position of each fault in the word. */
  function Mask(b: FaultBit): bv32 {
    match b
    case CmdTimeout => 0x01
    case AgentLost => 0x02
    case Undervoltage => 0x04
    case Overcurrent => 0x08
    case MotorFeedback => 0x10
    case EstopInput => 0x20
    case WatchdogExpired => 0x40
  }

  /** The faults a mask stands for. */
  function Decode(word: bv32): set<FaultBit> {
    set b: FaultBit | Has(word, Mask(b))
  }

  predicate Has(word: bv32, mask: bv32) {
    word & mask != 0
  }

  /** The faults that stop the robot. */
  const MOTION_FAULTS: set<FaultBit> := {CmdTimeout, AgentLost, Undervoltage, EstopInput, WatchdogExpired}

  const MOTION_MASK: bv32 := 0x01 | 0x02 | 0x04 | 0x20 | 0x40

  /** Setting bits adds their faults. */
  lemma DecodeOr(word: bv32, bits: bv32, result: bv32)
    requires result == word | bits
    ensures Decode(result) == Decode(word) + Decode(bits)
  {
    forall b: FaultBit
      ensures Has(result, Mask(b)) <==> Has(word, Mask(b)) || Has(bits, Mask(b))
    {
      OneBitOr(word, bits, Mask(b));
    }
  }

  /** Clearing bits removes their faults, and nothing else changes. */
  lemma DecodeAndNot(word: bv32, bits: bv32, result: bv32)
    requires result == word & !bits
    ensures Decode(result) == Decode(word) - Decode(bits)
  {
    forall b: FaultBit
      ensures Has(result, Mask(b)) <==> Has(word, Mask(b)) && !Has(bits, Mask(b))
    {
      MaskIsOneBit(b);
      OneBitAndNot(word, bits, Mask(b));
    }
  }

  /** The mask is a single bit. */
  predicate IsOneBit(mask: bv32) {
    mask == 0x01 || mask == 0x02 || mask == 0x04 || mask == 0x08 || mask == 0x10 || mask == 0x20 || mask == 0x40
  }

  lemma MaskIsOneBit(b: FaultBit)
    ensures IsOneBit(Mask(b))
  {
  }

  lemma OneBitOr(word: bv32, bits: bv32, mask: bv32)
    ensures Has(word | bits, mask) <==> Has(word, mask) || Has(bits, mask)
  {
    assert (word | bits) & mask == (word & mask) | (bits & mask);
    OrZero(word & mask, bits & mask);
  }

  lemma OrZero(a: bv32, b: bv32)
    ensures a | b == 0 <==> a == 0 && b == 0
  {
  }

  lemma OneBitAndNot(word: bv32, bits: bv32, mask: bv32)
    requires IsOneBit(mask)
    ensures Has(word & !bits, mask) <==> Has(word, mask) && !Has(bits, mask)
  {
    AndNot(word, bits, mask);
  }

  lemma AndNot(word: bv32, bits: bv32, mask: bv32)
    requires IsOneBit(mask)
    ensures (word & !bits) & mask != 0 <==> word & mask != 0 && bits & mask == 0
  {
  }

  lemma DecodeMasks()
    ensures Decode(0) == {}
    ensures forall b: FaultBit :: Decode(Mask(b)) == {b}
    ensures Decode(MOTION_MASK) == MOTION_FAULTS
  {
  }

  /** The bit of each fault, as the firmware's header numbers them. */
  lemma BitPositions()
    ensures Decode(0x01) == {CmdTimeout} && Decode(0x02) == {AgentLost} && Decode(0x04) == {Undervoltage}
    ensures Decode(0x08) == {Overcurrent} && Decode(0x10) == {MotorFeedback}
    ensures Decode(0x20) == {EstopInput} && Decode(0x40) == {WatchdogExpired}
  {
    DecodeMasks();
    assert Decode(Mask(CmdTimeout)) == {CmdTimeout} && Decode(Mask(AgentLost)) == {AgentLost};
    assert Decode(Mask(Undervoltage)) == {Undervoltage} && Decode(Mask(Overcurrent)) == {Overcurrent};
    assert Decode(Mask(MotorFeedback)) == {MotorFeedback} && Decode(Mask(EstopInput)) == {EstopInput};
    assert Decode(Mask(WatchdogExpired)) == {WatchdogExpired};
  }

  /** The motion test reads exactly the five motion faults, whatever other bits of the word are set. */
  lemma MotionTest(word: bv32)
    ensures word & MOTION_MASK != 0 <==> Decode(word) * MOTION_FAULTS != {}
    ensures word & MOTION_MASK != 0
       <==> || CmdTimeout in Decode(word) || AgentLost in Decode(word) || Undervoltage in Decode(word)
            || EstopInput in Decode(word) || WatchdogExpired in Decode(word)
  {
    MotionBits(word);
    assert CmdTimeout in Decode(word) <==> word & 0x01 != 0;
    assert AgentLost in Decode(word) <==> word & 0x02 != 0;
    assert Undervoltage in Decode(word) <==> word & 0x04 != 0;
    assert EstopInput in Decode(word) <==> word & 0x20 != 0;
    assert WatchdogExpired in Decode(word) <==> word & 0x40 != 0;
    var active := Decode(word) * MOTION_FAULTS;
    if word & MOTION_MASK != 0 {
      assert CmdTimeout in active || AgentLost in active || Undervoltage in active
          || EstopInput in active || WatchdogExpired in active;
    }
  }

  lemma MotionBits(word: bv32)
    ensures word & MOTION_MASK != 0
       <==> word & 0x01 != 0 || word & 0x02 != 0 || word & 0x04 != 0 || word & 0x20 != 0 || word & 0x40 != 0
  {
  }

  /** No motion fault is active exactly if at most an overcurrent and a motor feedback fault are. */
  lemma OnlyOtherFaults(faults: set<FaultBit>)
    ensures faults * MOTION_FAULTS == {} <==> faults <= {Overcurrent, MotorFeedback}
  {
    if faults * MOTION_FAULTS == {} {
      forall b | b in faults
        ensures b in {Overcurrent, MotorFeedback}
      {
        assert b !in faults * MOTION_FAULTS;
        StopsOrNot(b);
      }
    }
  }

  lemma StopsOrNot(b: FaultBit)
    ensures b in MOTION_FAULTS <==> b !in {Overcurrent, MotorFeedback}
  {
    match b
    case CmdTimeout =>
    case AgentLost =>
    case Undervoltage =>
    case Overcurrent =>
    case MotorFeedback =>
    case EstopInput =>
    case WatchdogExpired =>
  }

  class FaultWord {
    var word: bv32

    ghost function Active(): set<FaultBit>
      reads this
    {
      Decode(word)
    }

    constructor ()
      ensures Active() == {}
    {
      word := 0;
    }

    method Init()
      modifies this
      ensures Active() == {}
    {
      word := 0;
    }

    method Set(bits: bv32)
      modifies this
      ensures Active() == old(Active()) + Decode(bits)
    {
      DecodeOr(word, bits, word | bits);
      word := word | bits;
    }

    method Clear(bits: bv32)
      modifies this
      ensures Active() == old(Active()) - Decode(bits)
    {
      DecodeAndNot(word, bits, word & !bits);
      word := word & !bits;
    }

    method IsSet(bits: bv32) returns (r: bool)
      ensures r <==> word & bits != 0
    {
      r := word & bits != 0;
    }

    method MotionInhibited() returns (r: bool)
      ensures r <==> Active() * MOTION_FAULTS != {}
      ensures r <==> || CmdTimeout in Active() || AgentLost in Active() || Undervoltage in Active()
                     || EstopInput in Active() || WatchdogExpired in Active()
    {
      r := IsSet(MOTION_MASK);
      MotionTest(word);
    }
  }
}
