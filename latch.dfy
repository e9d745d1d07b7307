/**
 * The Latch of test/Latch.h: a two-bit clocked edge detector. `state` is the last signal
 * clocked in; `edge` says whether that clock changed the state.
 */
module Latch {
  class Latch {
    var state: bool
    var edge: bool

    /** The default Latch: low, with no edge. */
    constructor ()
      ensures !state && !edge
    {
      state := false;
      edge := false;
    }

    constructor Make(state: bool, edge: bool)
      ensures this.state == state && this.edge == edge
    {
      this.state := state;
      this.edge := edge;
    }

    /** Clocks in a signal: there is an edge exactly when the signal differs from the
        state it replaces. */
    method Clock(signal: bool)
      modifies this
      ensures state == signal
      ensures edge <==> signal != old(state)
    {
      edge := signal != state;
      state := signal;
    }

    function IsHigh(): bool
      reads this
    {
      state
    }

    function IsEdge(): bool
      reads this
    {
      edge
    }

    function IsLow(): bool
      reads this
    {
      !IsHigh()
    }

    /** A falling edge: the last clock took the state from high to low. */
    function IsFall(): bool
      reads this
    {
      IsEdge() && IsLow()
    }

    /** A rising edge: the last clock took the state from low to high. */
    function IsRise(): bool
      reads this
    {
      IsEdge() && IsHigh()
    }

    /** Latches are equal exactly when both their state and their edge match. */
    function Equals(rhs: Latch): bool
      reads this, rhs
    {
      state == rhs.state && edge == rhs.edge
    }

    /** `!=` asks `rhs == *this`, the other way round; equality is symmetric, so it is
        exactly the negation of this latch's `==`. */
    function NotEquals(rhs: Latch): (r: bool)
      reads this, rhs
      ensures r <==> !Equals(rhs)
      ensures r <==> state != rhs.state || edge != rhs.edge
    {
      !rhs.Equals(this)
    }

    /** A latch is never rising and falling at once, and an edge is one or the other. */
    lemma RiseOrFall()
      ensures !(IsRise() && IsFall())
      ensures IsEdge() <==> IsRise() || IsFall()
    {
    }
  }

  /** Clocking a signal and then the same signal again: the second clock leaves the latch
      at that signal with no edge, whatever the first one did. */
  method ClockTwice(latch: Latch, signal: bool)
    modifies latch
    ensures latch.state == signal && !latch.edge
    ensures !latch.IsRise() && !latch.IsFall()
  {
    latch.Clock(signal);
    latch.Clock(signal);
  }

  /** The transitions of a clock from each state, as the latch test lists them: a rise
      from low on high, a fall from high on low, and nothing otherwise. */
  method ClockFrom(state: bool, edge: bool, signal: bool) returns (rise: bool, fall: bool, high: bool)
    ensures high == signal
    ensures rise <==> !state && signal
    ensures fall <==> state && !signal
  {
    var latch := new Latch.Make(state, edge);
    latch.Clock(signal);
    rise, fall, high := latch.IsRise(), latch.IsFall(), latch.IsHigh();
  }
}
