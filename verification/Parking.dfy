/** The parker's token (src/wake/parker.rs): the state behind its lock, and the object. */
module Parking {

  /** `woken` is the token; `parked` asks the next wake to notify. */
  datatype Token = Token(woken: bool, parked: bool)

  /** What a pass through the parker's lock decides. */
  datatype Verdict = Return | Wait

  /** A wake's critical section: set the token, claim the notify. */
  function Wake(t: Token): (Token, bool) {
    (Token(true, false), t.parked)
  }

  /** A sleeper's look at the token, on each turn of the wait loop. */
  function Look(t: Token, expired: bool): (Token, Verdict) {
    if t.woken then (t.(woken := false), Return)
    else if expired then (t.(parked := false), Return)
    else (t, Wait)
  }

  /** The first pass: a token already set is consumed without asking for a notify. */
  function Enter(t: Token, expired: bool): (Token, Verdict) {
    if t.woken then (t.(woken := false), Return) else Look(t.(parked := true), expired)
  }

  /** The parker as an object. Its two critical sections change the fields in place. */
  class Parker {
    var woken: bool
    var parked: bool

    ghost function View(): Token
      reads this
    {
      Token(woken, parked)
    }

    constructor ()
      ensures View() == Token(false, false)
    {
      woken, parked := false, false;
    }

    method WakeByRef() returns (notify: bool)
      modifies this
      ensures (View(), notify) == Wake(old(View()))
    {
      woken := true;
      notify := parked;
      parked := false;
    }

    /** One turn of the wait loop, the lock held. */
    method Turn(expired: bool) returns (verdict: Verdict)
      modifies this
      ensures (View(), verdict) == Look(old(View()), expired)
    {
      if woken {
        woken := false;
        return Return;
      }
      if expired {
        parked := false;
        return Return;
      }
      verdict := Wait;
    }

    /** From the lock to the first wait or the return. */
    method Sleep(expired: bool) returns (verdict: Verdict)
      modifies this
      ensures (View(), verdict) == Enter(old(View()), expired)
    {
      if woken {
        woken := false;
        return Return;
      }
      parked := true;
      verdict := Turn(expired);
    }
  }
}
