/**
 * The handshake timeout guard: a single-shot host timer that, unless stopped
 * first, hands a ConnectionTimeout error to its callback. The host timer is
 * explicit state; its expiry is the step `Expire`.
 */
module Timeout {
  import opened Wrappers
  import opened PenpalError

  datatype TimerState = Unarmed | Armed | Stopped | Fired

  /** The number a string of decimal digits denotes, most significant digit first. */
  function DigitsValue(s: string): nat
    requires forall i :: 0 <= i < |s| ==> '0' <= s[i] <= '9'
  {
    if s == [] then 0 else DigitsValue(s[..|s| - 1]) * 10 + (s[|s| - 1] as int - '0' as int)
  }

  /**
   * Decimal digits of a natural number, as template-literal interpolation
   * writes it: the shortest spelling (no leading zero) that denotes `n`.
   */
  function NatToString(n: nat): (s: string)
    ensures |s| >= 1
    ensures forall i :: 0 <= i < |s| ==> '0' <= s[i] <= '9'
    ensures DigitsValue(s) == n
    ensures |s| > 1 ==> s[0] != '0'
    decreases n
  {
    var d := ['0' + (n % 10) as char];
    if n < 10 then d
    else
      var prefix := NatToString(n / 10);
      assert (prefix + d)[..|prefix + d| - 1] == prefix;
      prefix + d
  }

  /** An integer number of milliseconds as a string, with a leading `-` when negative. */
  function NumberToString(n: int): string
  {
    if n < 0 then "-" + NatToString(-n) else NatToString(n)
  }

  class Timer {
    /** The message of the error handed to the callback on expiry. */
    const expiryMessage: string
    var state: TimerState

    /** `startTimeout` (src/utils.ts): arms a timer only when a timeout is given. */
    constructor StartTimeout(timeout: Option<int>)
      ensures state == (if timeout.Some? then Armed else Unarmed)
      ensures timeout.Some? ==>
        expiryMessage == "Connection timed out after " + NumberToString(timeout.value) + "ms"
    {
      expiryMessage := if timeout.Some?
        then "Connection timed out after " + NumberToString(timeout.value) + "ms"
        else "";
      state := if timeout.Some? then Armed else Unarmed;
    }

    /** `connectionTimeout` (src/option.ts): the same guard with its own message text. */
    constructor ConnectionTimeout(timeout: Option<int>)
      ensures state == (if timeout.Some? then Armed else Unarmed)
      ensures timeout.Some? ==>
        expiryMessage == "握手连接超时(" + NumberToString(timeout.value) + "ms)"
    {
      expiryMessage := if timeout.Some?
        then "握手连接超时(" + NumberToString(timeout.value) + "ms)"
        else "";
      state := if timeout.Some? then Armed else Unarmed;
    }

    /** The returned stop function: clears an armed timer; without one, or after expiry, it does nothing. */
    method Stop()
      modifies this
      ensures state == (if old(state) == Armed then Stopped else old(state))
    {
      if state == Armed {
        state := Stopped;
      }
    }

    /**
     * The host timer expires: only an armed timer runs the callback, which
     * receives a fresh error coded ConnectionTimeout.
     */
    method Expire() returns (error: Option<JsError>)
      modifies this
      ensures error.Some? <==> old(state) == Armed
      ensures old(state) == Armed ==> state == Fired
      ensures old(state) != Armed ==> state == old(state)
      ensures error.Some? ==>
        CodeOf(error.value) == Some(PenpalError.ConnectionTimeout)
        && Get(error.value, "message") == Str(expiryMessage)
    {
      if state == Armed {
        state := Fired;
        error := Some(CreatePenpalError(PenpalError.ConnectionTimeout, expiryMessage));
      } else {
        error := None;
      }
    }
  }
}
