/**
 * The lifecycle coordinator: a list of teardown callbacks and a `destroyed`
 * flag. Callbacks are data; `Destroy` and `OnDestroy` return the invocations
 * they perform, in order, and the owner of the callbacks carries them out.
 */
module CreateDestructor {
  import opened Wrappers
  import opened PenpalError

  /** One call of a teardown callback, with the error it receives (none for `callback()`). */
  datatype Invocation<C> = Invocation(callback: C, error: Option<JsError>)

  class Destructor<C> {
    var callbacks: seq<C>
    var destroyed: bool

    /** `createDestructor`: no callbacks, not destroyed. */
    constructor ()
      ensures callbacks == [] && !destroyed
    {
      callbacks := [];
      destroyed := false;
    }

    /**
     * `destroy(error)`: the first call marks the destructor destroyed and runs
     * every registered callback once, in registration order, with `error`;
     * any later call runs nothing. The list itself is kept.
     */
    method Destroy(error: Option<JsError>) returns (invoked: seq<Invocation<C>>)
      modifies this`destroyed
      ensures destroyed
      ensures old(destroyed) ==> invoked == []
      ensures !old(destroyed) ==>
        |invoked| == |callbacks| &&
        forall i :: 0 <= i < |callbacks| ==> invoked[i] == Invocation(callbacks[i], error)
    {
      invoked := [];
      if !destroyed {
        destroyed := true;
        var i := 0;
        while i < |callbacks|
          invariant 0 <= i <= |callbacks|
          invariant |invoked| == i
          invariant forall j :: 0 <= j < i ==> invoked[j] == Invocation(callbacks[j], error)
        {
          invoked := invoked + [Invocation(callbacks[i], error)];
          i := i + 1;
        }
      }
    }

    /**
     * `onDestroy(callback)`: before destruction the callback is appended and
     * not run; afterwards it is run at once, without an error, and not stored.
     */
    method OnDestroy(callback: C) returns (ran: Option<Invocation<C>>)
      modifies this`callbacks
      ensures old(destroyed) ==> ran == Some(Invocation(callback, None)) && callbacks == old(callbacks)
      ensures !old(destroyed) ==> ran == None && callbacks == old(callbacks) + [callback]
    {
      if destroyed {
        ran := Some(Invocation(callback, None));
      } else {
        callbacks := callbacks + [callback];
        ran := None;
      }
    }
  }
}
