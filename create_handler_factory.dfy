/**
 * `createHandlerFactory`: a dictionary from id to callback with broadcast,
 * insert, delete and clear operations.
 */
module CreateHandlerFactory {
  import opened Wrappers

  class HandlerRegistry<H> {
    var callbacks: map<int, H>

    constructor ()
      ensures callbacks == map[]
    {
      callbacks := map[];
    }

    /**
     * `handle(...args)`: the ids whose callbacks are called, each exactly once;
     * handle itself adds and removes no entry.
     */
    method Handle() returns (invoked: seq<int>)
      ensures forall id :: id in invoked <==> id in callbacks
      ensures forall i, j :: 0 <= i < j < |invoked| ==> invoked[i] != invoked[j]
      ensures |invoked| == |callbacks|
    {
      invoked := [];
      var todo := callbacks.Keys;
      while todo != {}
        invariant todo <= callbacks.Keys
        invariant forall i :: 0 <= i < |invoked| ==> invoked[i] in callbacks && invoked[i] !in todo
        invariant forall id :: id in callbacks && id !in todo ==> id in invoked
        invariant forall i, j :: 0 <= i < j < |invoked| ==> invoked[i] != invoked[j]
        invariant |invoked| + |todo| == |callbacks.Keys|
        decreases todo
      {
        var k := Choose(todo);
        invoked := invoked + [k];
        todo := todo - {k};
      }
    }

    /** `onHandle(id, callback)`: stores the callback under `id`, replacing any earlier one. */
    method OnHandle(id: int, callback: H)
      modifies this
      ensures callbacks == old(callbacks)[id := callback]
    {
      callbacks := callbacks[id := callback];
    }

    /** `del(id)`: removes that id only. */
    method Del(id: int)
      modifies this
      ensures callbacks == old(callbacks) - {id}
    {
      callbacks := callbacks - {id};
    }

    /** `destroy()`: deletes every key of a snapshot of the keys, leaving the registry empty. */
    method Destroy()
      modifies this
      ensures callbacks == map[]
    {
      var ids := callbacks.Keys;
      ghost var snapshot := ids;
      while ids != {}
        invariant ids <= snapshot
        invariant callbacks == old(callbacks) - (snapshot - ids)
        decreases ids
      {
        var k := Choose(ids);
        callbacks := callbacks - {k};
        ids := ids - {k};
      }
      assert callbacks.Keys == {};
    }
  }
}
