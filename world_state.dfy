/**
 * The world state the contract reaches through its transaction context's
 * stub: a map from keys to stored bytes, and, for each of GetState, PutState
 * and DelState, the keys on which that call fails and the error it fails
 * with. A key absent from the map is one for which GetState returns nil.
 */
module WorldState {
  import opened Wrappers
  import opened Json

  /** The text of an error returned by the stub. */
  type Cause = string

  datatype World = World(
    state: map<string, Bytes>,
    getFaults: map<string, Cause>,
    putFaults: map<string, Cause>,
    delFaults: map<string, Cause>)

  /** What GetState returns: its error, or the stored bytes (None for nil). */
  function Lookup(w: World, key: string): (r: Result<Option<Bytes>, Cause>)
    ensures r.Failure? <==> key in w.getFaults
    ensures r.Success? ==> (r.value.Some? <==> key in w.state)
  {
    if key in w.getFaults then Failure(w.getFaults[key])
    else if key in w.state then Success(Some(w.state[key]))
    else Success(None)
  }

  /** What PutState returns, and the world afterwards. */
  function Put(w: World, key: string, value: Bytes): (r: (Option<Cause>, World))
    ensures r.0.Some? <==> key in w.putFaults
    ensures r.0.Some? ==> r.1 == w
    ensures r.0.None? ==> r.1.state == w.state[key := value]
    ensures r.1.getFaults == w.getFaults && r.1.putFaults == w.putFaults && r.1.delFaults == w.delFaults
  {
    if key in w.putFaults then (Some(w.putFaults[key]), w)
    else (None, w.(state := w.state[key := value]))
  }

  /** What DelState returns, and the world afterwards. */
  function Del(w: World, key: string): (r: (Option<Cause>, World))
    ensures r.0.Some? <==> key in w.delFaults
    ensures r.0.Some? ==> r.1 == w
    ensures r.0.None? ==> r.1.state == w.state - {key}
    ensures r.1.getFaults == w.getFaults && r.1.putFaults == w.putFaults && r.1.delFaults == w.delFaults
  {
    if key in w.delFaults then (Some(w.delFaults[key]), w)
    else (None, w.(state := w.state - {key}))
  }

  class Stub {
    var state: map<string, Bytes>
    var getFaults: map<string, Cause>
    var putFaults: map<string, Cause>
    var delFaults: map<string, Cause>

    function View(): World
      reads this
    {
      World(state, getFaults, putFaults, delFaults)
    }

    constructor (w: World)
      ensures View() == w
    {
      state, getFaults, putFaults, delFaults := w.state, w.getFaults, w.putFaults, w.delFaults;
    }

    method GetState(key: string) returns (r: Result<Option<Bytes>, Cause>)
      ensures r == Lookup(View(), key)
    {
      if key in getFaults {
        r := Failure(getFaults[key]);
      } else if key in state {
        r := Success(Some(state[key]));
      } else {
        r := Success(None);
      }
    }

    method PutState(key: string, value: Bytes) returns (err: Option<Cause>)
      modifies this
      ensures (err, View()) == Put(old(View()), key, value)
    {
      if key in putFaults {
        err := Some(putFaults[key]);
      } else {
        err := None;
        state := state[key := value];
      }
    }

    method DelState(key: string) returns (err: Option<Cause>)
      modifies this
      ensures (err, View()) == Del(old(View()), key)
    {
      if key in delFaults {
        err := Some(delFaults[key]);
      } else {
        err := None;
        state := state - {key};
      }
    }
  }
}
