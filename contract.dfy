/**
 * The CryptoMyAsset contract: five operations over the world state, each of
 * the four guarded ones checking whether the key holds a value before it
 * acts. The pure functions give the meaning of each operation as a function
 * of the world it starts from; the methods carry out the source's sequence of
 * stub calls and are proved to have exactly that meaning.
 */
module Contract {
  import opened Wrappers
  import opened Json
  import opened Asset
  import opened WorldState

  /** The errors the guarded operations return. */
  datatype ContractError =
    | StoreFault(cause: Cause)      // GetState failed during the existence check
    | AlreadyExists(id: string)     // Create on a key that holds a value
    | NotFound(id: string)          // Read, Update or Delete on a key that holds none
    | DecodeFault                   // the stored bytes are not a record
    | PutFault(cause: Cause)        // PutState failed; its error is returned as it is
    | DelFault(cause: Cause)        // DelState failed; its error is returned as it is

  /**
   * The text of each error, as the contract formats it. A guard error's text
   * is a fixed frame around the stub's error or the key; a put or delete
   * error is the stub's own text.
   */
  function Message(e: ContractError): (m: string)
    ensures e.PutFault? || e.DelFault? ==> m == e.cause
    ensures e.StoreFault? ==> |m| == 33 + |e.cause|
    ensures e.AlreadyExists? || e.NotFound? ==> |m| == 25 + |e.id|
  {
    match e
    case StoreFault(cause) => "Could not read from world state. " + cause
    case AlreadyExists(id) => "The asset " + id + " already exists"
    case NotFound(id) => "The asset " + id + " does not exist"
    // Two literals: the verifier can index into a literal only up to a certain length.
    case DecodeFault => "Could not unmarshal " + "world state data to type CryptoMyAsset"
    case PutFault(cause) => cause
    case DelFault(cause) => cause
  }

  // ------------------------------------------------------------ semantics

  /** Which answer of the existence check lets an operation go ahead. */
  datatype Expect = MustBeAbsent | MustBePresent

  /**
   * The result of Exists: GetState's error for the key, unchanged, and true
   * exactly when there is no error and the key holds a value.
   */
  function Exists(w: World, id: string): (r: (bool, Option<Cause>))
    ensures r.1 == (if id in w.getFaults then Some(w.getFaults[id]) else None)
    ensures r.0 <==> id !in w.getFaults && id in w.state
  {
    match Lookup(w, id)
    case Failure(cause) => (false, Some(cause))
    case Success(data) => (data.Some?, None)
  }

  /**
   * The existence guard shared by Create (MustBeAbsent) and by Read, Update
   * and Delete (MustBePresent): a read fault first, then the wrong answer.
   */
  function Guard(w: World, id: string, want: Expect): (r: Option<ContractError>)
    ensures id in w.getFaults ==> r == Some(StoreFault(w.getFaults[id]))
    ensures id !in w.getFaults && id in w.state ==>
      r == if want == MustBeAbsent then Some(AlreadyExists(id)) else None
    ensures id !in w.getFaults && id !in w.state ==>
      r == if want == MustBePresent then Some(NotFound(id)) else None
  {
    var (present, err) := Exists(w, id);
    if err.Some? then Some(StoreFault(err.value))
    else if want == MustBeAbsent && present then Some(AlreadyExists(id))
    else if want == MustBePresent && !present then Some(NotFound(id))
    else None
  }

  /** What a state-changing operation returns, and the world afterwards. */
  datatype Outcome = Outcome(err: Option<ContractError>, world: World)

  /** What Read returns: a record, or an error. */
  datatype Reply = Reply(asset: Option<CryptoMyAsset>, err: Option<ContractError>)

  /**
   * Create: only id's value may change, never a fault table; a failure
   * changes nothing, a success leaves id holding a value.
   */
  function Create(w: World, id: string, value: string): (r: Outcome)
    ensures r.err.Some? ==> r.world == w
    ensures r.err.None? ==> id in r.world.state && r.world.state - {id} == w.state - {id}
    ensures r.world.getFaults == w.getFaults && r.world.putFaults == w.putFaults && r.world.delFaults == w.delFaults
  {
    match Guard(w, id, MustBeAbsent)
    case Some(e) => Outcome(Some(e), w)
    case None =>
      var (perr, w') := Put(w, id, Marshal(CryptoMyAsset(value)));
      Outcome(if perr.Some? then Some(PutFault(perr.value)) else None, w')
  }

  /** Read: a record exactly when no error, and then the decoding of id's bytes. */
  function Read(w: World, id: string): (r: Reply)
    ensures r.asset.Some? <==> r.err.None?
    ensures r.asset.Some? ==> id !in w.getFaults && id in w.state && Unmarshal(w.state[id]) == r.asset
  {
    match Guard(w, id, MustBePresent)
    case Some(e) => Reply(None, Some(e))
    case None =>
      match Unmarshal(w.state[id])
      case None => Reply(None, Some(DecodeFault))
      case Some(a) => Reply(Some(a), None)
  }

  /**
   * Update: only id's value may change, never a fault table; a failure
   * changes nothing, a success is only possible on a key that held a value.
   */
  function Update(w: World, id: string, newValue: string): (r: Outcome)
    ensures r.err.Some? ==> r.world == w
    ensures r.err.None? ==> id in w.state && id in r.world.state && r.world.state - {id} == w.state - {id}
    ensures r.world.getFaults == w.getFaults && r.world.putFaults == w.putFaults && r.world.delFaults == w.delFaults
  {
    match Guard(w, id, MustBePresent)
    case Some(e) => Outcome(Some(e), w)
    case None =>
      var (perr, w') := Put(w, id, Marshal(CryptoMyAsset(newValue)));
      Outcome(if perr.Some? then Some(PutFault(perr.value)) else None, w')
  }

  /**
   * Delete: only id may change, never a fault table; a failure changes
   * nothing, a success removes a key that held a value.
   */
  function Delete(w: World, id: string): (r: Outcome)
    ensures r.err.Some? ==> r.world == w
    ensures r.err.None? ==> id in w.state && r.world.state == w.state - {id}
    ensures r.world.getFaults == w.getFaults && r.world.putFaults == w.putFaults && r.world.delFaults == w.delFaults
  {
    match Guard(w, id, MustBePresent)
    case Some(e) => Outcome(Some(e), w)
    case None =>
      var (derr, w') := Del(w, id);
      Outcome(if derr.Some? then Some(DelFault(derr.value)) else None, w')
  }

  // ------------------------------------------------------------ operations

  /**
   * True when the key holds a value. A GetState error is returned unchanged,
   * with false.
   */
  method CryptoMyAssetExists(stub: Stub, id: string) returns (present: bool, err: Option<Cause>)
    ensures (present, err) == Exists(stub.View(), id)
  {
    var data := stub.GetState(id);
    if data.Failure? {
      return false, Some(data.error);
    }
    return data.value.Some?, None;
  }

  method CreateCryptoMyAsset(stub: Stub, id: string, value: string) returns (err: Option<ContractError>)
    modifies stub
    ensures Outcome(err, stub.View()) == Create(old(stub.View()), id, value)
  {
    var present, e := CryptoMyAssetExists(stub, id);
    if e.Some? {
      return Some(StoreFault(e.value));
    } else if present {
      return Some(AlreadyExists(id));
    }
    var asset := CryptoMyAsset(value);
    var bytes := Marshal(asset);
    var perr := stub.PutState(id, bytes);
    return if perr.Some? then Some(PutFault(perr.value)) else None;
  }

  method ReadCryptoMyAsset(stub: Stub, id: string) returns (asset: Option<CryptoMyAsset>, err: Option<ContractError>)
    ensures Reply(asset, err) == Read(stub.View(), id)
  {
    var present, e := CryptoMyAssetExists(stub, id);
    if e.Some? {
      return None, Some(StoreFault(e.value));
    } else if !present {
      return None, Some(NotFound(id));
    }
    // The source fetches the bytes a second time and ignores that call's error.
    var data := stub.GetState(id);
    var bytes := if data.Success? && data.value.Some? then data.value.value else [];
    var decoded := Unmarshal(bytes);
    if decoded.None? {
      return None, Some(DecodeFault);
    }
    return decoded, None;
  }

  method UpdateCryptoMyAsset(stub: Stub, id: string, newValue: string) returns (err: Option<ContractError>)
    modifies stub
    ensures Outcome(err, stub.View()) == Update(old(stub.View()), id, newValue)
  {
    var present, e := CryptoMyAssetExists(stub, id);
    if e.Some? {
      return Some(StoreFault(e.value));
    } else if !present {
      return Some(NotFound(id));
    }
    var asset := CryptoMyAsset(newValue);
    var bytes := Marshal(asset);
    var perr := stub.PutState(id, bytes);
    return if perr.Some? then Some(PutFault(perr.value)) else None;
  }

  method DeleteCryptoMyAsset(stub: Stub, id: string) returns (err: Option<ContractError>)
    modifies stub
    ensures Outcome(err, stub.View()) == Delete(old(stub.View()), id)
  {
    var present, e := CryptoMyAssetExists(stub, id);
    if e.Some? {
      return Some(StoreFault(e.value));
    } else if !present {
      return Some(NotFound(id));
    }
    var derr := stub.DelState(id);
    return if derr.Some? then Some(DelFault(derr.value)) else None;
  }
}
