/**
 * What the contract promises, stated over the semantics functions that its
 * methods are proved to implement: when each operation fails, the effect of
 * each on the world state, the invariant that every stored value is a record,
 * that the guard's error texts are told apart, and the lifecycle of a record.
 */
module Properties {
  import opened Wrappers
  import opened Json
  import opened Asset
  import opened WorldState
  import opened Contract

  // ------------------------------------------------------------ errors

  /**
   * A read fault wins for every guarded operation: each returns the wrapped
   * StoreFault and neither writes nor deletes anything.
   */
  lemma StoreFaultWins(w: World, id: string, value: string)
    requires id in w.getFaults
    ensures Create(w, id, value) == Outcome(Some(StoreFault(w.getFaults[id])), w)
    ensures Read(w, id) == Reply(None, Some(StoreFault(w.getFaults[id])))
    ensures Update(w, id, value) == Outcome(Some(StoreFault(w.getFaults[id])), w)
    ensures Delete(w, id) == Outcome(Some(StoreFault(w.getFaults[id])), w)
  {
  }

  /** Every error a guarded operation can return, and when. */
  lemma ErrorKinds(w: World, id: string, value: string)
    ensures Create(w, id, value).err.Some? <==>
      id in w.getFaults || id in w.state || id in w.putFaults
    ensures Update(w, id, value).err.Some? <==>
      id in w.getFaults || id !in w.state || id in w.putFaults
    ensures Delete(w, id).err.Some? <==>
      id in w.getFaults || id !in w.state || id in w.delFaults
    ensures Read(w, id).err.Some? <==>
      id in w.getFaults || id !in w.state || Unmarshal(w.state[id]).None?
  {
  }

  // ------------------------------------------------------------ effects

  /** Keys other than id read the same, and no fault changes. */
  ghost predicate OnlyKeyChanged(w: World, w': World, id: string) {
    && w'.getFaults == w.getFaults && w'.putFaults == w.putFaults && w'.delFaults == w.delFaults
    && forall k :: k != id ==> Lookup(w', k) == Lookup(w, k)
  }

  /** Create on a key that holds a value is rejected and writes nothing. */
  lemma CreateRejectsPresent(w: World, id: string, value: string)
    requires id !in w.getFaults && id in w.state
    ensures Create(w, id, value) == Outcome(Some(AlreadyExists(id)), w)
  {
  }

  /**
   * Create on an absent key puts the record's bytes under exactly that key,
   * after which Exists is true and Read returns the value; when PutState
   * fails, its error is returned and nothing is written.
   */
  lemma CreateWritesOnce(w: World, id: string, value: string)
    requires id !in w.getFaults && id !in w.state
    ensures var o := Create(w, id, value);
      if id in w.putFaults then
        o == Outcome(Some(PutFault(w.putFaults[id])), w)
      else
        && o.err == None
        && o.world.state == w.state[id := Marshal(CryptoMyAsset(value))]
        && OnlyKeyChanged(w, o.world, id)
        && Exists(o.world, id) == (true, None)
        && Read(o.world, id) == Reply(Some(CryptoMyAsset(value)), None)
  {
    UnmarshalMarshal(CryptoMyAsset(value));
  }

  /**
   * Read fails with NotFound on an absent key, with DecodeFault (never
   * NotFound) on bytes that are not a record, and otherwise returns the
   * decoded record.
   */
  lemma ReadPath(w: World, id: string)
    requires id !in w.getFaults
    ensures id !in w.state ==> Read(w, id) == Reply(None, Some(NotFound(id)))
    ensures id in w.state && Unmarshal(w.state[id]).None? ==> Read(w, id) == Reply(None, Some(DecodeFault))
    ensures id in w.state && Unmarshal(w.state[id]).Some? ==> Read(w, id) == Reply(Unmarshal(w.state[id]), None)
  {
  }

  /** Read returns exactly the value that was marshalled under the key. */
  lemma ReadMarshalled(w: World, id: string, value: string)
    requires id !in w.getFaults && id in w.state && w.state[id] == Marshal(CryptoMyAsset(value))
    ensures Read(w, id) == Reply(Some(CryptoMyAsset(value)), None)
  {
    UnmarshalMarshal(CryptoMyAsset(value));
  }

  /**
   * Update on an absent key is NotFound and writes nothing; on a present key
   * it replaces the stored record with one holding only the new value, so
   * Read returns exactly that value, and no other key changes.
   */
  lemma UpdateReplaces(w: World, id: string, newValue: string)
    requires id !in w.getFaults
    ensures id !in w.state ==> Update(w, id, newValue) == Outcome(Some(NotFound(id)), w)
    ensures id in w.state && id in w.putFaults ==>
      Update(w, id, newValue) == Outcome(Some(PutFault(w.putFaults[id])), w)
    ensures id in w.state && id !in w.putFaults ==>
      var o := Update(w, id, newValue);
      && o.err == None
      && o.world.state == w.state[id := Marshal(CryptoMyAsset(newValue))]
      && OnlyKeyChanged(w, o.world, id)
      && Read(o.world, id) == Reply(Some(CryptoMyAsset(newValue)), None)
  {
    UnmarshalMarshal(CryptoMyAsset(newValue));
  }

  /**
   * Delete on an absent key is NotFound and changes nothing; on a present key
   * it removes that key alone, after which Exists is false.
   */
  lemma DeleteRemovesOnlyKey(w: World, id: string)
    requires id !in w.getFaults
    ensures id !in w.state ==> Delete(w, id) == Outcome(Some(NotFound(id)), w)
    ensures id in w.state && id in w.delFaults ==>
      Delete(w, id) == Outcome(Some(DelFault(w.delFaults[id])), w)
    ensures id in w.state && id !in w.delFaults ==>
      var o := Delete(w, id);
      && o.err == None
      && o.world.state == w.state - {id}
      && OnlyKeyChanged(w, o.world, id)
      && Exists(o.world, id) == (false, None)
      && Read(o.world, id) == Reply(None, Some(NotFound(id)))
  {
  }

  // ------------------------------------------------------------ invariant

  /** Every stored value is the encoding of a record. */
  predicate WellFormed(w: World) {
    forall k | k in w.state :: Unmarshal(w.state[k]).Some?
  }

  /** Create, Update and Delete keep every stored value a record. */
  lemma OperationsPreserveWellFormed(w: World, id: string, value: string)
    requires WellFormed(w)
    ensures WellFormed(Create(w, id, value).world)
    ensures WellFormed(Update(w, id, value).world)
    ensures WellFormed(Delete(w, id).world)
  {
    UnmarshalMarshal(CryptoMyAsset(value));
  }

  /** In a world of records, Read never returns DecodeFault. */
  lemma WellFormedReadDecodes(w: World, id: string)
    requires WellFormed(w)
    ensures Read(w, id).err != Some(DecodeFault)
  {
  }

  // ------------------------------------------------------------ lifecycle

  /**
   * A second Create on the same key fails with AlreadyExists, and the value
   * of the first stays stored.
   */
  lemma CreateTwice(w: World, id: string, v1: string, v2: string)
    requires Create(w, id, v1).err == None
    ensures var w1 := Create(w, id, v1).world;
      && Create(w1, id, v2) == Outcome(Some(AlreadyExists(id)), w1)
      && Read(w1, id) == Reply(Some(CryptoMyAsset(v1)), None)
  {
    UnmarshalMarshal(CryptoMyAsset(v1));
  }

  /** After a successful Update, the old value is unreachable. */
  lemma UpdateThenRead(w: World, id: string, v: string)
    requires Update(w, id, v).err == None
    ensures Read(Update(w, id, v).world, id) == Reply(Some(CryptoMyAsset(v)), None)
  {
    UnmarshalMarshal(CryptoMyAsset(v));
  }

  /** After a successful Delete, Exists is false and Read is NotFound. */
  lemma DeleteThenRead(w: World, id: string)
    requires Delete(w, id).err == None
    ensures Exists(Delete(w, id).world, id) == (false, None)
    ensures Read(Delete(w, id).world, id) == Reply(None, Some(NotFound(id)))
  {
  }

  /** A world with no values and no faults. */
  function EmptyWorld(): World {
    World(map[], map[], map[], map[])
  }

  /** A key never written does not exist, and Read, Update and Delete miss it. */
  lemma NeverWritten(id: string, value: string)
    ensures Exists(EmptyWorld(), id) == (false, None)
    ensures Read(EmptyWorld(), id) == Reply(None, Some(NotFound(id)))
    ensures Update(EmptyWorld(), id, value).err == Some(NotFound(id))
    ensures Delete(EmptyWorld(), id).err == Some(NotFound(id))
  {
  }

  /**
   * Create "a" with "1", read it, update it to "2", read it, delete it:
   * each step succeeds and sees the one before.
   */
  lemma Lifecycle()
    ensures var w0 := EmptyWorld();
      var c := Create(w0, "a", "1");
      var u := Update(c.world, "a", "2");
      var d := Delete(u.world, "a");
      && c.err == None && Exists(c.world, "a") == (true, None)
      && Read(c.world, "a") == Reply(Some(CryptoMyAsset("1")), None)
      && u.err == None && Read(u.world, "a") == Reply(Some(CryptoMyAsset("2")), None)
      && d.err == None && Exists(d.world, "a") == (false, None)
      && d.world == w0
  {
    UnmarshalMarshal(CryptoMyAsset("1"));
    UnmarshalMarshal(CryptoMyAsset("2"));
    var w0 := EmptyWorld();
    var d := Delete(Update(Create(w0, "a", "1").world, "a", "2").world, "a");
    assert d.world.state == map[];
  }

  // ------------------------------------------------------------ messages

  /**
   * The shape of each guard error's text: where the key or the stub's error
   * stands in it, and the characters that tell the kinds apart.
   */
  lemma MessageShape(e: ContractError)
    requires !e.PutFault? && !e.DelFault?
    ensures var m := Message(e);
      && |m| > 15
      && (e.StoreFault? ==> m[0] == 'C' && m[10] == 'r' && m[33..] == e.cause)
      && (e.DecodeFault? ==> m[0] == 'C' && m[10] == 'u')
      && (e.AlreadyExists? ==> m[0] == 'T' && m[|m| - 1] == 's' && m[10..|m| - 15] == e.id)
      && (e.NotFound? ==> m[0] == 'T' && m[|m| - 1] == 't' && m[10..|m| - 15] == e.id)
  {
  }

  /** The error texts of the guard are told apart, and name the key they are about. */
  lemma GuardMessagesDistinct(e1: ContractError, e2: ContractError)
    requires !e1.PutFault? && !e1.DelFault? && !e2.PutFault? && !e2.DelFault?
    requires Message(e1) == Message(e2)
    ensures e1 == e2
  {
    MessageShape(e1);
    MessageShape(e2);
  }

  /** The guard's failure to read is reported with the stub's error appended. */
  lemma StoreFaultMessage(w: World, id: string)
    requires id in w.getFaults
    ensures Message(Guard(w, id, MustBePresent).value) == "Could not read from world state. " + w.getFaults[id]
  {
  }
}
