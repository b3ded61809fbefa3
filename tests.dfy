/**
 * The contract's unit tests as lemmas: the mock stub of the test file is a
 * fixed world, and each test's assertions are stated about the semantics
 * functions the contract's methods implement.
 */
module ContractTests {
  import opened Wrappers
  import opened Json
  import opened Asset
  import opened WorldState
  import opened Contract

  const GetStateError: Cause := "world state get error"

  /**
   * The mock stub: GetState fails on "statebad", finds nothing under
   * "missingkey", finds bytes that are not a record under "existingkey" and
   * the record "set value" under "cryptoMyAssetkey"; PutState and DelState
   * always succeed.
   */
  function MockWorld(): World {
    World(
      map["existingkey" := Ascii("some value"),
          "cryptoMyAssetkey" := WireForm("set value")],
      map["statebad" := GetStateError],
      map[], map[])
  }

  /** The message of every guarded operation on "statebad". */
  const ReadFaultMessage: string := "Could not read from world state. " + GetStateError

  /** Which of the mock's tables hold each key the tests use. */
  lemma MockKeys()
    ensures var w := MockWorld();
      && "statebad" in w.getFaults
      && "missingkey" !in w.getFaults && "missingkey" !in w.state
      && "existingkey" !in w.getFaults && "existingkey" in w.state
      && "cryptoMyAssetkey" !in w.getFaults && "cryptoMyAssetkey" in w.state
      && w.putFaults == map[] && w.delFaults == map[]
  {
  }

  /** The not-found text the tests expect, written out. */
  lemma MissingKeyText()
    ensures Message(NotFound("missingkey")) == "The asset missingkey does not exist"
  {
  }

  /** The already-exists text the tests expect, written out. */
  lemma ExistingKeyText()
    ensures Message(AlreadyExists("existingkey")) == "The asset existingkey already exists"
  {
  }

  /** The bytes the create test expects to be put: {"value":"some value"}. */
  const SomeValueWire: Bytes := WireForm("some value")

  lemma TestExists()
    ensures Exists(MockWorld(), "statebad") == (false, Some(GetStateError))
    ensures Exists(MockWorld(), "missingkey") == (false, None)
    ensures Exists(MockWorld(), "existingkey") == (true, None)
  {
    MockKeys();
  }

  lemma TestCreateStateBad()
    ensures var e := Create(MockWorld(), "statebad", "some value").err;
      e.Some? && Message(e.value) == ReadFaultMessage
  {
    MockKeys();
  }

  lemma TestCreateExistingKey()
    ensures var e := Create(MockWorld(), "existingkey", "some value").err;
      e.Some? && Message(e.value) == "The asset existingkey already exists"
  {
    MockKeys();
    ExistingKeyText();
  }

  lemma TestCreateMissingKey()
    ensures Create(MockWorld(), "missingkey", "some value").world.state ==
      MockWorld().state["missingkey" := SomeValueWire]
  {
    MockKeys();
    MarshalWireForm("some value");
  }

  lemma TestReadStateBad()
    ensures var r := Read(MockWorld(), "statebad");
      r.asset == None && r.err.Some? && Message(r.err.value) == ReadFaultMessage
  {
    MockKeys();
  }

  lemma TestReadMissingKey()
    ensures var r := Read(MockWorld(), "missingkey");
      r.asset == None && r.err.Some? && Message(r.err.value) == "The asset missingkey does not exist"
  {
    MockKeys();
    MissingKeyText();
  }

  lemma TestReadExistingKey()
    ensures Read(MockWorld(), "existingkey") == Reply(None, Some(DecodeFault))
  {
    MockKeys();
    var b := Ascii("some value");
    assert b[0] != (FieldOpen() + [Quote])[0];
  }

  lemma TestReadRecordKey()
    ensures Read(MockWorld(), "cryptoMyAssetkey") == Reply(Some(CryptoMyAsset("set value")), None)
  {
    MockKeys();
    var a := CryptoMyAsset("set value");
    MarshalWireForm(a.value);
    UnmarshalMarshal(a);
    assert Guard(MockWorld(), "cryptoMyAssetkey", MustBePresent) == None;
  }

  lemma TestUpdateStateBad()
    ensures var e := Update(MockWorld(), "statebad", "new value").err;
      e.Some? && Message(e.value) == ReadFaultMessage
  {
    MockKeys();
  }

  lemma TestUpdateMissingKey()
    ensures var e := Update(MockWorld(), "missingkey", "new value").err;
      e.Some? && Message(e.value) == "The asset missingkey does not exist"
  {
    MockKeys();
    MissingKeyText();
  }

  lemma TestUpdateRecordKey()
    ensures var o := Update(MockWorld(), "cryptoMyAssetkey", "new value");
      o.err == None && o.world.state["cryptoMyAssetkey"] == Marshal(CryptoMyAsset("new value"))
  {
    MockKeys();
  }

  lemma TestDeleteStateBad()
    ensures var e := Delete(MockWorld(), "statebad").err;
      e.Some? && Message(e.value) == ReadFaultMessage
  {
    MockKeys();
  }

  lemma TestDeleteMissingKey()
    ensures var e := Delete(MockWorld(), "missingkey").err;
      e.Some? && Message(e.value) == "The asset missingkey does not exist"
  {
    MockKeys();
    MissingKeyText();
  }

  lemma TestDeleteRecordKey()
    ensures var o := Delete(MockWorld(), "cryptoMyAssetkey");
      o.err == None && "cryptoMyAssetkey" !in o.world.state
  {
    MockKeys();
  }
}

/** The lifecycle scenario run through the contract's methods on a stub. */
module ContractScenario {
  import opened Wrappers
  import opened Asset
  import opened WorldState
  import opened Contract
  import opened Properties

  method LifecycleOnStub() returns (stub: Stub)
    ensures stub.View() == EmptyWorld()
  {
    stub := new Stub(EmptyWorld());
    Lifecycle();
    var err := CreateCryptoMyAsset(stub, "a", "1");
    assert err == None;
    var present, e := CryptoMyAssetExists(stub, "a");
    assert present && e == None;
    var asset, rerr := ReadCryptoMyAsset(stub, "a");
    assert asset == Some(CryptoMyAsset("1"));
    err := UpdateCryptoMyAsset(stub, "a", "2");
    assert err == None;
    asset, rerr := ReadCryptoMyAsset(stub, "a");
    assert asset == Some(CryptoMyAsset("2"));
    err := DeleteCryptoMyAsset(stub, "a");
    assert err == None;
    present, e := CryptoMyAssetExists(stub, "a");
    assert !present && e == None;
  }
}
