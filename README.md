# CryptoMyAsset contract, modelled in Dafny

The CryptoMyAsset contract is a Hyperledger Fabric chaincode contract. It keeps
records that each hold one string, `Value`, in the ledger's world state,
under a key chosen by the caller. It offers five operations:

- `CryptoMyAssetExists` asks the stub for the key's bytes.
- `CreateCryptoMyAsset` writes a new record under a key that holds nothing.
- `ReadCryptoMyAsset` fetches a record and decodes it.
- `UpdateCryptoMyAsset` replaces the record under a key that holds one.
- `DeleteCryptoMyAsset` removes the key that holds a record.

Every operation except Exists first runs Exists and turns its answer into an
error in a fixed order:

1. A failed GetState becomes "Could not read from world state. <cause>".
2. A key in the wrong state becomes "The asset <id> already exists" for Create,
   or "The asset <id> does not exist" for the other three.
3. Only Read can then fail to decode the stored bytes.

The project has these modules:

- `Wrappers` (wrappers.dfy): `Option` and `Result`.
- `Json` (json.dfy): how Go's `json.Marshal` writes a string and how
  `json.Unmarshal` reads a string literal back. This covers UTF-8, escapes,
  the HTML-safe `<`-style escapes, U+2028/U+2029, surrogate pairs and the
  U+FFFD substitution. It also proves that reading undoes writing.
- `Asset` (asset.dfy): the record `CryptoMyAsset(value)`, its encoding
  `{"value":"…"}` and the round trip of that encoding.
- `WorldState` (world_state.dfy): the world state as a `World` value. A key
  missing from the map is a key for which GetState returns nil. Each of GetState,
  PutState and DelState can fail on chosen keys with a chosen error. The `Stub`
  class holds this state as fields; its methods GetState, PutState and DelState
  update those fields in place.
- `Contract` (contract.dfy): the error kinds and their texts, and the shared
  existence `Guard`. It has pure functions `Exists`, `Create`, `Read`, `Update`
  and `Delete` that give each operation's meaning as a function of the world.
  It also has the five methods, which make the source's stub calls in the
  source's order. Each method is proved to return exactly what its function
  gives and to leave the stub in the world that function gives. The contracts
  of these functions state the guard's decision table, the shape of each error
  text, and that a failed operation changes nothing.
- `Properties` (properties.dfy): which errors each operation returns, and when,
  and each operation's exact effect on the world. It shows that only the operation's own key
  changes, that stored values stay records, that error texts are
  distinguishable, and that the create–read–update–delete lifecycle behaves as
  intended.
- `ContractTests` and `ContractScenario` (tests.dfy): the unit tests' mock
  stub as a fixed world, each test's assertions as a lemma, and the lifecycle
  run through the methods on a `Stub`.

Two points of the source are easy to misread:

- PutState and DelState errors come back unchanged
  (pypi-codegen/crypto-my-asset-contract.go:44, 83, 95). Only GetState errors are
  wrapped. These are the `PutFault` and `DelFault` kinds.
- Existence means the stub returned non-nil data
  (pypi-codegen/crypto-my-asset-contract.go:27). A key stored with an empty byte sequence exists.

The clock, the network and the host ledger are not modelled. The stub's
faults are parameters: per-key maps from key to error text.

## Model

| member | source | states |
|---|---|---|
| `Contract.CryptoMyAssetExists` | pypi-codegen/crypto-my-asset-contract.go:20-28 | Returns exactly `Exists` of the stub's world, and changes nothing. |
| `Contract.CreateCryptoMyAsset` | pypi-codegen/crypto-my-asset-contract.go:31-45 | Its error and the stub's new world equal `Create` of the old world. |
| `Contract.ReadCryptoMyAsset` | pypi-codegen/crypto-my-asset-contract.go:48-67 | Record and error equal `Read` of the world. The stub is not modified. |
| `Contract.UpdateCryptoMyAsset` | pypi-codegen/crypto-my-asset-contract.go:70-84 | Its error and the stub's new world equal `Update` of the old world. |
| `Contract.DeleteCryptoMyAsset` | pypi-codegen/crypto-my-asset-contract.go:87-96 | Its error and the stub's new world equal `Delete` of the old world. |
| `WorldState.Stub.GetState` | pypi-codegen/crypto-my-asset-contract_test.go:26-30 | Returns `Lookup` of the stub's world, and changes nothing. |
| `WorldState.Stub.PutState` | pypi-codegen/crypto-my-asset-contract.go:44 | Its error and the stub's new world equal `Put` of the old world. |
| `WorldState.Stub.DelState` | pypi-codegen/crypto-my-asset-contract.go:95 | Its error and the stub's new world equal `Del` of the old world. |
| `WorldState.Stub.constructor` | pypi-codegen/crypto-my-asset-contract_test.go:55-74 | A stub configured with a given world. |
| `WorldState.Lookup` | pypi-codegen/crypto-my-asset-contract_test.go:26-30 | GetState fails exactly on the keys with a configured fault; otherwise it returns data exactly when the key is stored. |
| `WorldState.Put` | pypi-codegen/crypto-my-asset-contract.go:44 | PutState fails exactly on the keys with a configured fault and then changes nothing; otherwise the key holds the new bytes. The fault tables never change. |
| `WorldState.Del` | pypi-codegen/crypto-my-asset-contract.go:95 | DelState fails exactly on the keys with a configured fault and then changes nothing; otherwise the key is removed. The fault tables never change. |
| `Contract.Message` | pypi-codegen/crypto-my-asset-contract.go:34-63 | A PutState or DelState error is reported as the stub's own text. A read-fault text is 33 characters longer than the stub's error; an already-exists or not-found text is 25 characters longer than the key. |
| `Contract.Exists` | pypi-codegen/crypto-my-asset-contract.go:21-27 | The error is the stub's GetState error for the key, unchanged. The answer is true exactly when there is no error and the key holds a value. |
| `Contract.Guard` | pypi-codegen/crypto-my-asset-contract.go:32-93 | The decision table of the check each guarded operation opens with. A GetState fault gives StoreFault with that cause for both guards. A present key gives AlreadyExists for Create and passes the must-exist guard. An absent key passes Create and gives NotFound for the must-exist guard. |
| `Contract.Create` | pypi-codegen/crypto-my-asset-contract.go:31-45 | A failure leaves the world unchanged. A success leaves the key holding a value, and no other key changes. No fault table changes. |
| `Contract.Read` | pypi-codegen/crypto-my-asset-contract.go:48-67 | A record comes back exactly when there is no error. It is then the decoding of the bytes stored under the key, for a key GetState can read. |
| `Contract.Update` | pypi-codegen/crypto-my-asset-contract.go:70-84 | A failure leaves the world unchanged. A success happens only on a key that held a value; the key still holds one, and no other key changes. No fault table changes. |
| `Contract.Delete` | pypi-codegen/crypto-my-asset-contract.go:87-96 | A failure leaves the world unchanged. A success happens only on a key that held a value, and removes exactly that key. No fault table changes. |
| `Asset.Marshal` | pypi-codegen/crypto-my-asset-contract.go:42 | The bytes (the same call stands at line 81) are `{"value":"`, the escaped value, then `"}`; 12 bytes more than the escaped value. |
| `Asset.Unmarshal` | pypi-codegen/crypto-my-asset-contract.go:60 | Only bytes that start with `{"value":"` and end with `}` decode as a record. |
| `Json.ParseChars` | pypi-codegen/crypto-my-asset-contract.go:60 | When a literal is read, what is left is a proper suffix of the input. |
| `Properties.StoreFaultWins` | pypi-codegen/crypto-my-asset-contract.go:32-34 | On a GetState fault, Create, Read, Update and Delete all return StoreFault with that cause, and the world is unchanged. |
| `Properties.ErrorKinds` | pypi-codegen/crypto-my-asset-contract.go:31-96 | For each operation, the exact conditions under which it returns an error (both directions). |
| `Properties.CreateRejectsPresent` | pypi-codegen/crypto-my-asset-contract.go:35-37 | Create on a present key: AlreadyExists, world unchanged. |
| `Properties.CreateWritesOnce` | pypi-codegen/crypto-my-asset-contract.go:39-44 | Create on an absent key stores Marshal(value) under exactly that key, and nothing else changes. Exists is then true and Read returns the value. If PutState faults, its error is returned unchanged and nothing is written. |
| `Properties.ReadPath` | pypi-codegen/crypto-my-asset-contract.go:52-66 | Read gives NotFound on an absent key and DecodeFault on undecodable bytes. Otherwise it gives the decoded record. |
| `Properties.ReadMarshalled` | pypi-codegen/crypto-my-asset-contract.go:56-66 | Read on bytes written by Marshal(value) returns exactly value. |
| `Properties.UpdateReplaces` | pypi-codegen/crypto-my-asset-contract.go:74-83 | Update on an absent key gives NotFound and no write. On a present key it stores a record with only the new value, so Read returns it. Other keys are untouched, and a PutState fault is returned unchanged. |
| `Properties.DeleteRemovesOnlyKey` | pypi-codegen/crypto-my-asset-contract.go:91-95 | Delete on an absent key gives NotFound and changes nothing. On a present key it removes only that key: Exists becomes false and Read gives NotFound. A DelState fault is returned unchanged. |
| `Properties.OperationsPreserveWellFormed` | pypi-codegen/crypto-my-asset-contract.go:39-44 | If every stored value decodes as a record, that still holds after Create, Update and Delete. |
| `Properties.WellFormedReadDecodes` | pypi-codegen/crypto-my-asset-contract.go:60-64 | In a world of records, Read never returns DecodeFault. |
| `Properties.CreateTwice` | pypi-codegen/crypto-my-asset-contract.go:35-37 | After a successful Create, a second Create on that key gives AlreadyExists and leaves the world as it is, and Read still returns the first value. |
| `Properties.UpdateThenRead` | pypi-codegen/crypto-my-asset-contract.go:78-83 | After a successful Update, Read returns exactly the new value. |
| `Properties.DeleteThenRead` | pypi-codegen/crypto-my-asset-contract.go:95 | After a successful Delete, Exists is false and Read gives NotFound. |
| `Properties.NeverWritten` | pypi-codegen/crypto-my-asset-contract.go:27 | In an empty world, a key gives Exists false, and Read, Update and Delete give NotFound. |
| `Properties.Lifecycle` | pypi-codegen/crypto-my-asset-contract.go:31-96 | Create "a"/"1", Read, Update to "2", Read and Delete all succeed, and each sees the one before. The world ends empty again. |
| `Properties.MessageShape` | pypi-codegen/crypto-my-asset-contract.go:34-36 | Where the cause or the key sits in each guard error text, and which characters tell the kinds apart. |
| `Properties.GuardMessagesDistinct` | pypi-codegen/crypto-my-asset-contract.go:63 | Equal guard error texts come from equal errors. So "unmarshal" is never a "does not exist", and the text identifies the key. |
| `Properties.StoreFaultMessage` | pypi-codegen/crypto-my-asset-contract.go:34 | The read-fault text is "Could not read from world state. " followed by the stub's error. |
| `Asset.UnmarshalMarshal` | pypi-codegen/crypto-my-asset-contract.go:42 | Unmarshal(Marshal(a)) == Some(a) for every record. |
| `Asset.MarshalInjective` | pypi-codegen/crypto-my-asset-contract.go:81 | Distinct records are stored as distinct bytes. |
| `Asset.MarshalWireForm` | pypi-codegen/crypto-my-asset-contract_test.go:109 | A value of HTML-safe characters is stored as the bytes of `{"value":"<value>"}`. |
| `Json.DecodeEncodeRune` | pypi-codegen/crypto-my-asset-contract.go:60 | UTF-8 decoding returns the encoded character and its length, whatever follows. |
| `Json.ParseEscapeOfEscapeChar` | pypi-codegen/crypto-my-asset-contract.go:60 | Each escape Marshal writes (`\"`, `\n`, `\u00XX`, `\u2028`, …) reads back as the character escaped. |
| `Json.ParseCharsStep` | pypi-codegen/crypto-my-asset-contract.go:60 | Reading past one written character yields that character, followed by whatever the rest reads as. |
| `Json.ParseQuoted` | pypi-codegen/crypto-my-asset-contract.go:60 | A string literal written by Marshal reads back as the original string, leaving exactly the bytes after the closing quote. |
| `Json.EscapeHtmlSafe` | pypi-codegen/crypto-my-asset-contract_test.go:109 | HTML-safe ASCII text is written unchanged. |
| `ContractTests.TestExists` | pypi-codegen/crypto-my-asset-contract_test.go:76-94 | With the mock stub: "statebad" gives false and the stub's error, "missingkey" gives false, "existingkey" gives true. |
| `ContractTests.TestCreateStateBad` | pypi-codegen/crypto-my-asset-contract_test.go:102-103 | Create on "statebad" fails with "Could not read from world state. world state get error". |
| `ContractTests.TestCreateExistingKey` | pypi-codegen/crypto-my-asset-contract_test.go:105-106 | Create on "existingkey" fails with "The asset existingkey already exists". |
| `ContractTests.TestCreateMissingKey` | pypi-codegen/crypto-my-asset-contract_test.go:108-109 | Create on "missingkey" puts `{"value":"some value"}` under "missingkey". |
| `ContractTests.TestReadStateBad` | pypi-codegen/crypto-my-asset-contract_test.go:119-121 | Read on "statebad" returns no record and the wrapped read error. |
| `ContractTests.TestReadMissingKey` | pypi-codegen/crypto-my-asset-contract_test.go:123-125 | Read on "missingkey" returns no record and "The asset missingkey does not exist". |
| `ContractTests.TestReadExistingKey` | pypi-codegen/crypto-my-asset-contract_test.go:127-129 | Read of the bytes "some value" returns no record and the unmarshal error. |
| `ContractTests.TestReadRecordKey` | pypi-codegen/crypto-my-asset-contract_test.go:131-135 | Read on "cryptoMyAssetkey" returns the record "set value" and no error. |
| `ContractTests.TestUpdateStateBad` | pypi-codegen/crypto-my-asset-contract_test.go:144-145 | Update on "statebad" fails with the wrapped read error. |
| `ContractTests.TestUpdateMissingKey` | pypi-codegen/crypto-my-asset-contract_test.go:147-148 | Update on "missingkey" fails with "The asset missingkey does not exist". |
| `ContractTests.TestUpdateRecordKey` | pypi-codegen/crypto-my-asset-contract_test.go:150-155 | Update on "cryptoMyAssetkey" succeeds and puts Marshal("new value") under that key. |
| `ContractTests.TestDeleteStateBad` | pypi-codegen/crypto-my-asset-contract_test.go:164-165 | Delete on "statebad" fails with the wrapped read error. |
| `ContractTests.TestDeleteMissingKey` | pypi-codegen/crypto-my-asset-contract_test.go:167-168 | Delete on "missingkey" fails with "The asset missingkey does not exist". |
| `ContractTests.TestDeleteRecordKey` | pypi-codegen/crypto-my-asset-contract_test.go:170-172 | Delete on "cryptoMyAssetkey" succeeds and removes that key. |
| `ContractScenario.LifecycleOnStub` | pypi-codegen/crypto-my-asset-contract.go:31-96 | The lifecycle run through the five methods on a fresh stub. The stub ends with an empty world. |

## Left out

- `pypi-codegen/main.go`: process start-up, contract metadata and
  `chaincode.Start()` hold no contract logic.
- The transaction context, the Fabric shim, ledger consensus and transport are
  outside the model. The stub is a world value with per-key fault tables.
- A failed PutState or DelState is taken to leave the state unchanged. What the
  real stub rejects, such as an empty key, is folded into the fault tables.
- The record's own Go file, `crypto-my-asset.go`, is not part of this model. The
  JSON field name `value` is taken from the wire form the unit test asserts.
- Concurrency: the model does not make the check-then-act sequence atomic. The
  contract leaves isolation to the host store.
- Asset.Unmarshal accepts only the layout Marshal writes: `{"value":` followed
  by a string literal and `}`. Real `json.Unmarshal` also accepts whitespace,
  further or reordered fields, the key in another letter case, duplicate keys,
  `null` and `{}`, and the model does not cover those.
- Asset.UnmarshalMarshal: a record's value is a sequence of Unicode characters.
  A Go string holding invalid UTF-8, which Marshal would rewrite to U+FFFD, is
  not modelled.
- Json.EscapeChar writes backspace and form feed as `\u0008` and `\u000c`, the
  escaping of the Go releases before 1.22. Newer releases write `\b` and `\f`.
  Either way the text reads back the same.
- The error that `json.Marshal` returns is ignored by the source, and Marshal
  cannot fail for this record type. The model has no error there.
- `ReadCryptoMyAsset`'s second GetState ignores its error. The model fetches the
  same map entry again, so a fault that appears between the two fetches is not
  modelled.
- The mocks' call recording (`AssertCalled`) is stated as the world after the
  call, not as a log of stub calls.
