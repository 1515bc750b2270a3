/**
 * The chaincode stub: the slice of the Fabric shim the contract uses. The
 * world state is a map from keys to stored bytes; everything else the stub
 * can report (faults of `GetState` and `PutState`, query results, the
 * transaction's timestamp, its creator and signed proposal) is fixed for the
 * transaction and given by an `Env`.
 */
module Shim {
  import opened Wrappers
  import opened Query

  /** The world state: key -> stored bytes (Go strings and []byte are both `string` here). */
  type World = map<string, string>

  /** `shim.Success(payload)` (nil payload is `None`), `shim.Error(message)`, or a Go run-time panic. */
  datatype Response = Success(payload: Option<string>) | Error(message: string) | Panic(reason: string)

  /** The protobuf timestamp `GetTxTimestamp` returns. */
  datatype Timestamp = Timestamp(seconds: int, nanos: int)

  /** The signed proposal `GetSignedProposal` returns. */
  datatype SignedProposal = SignedProposal(proposalBytes: string, signature: string)

  /** What the peer supplies to one transaction, beyond the world state. */
  datatype Env = Env(
    getFault: string -> Option<string>,                         // error GetState reports for a key
    putFault: (string, string) -> Option<string>,               // error PutState reports for a write
    richQuery: (string, World) -> Result<QueryIterator, string>, // GetQueryResult
    txTimestamp: Result<Timestamp, string>,                     // GetTxTimestamp
    creator: Result<string, string>,                            // GetCreator
    signedProposal: Result<SignedProposal, string>)             // GetSignedProposal

  class ChaincodeStub {
    var world: World
    const env: Env

    constructor (env: Env, world: World)
      ensures this.env == env && this.world == world
    {
      this.env := env;
      this.world := world;
    }

    /** GetState: the stored bytes (nil when absent or when the read fails) and the read error. */
    method GetState(key: string) returns (value: Option<string>, err: Option<string>)
      ensures err == env.getFault(key)
      ensures value.Some? <==> key in world && err.None?
      ensures value.Some? ==> value.value == world[key]
    {
      err := env.getFault(key);
      if err.None? && key in world {
        value := Some(world[key]);
      } else {
        value := None;
      }
    }

    /** PutState: stores `value` under `key` unless the write is refused; nothing else changes. */
    method PutState(key: string, value: string) returns (err: Option<string>)
      modifies this
      ensures err == env.putFault(key, value)
      ensures world == if err.None? then old(world)[key := value] else old(world)
    {
      err := env.putFault(key, value);
      if err.None? {
        world := world[key := value];
      }
    }
  }
}
