# Election chaincode (VotacaoContract) — a Dafny model

This project models `main.go` of a Hyperledger Fabric chaincode for elections
(`VotacaoContract`). The chaincode runs against a peer's key-value world
state. Each call to `Invoke` routes a function name to one handler:

- `cadastrarVotacao` registers an election: an ID and four dates that bound
  the candidacy and voting windows.
- `visualizarVotacao` reads an election back.
- `votar` stores a ballot under the transaction's timestamp.
- `addTeste` and `queryTeste` store and return a fixed test election.
- `getCreator` and `getSignedProposal` return data that the peer supplies.
- `auditarVotos` runs a rich query and renders its rows with
  `getQueryResultForQueryString`.
- `cadastrarCandidato` and `visualizarCandidatos` are empty successes.

The model has these modules:

- `Query` (query.dfy) gives the text the query renderer produces and proves
  its shape. The text is `[`, then one `{"Key":"<key>", "Record":<value>}` per
  row in iterator order, joined by `,`, then `]`.
- `Shim` (shim.dfy) is the stub. The class `ChaincodeStub` holds the world
  state as a `map<string, string>`. Its methods `GetState` and `PutState` read
  and update that map. An `Env` value fixes what else the peer reports:
  - the errors `GetState` and `PutState` may return;
  - the rows of a rich query and the error its iterator's `Next` may raise;
  - the transaction timestamp, the creator and the signed proposal.
- `Dispatch` (dispatch.dfy) holds the handler names and the routing.
- `Chaincode` (chaincode.dfy) holds the handlers.
  - Each handler that writes has a pure transition (`CadastrarVotacaoStep`,
    `VotarStep`, `AddTesteStep`). The transition maps the world state before a
    transaction to the response and the world state after it.
  - The class `VotacaoContract` has imperative methods that call the stub
    check by check, as the Go code does. Each is proved to make exactly its
    transition.
  - `GetQueryResultForQueryString` keeps the buffer loop and its
    `bArrayMemberAlreadyWritten` flag. Loop invariants prove it against the
    rendering.
  - Read-only handlers are functions.
- `Properties` (properties.dfy) holds lemmas that span several transactions
  or handlers.

Go library calls are fields of the `Library` datatype: `time.Parse`,
`Time.Format`, `Timestamp.String` and `json.Marshal`. They are arbitrary
functions, and parsing and encoding may fail, so every property holds for
every possible behaviour of these calls. Go strings and byte slices are both
Dafny `string`. A Go run-time panic is the response `Panic`.

An election system would also need:

- time windows and election phases;
- a candidate registry;
- one ballot per voter;
- tallying;
- optimistic-concurrency retries.

`main.go` implements none of these. `cadastrarVotacao` never compares its
four dates, `votar` keys ballots by timestamp and always names the same
candidate, and the candidate handlers do nothing. The model follows the
code, except for the one defect listed under Findings.

## Model

| member | source | states |
|---|---|---|
| `Query.Member` | main.go:63-70 | A member is `{"Key":"`, the key verbatim, `", "Record":`, the value verbatim, then `}`. Nothing is escaped, and the length is the two lengths plus 21. |
| `Query.JoinSnoc` | main.go:59-62 | Appending a member adds a comma only when a member was already written. |
| `Query.JoinEnds` | main.go:59-71 | Joined members begin with the first member's first character and end with the last member's last character. |
| `Query.PrefixSnoc` | main.go:53-72 | One loop round extends the buffer for `rows[..pos]` to the buffer for `rows[..pos+1]`. The comma is written only when `pos > 0`. |
| `Query.RenderEmpty` | main.go:50-73 | An iterator without rows yields exactly `[]`. |
| `Query.RenderSnoc` | main.go:53-73 | The text for `rows + [kv]` is the text for `rows` without its `]`, a comma if `rows` is non-empty, the member of `kv`, then `]`. |
| `Query.RenderHasNoStrayComma` | main.go:51-73 | For a non-empty result, the character after `[` is `{` and the one before `]` is `}`. So there is no leading or trailing comma. |
| `Chaincode.GetQueryResultForQueryString` | main.go:42-76 | Returns the query's error if the query fails. Returns the iterator's error, and no partial buffer, if any `Next` fails. Otherwise returns exactly the rendered array of all rows in order. Proved through the loop invariants (buffer = `[` + members so far joined by `,`; flag true iff a member was written). |
| `Chaincode.FirstParseError` | main.go:123-142 | None iff all four dates parse. Otherwise it is the error of the first date, in argument order, that fails to parse. |
| `Chaincode.CadastrarVotacaoStep` | main.go:116-175 | A count other than 5 gives an error and no write. The first parse failure's error is returned with no write. An existing ID gives "Erro: ID já existe" with no write. Success holds iff every check, the encoding and the write succeed. Success adds exactly key `args[0]`, mapped to the encoding of the election with that ID and the four dates re-rendered in `2006-01-02 15:04:05`. Every failure is an error response, never a panic, and leaves the ledger unchanged. |
| `Chaincode.VotacaoContract.CadastrarVotacao` | main.go:116-175 | Checking step by step through the stub gives exactly the response and the world state of `CadastrarVotacaoStep`. |
| `Chaincode.VisualizarVotacao` | main.go:183-189 | With no arguments it panics (index out of range). It succeeds iff `args[0]` is stored and readable, and then returns exactly the stored bytes. Otherwise it returns "Nao foi possivel localizar votacao". It never writes. |
| `Chaincode.VotarStep` | main.go:196-229 | A timestamp error is returned. It succeeds iff the timestamp reads, the ballot encodes and the write is accepted. Success writes one key, the timestamp's text, holding the encoded ballot for the fixed candidate. A failure is an error response and writes nothing. |
| `Chaincode.VotacaoContract.Votar` | main.go:196-229 | Its step-by-step execution makes exactly the transition `VotarStep`. |
| `Chaincode.AddTesteStep` | main.go:231-255 | It succeeds iff encoding and writing succeed. Success stores the encoded fixed election under "teste" and replaces whatever was there. A failure is an error response and writes nothing. |
| `Chaincode.VotacaoContract.AddTeste` | main.go:231-255 | Its step-by-step execution makes exactly the transition `AddTesteStep`. |
| `Chaincode.QueryTeste` | main.go:257-269 | Always succeeds. The payload is the encoding of the fixed election, or nil when encoding fails (the error is dropped). |
| `Chaincode.GetSignedProposal` | main.go:271-285 | Succeeds iff the proposal is available and encodes. Then the payload is its encoding. Otherwise the response is an error carrying the first error: the peer's, or else the encoder's. |
| `Chaincode.GetCreator` | main.go:287-293 | Succeeds iff the peer reports a creator, and then returns it. Otherwise the response is an error carrying the peer's error. |
| `Chaincode.AuditarVotos` | main.go:295-301 | Succeeds iff the query "" and every `Next` succeed, and then returns the rendered array. Otherwise returns the first error. |
| `Chaincode.AuditarVotosAsWritten` | main.go:42-48 | As written: a failed query panics through the deferred `Close` on a nil iterator. Otherwise it agrees with `AuditarVotos`. |
| `Chaincode.Handle` | main.go:177-194 | Handlers other than `cadastrarVotacao`, `votar` and `addTeste` never change the ledger. This includes the empty `cadastrarCandidato` and `visualizarCandidatos`. No failing handler changes it. |
| `Chaincode.InvokeStep` | main.go:85-113 | An unknown name gives "Funcao indisponivel." and no write. `cadastrarCandidato` and `visualizarCandidatos` succeed with a nil payload and no write. Only the three writing names change the ledger. A failure changes nothing. No key is ever deleted. The only panic is `visualizarVotacao` called with no arguments. |
| `Chaincode.VotacaoContract.Invoke` | main.go:85-113 | Running the if-chain and the chosen handler on the stub makes exactly the transition `InvokeStep`. |
| `Dispatch.Route` | main.go:90-110 | A routed name is the selected handler's own name. A name is unrouted iff it is none of the ten handler names. |
| `Dispatch.RouteName` | main.go:90-110 | Every handler is reached by its own name, and no two handlers share a name. |
| `Shim.ChaincodeStub.GetState` | main.go:152-158 | Returns the stored bytes iff the key is present and the read does not fail. Otherwise returns nil, with the read error if any. |
| `Shim.ChaincodeStub.PutState` | main.go:166-172 | Stores the value under the key unless the write is refused. Nothing else changes. |
| `Properties.RegisterTwiceFails` | main.go:152-155 | After a successful registration, any later registration with the same ID, in any later transaction, fails and leaves the ledger unchanged. |
| `Properties.RegisterThenView` | main.go:144-189 | After a registration, `visualizarVotacao` of the ID returns the encoding of the election. That election has the same ID and the four dates re-rendered. |
| `Properties.AddTesteIgnoresLedger` | main.go:231-255 | `addTeste`'s outcome does not depend on the ledger, because there is no existence check. |
| `Properties.AddTesteIdempotent` | main.go:231-255 | After a successful `addTeste`, running it again in any later transaction leaves the ledger as it was. |
| `Properties.AddTesteThenQueryTeste` | main.go:257-269 | After `addTeste`, `visualizarVotacao` of "teste" returns exactly what `queryTeste` returns. |
| `Properties.AddTesteBlocksRegistration` | main.go:152-155 | After `addTeste`, registering the ID "teste" fails and writes nothing. |
| `Properties.VotarIgnoresLedger` | main.go:204-226 | `votar`'s outcome, and the ballot it stores, do not depend on the ledger. A ballot under an existing key replaces it. |
| `Properties.InvokeWritesAtMostOneKey` | main.go:85-113 | Every transaction deletes no key and changes at most one. |
| `Properties.AuditarVotosPanicsOnLevelDb` | main.go:44-48 | On a peer that rejects rich queries, `auditarVotos` as written panics. The corrected version returns the query's error. |

## Left out

- Fabric's transaction semantics are not modelled. In Fabric, writes go to a read-write set that is committed after endorsement and validation, and a read does not see the same transaction's writes. Here each handler is one transaction applied directly to the map. No handler reads a key after writing it.
- `time.Parse`, `Time.Format`, `Timestamp.String` and `json.Marshal` are left uninterpreted. So calendar validation, the rendered date text and the JSON encoding are not modelled. One consequence: `Candidato`'s fields are unexported, so Go encodes a ballot's candidate as `{}`. The model only passes the candidate to the encoder.
- GetTxTimestamp, GetCreator, GetSignedProposal and GetQueryResult are inputs fixed per transaction in `Env`. The text of a rich query is not interpreted.
- A Go panic is the response `Panic`, with the world state unchanged. Aborting the transaction and the chaincode process is not modelled.
- Logging (`fmt.Printf` and `fmt.Println` at main.go:43, 74, 170 and 250) is not modelled, because it has no effect on the ledger or the response.
- `Init` (main.go:81-83) and `main` (main.go:303-308) are not modelled. `Init` returns success and touches nothing. `main` only starts the shim.
- `Chaincode.Handle`, `Chaincode.InvokeStep` and `Chaincode.VotacaoContract.Invoke` route `auditarVotos` to the corrected query path (`Chaincode.AuditarVotos`, `Chaincode.GetQueryResultForQueryString`). When the rich query fails, the modelled `Invoke` answers with the query's error, where main.go:44-45 as written panics. The as-written panic is modelled only by `Chaincode.AuditarVotosAsWritten` (see Findings).
- Errors passed through `fmt.Sprintf("%s", err)` are modelled as the error's text.
- The model follows Go's rendering of `%d` applied to a string ID (`%!d(string=...)`) in the PutState failure message. The "6 parametros" text is copied from main.go:119.
- cmd/main.go, votacao.go and main/votacao.go are not part of this model. cmd/main.go and votacao.go are earlier revisions. Their dispatch routes only five names (`cadastrarVotacao`, `visualizarVotacao`, `cadastrarCandidato`, `visualizarCandidatos`, `votar`), and their `cadastrarVotacao` has fewer checks. main/votacao.go does not compile.
- Election phases, the candidate registry, e-mail uniqueness, one ballot per voter, tallying and optimistic-concurrency retries are not modelled, because `main.go` does not implement them.

## Findings

| source | as written | input that shows it | evidently intended | confidence | as-written member | corrected member |
|---|---|---|---|---|---|---|
| main.go:44-48 | `defer resultsIterator.Close()` runs before `err` is checked. A failed `GetQueryResult` returns a nil iterator, and the deferred `Close` on it panics. | `auditarVotos` (query "") on a peer whose state database rejects rich queries (LevelDB reports "ExecuteQuery not supported for leveldb") | Return `(nil, err)`, so that `auditarVotos` answers `shim.Error` with the query's error | medium, not executed | `Chaincode.AuditarVotosAsWritten` | `Chaincode.GetQueryResultForQueryString` |
