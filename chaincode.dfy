/**
 * The election contract `VotacaoContract`: its handlers over the world state,
 * the `Invoke` dispatch, and the query that `auditarVotos` runs.
 *
 * Each handler that writes is given twice: as a pure transition (`...Step`)
 * from the world state before the transaction to the response and the world
 * state after it, whose contract states what the handler guarantees, and as a
 * method of `VotacaoContract` that goes through the stub step by step, as the
 * contract's code does, and is proved to make exactly that transition.
 */
module Chaincode {
  import opened Wrappers
  import opened Query
  import opened Shim
  import Dispatch

  /** The layout every date of an election is parsed with and re-rendered in. */
  const DateLayout := "2006-01-02 15:04:05"

  const ArgCountMessage := "Esperados 6 parametros: Metodo, ID, inicio candidatura, termino candidatura, inicio votacao, termino votacao"
  const IdExistsMessage := "Erro: ID já existe"
  const NotFoundMessage := "Nao foi possivel localizar votacao"
  const UnavailableMessage := "Funcao indisponivel."
  const IndexPanic := "runtime error: index out of range [0] with length 0"
  const NilPanic := "runtime error: invalid memory address or nil pointer dereference"

  /** A Go `time.Time`; the model never looks inside one. */
  datatype Time = Time(unixSeconds: int, nanosecond: int)

  datatype Candidato = Candidato(nome: string, email: string)

  /** An election: its ID and the four window boundaries, as rendered text. */
  datatype Votacao = Votacao(
    id: string,
    inicioCandidatura: string, terminoCandidatura: string,
    inicioVotacao: string, terminoVotacao: string)

  datatype Voto = Voto(assinatura: string, timestamp: string, candidato: Candidato)

  /** The Go library functions the contract calls, none of which is modelled further. */
  datatype Library = Library(
    parse: (string, string) -> Result<Time, string>,   // time.Parse(layout, text)
    format: (Time, string) -> string,                  // t.Format(layout)
    timestampString: Timestamp -> string,              // Timestamp.String()
    marshalVotacao: Votacao -> Result<string, string>, // json.Marshal
    marshalVoto: Voto -> Result<string, string>,       // json.Marshal
    marshalProposal: SignedProposal -> Result<string, string>) // json.Marshal

  /** The fixed election `addTeste` stores and `queryTeste` returns. */
  const Teste := Votacao("teste", "2019-01-01 10:00:00", "2019-01-08 23:00:00", "2019-07-01 10:00:00", "2019-07-01 23:00:00")

  /** The candidate every ballot names. */
  const BallotCandidate := Candidato("John Doe", "email_teste@ttcfabric.com")

  /** The response a handler gives and the world state it leaves. */
  datatype Step = Step(response: Response, world: World)

  /** The message of a refused write: Go renders `%d` applied to a string as `%!d(string=...)`. */
  function PutFailureMessage(id: string, err: string): string
  {
    "Erro: nao e possivel inserir votacao com id <%!d(string=" + id + ")>, devido a " + err
  }

  /** The error of the first of `dates` that does not parse, if any. */
  function FirstParseError(lib: Library, dates: seq<string>): (r: Option<string>)
    ensures r.None? <==> forall i :: 0 <= i < |dates| ==> lib.parse(DateLayout, dates[i]).Ok?
    ensures r.Some? ==> exists i :: 0 <= i < |dates| && lib.parse(DateLayout, dates[i]) == Err(r.value)
                                    && forall j :: 0 <= j < i ==> lib.parse(DateLayout, dates[j]).Ok?
  {
    if |dates| == 0 then None
    else match lib.parse(DateLayout, dates[0])
      case Err(e) => Some(e)
      case Ok(_) =>
        var r := FirstParseError(lib, dates[1..]);
        assert forall i :: 1 <= i < |dates| ==> dates[i] == dates[1..][i - 1];
        if r.Some? then
          var k :| 0 <= k < |dates[1..]| && lib.parse(DateLayout, dates[1..][k]) == Err(r.value)
                   && forall j :: 0 <= j < k ==> lib.parse(DateLayout, dates[1..][j]).Ok?;
          assert lib.parse(DateLayout, dates[k + 1]) == Err(r.value);
          r
        else r
  }

  /** `text` parsed and rendered again in `DateLayout`. */
  function Rerendered(lib: Library, text: string): string
    requires lib.parse(DateLayout, text).Ok?
  {
    lib.format(lib.parse(DateLayout, text).value, DateLayout)
  }

  /** `cadastrarVotacao`'s arguments: five of them, whose four dates all parse. */
  predicate WellFormed(lib: Library, args: seq<string>)
  {
    |args| == 5 && FirstParseError(lib, args[1..]).None?
  }

  /** The election `cadastrarVotacao` builds from well-formed arguments. */
  function VotacaoFrom(lib: Library, args: seq<string>): Votacao
    requires WellFormed(lib, args)
  {
    assert args[1..][0] == args[1] && args[1..][1] == args[2] && args[1..][2] == args[3] && args[1..][3] == args[4];
    Votacao(args[0], Rerendered(lib, args[1]), Rerendered(lib, args[2]), Rerendered(lib, args[3]), Rerendered(lib, args[4]))
  }

  /** Every check `cadastrarVotacao` makes passes, so it writes. */
  predicate Registrable(lib: Library, env: Env, w: World, args: seq<string>)
  {
    && WellFormed(lib, args)
    && args[0] !in w
    && env.getFault(args[0]).None?
    && lib.marshalVotacao(VotacaoFrom(lib, args)).Ok?
    && env.putFault(args[0], lib.marshalVotacao(VotacaoFrom(lib, args)).value).None?
  }

  /** cadastrarVotacao: validate the arguments, then insert the election if its ID is new. */
  function CadastrarVotacaoStep(lib: Library, env: Env, w: World, args: seq<string>): (t: Step)
    ensures |args| != 5 ==> t == Step(Error(ArgCountMessage), w)
    ensures !t.response.Panic?
    ensures |args| == 5 && FirstParseError(lib, args[1..]).Some?
            ==> t == Step(Error(FirstParseError(lib, args[1..]).value), w)
    ensures |args| == 5 && args[0] in w ==> !t.response.Success? && t.world == w
    ensures WellFormed(lib, args) && args[0] in w && env.getFault(args[0]).None?
            ==> t == Step(Error(IdExistsMessage), w)
    ensures t.response.Success? <==> Registrable(lib, env, w, args)
    ensures !t.response.Success? ==> t.world == w
    ensures t.response.Success? ==>
      && t.response == Success(None)
      && t.world == w[args[0] := lib.marshalVotacao(VotacaoFrom(lib, args)).value]
  {
    if |args| != 5 then Step(Error(ArgCountMessage), w)
    else match FirstParseError(lib, args[1..])
      case Some(e) => Step(Error(e), w)
      case None =>
        var v := VotacaoFrom(lib, args);
        if env.getFault(v.id).None? && v.id in w then Step(Error(IdExistsMessage), w)
        else if env.getFault(v.id).Some? then Step(Error(env.getFault(v.id).value), w)
        else match lib.marshalVotacao(v)
          case Err(e) => Step(Error(e), w)
          case Ok(bytes) =>
            match env.putFault(v.id, bytes)
            case Some(e) => Step(Error(PutFailureMessage(v.id, e)), w)
            case None => Step(Success(None), w[v.id := bytes])
  }

  /** visualizarVotacao: the bytes stored under `args[0]`; the ledger is only read. */
  function VisualizarVotacao(env: Env, w: World, args: seq<string>): (r: Response)
    ensures |args| == 0 <==> r.Panic?
    ensures |args| > 0 ==> (r.Success? <==> args[0] in w && env.getFault(args[0]).None?)
    ensures r.Success? ==> r.payload == Some(w[args[0]])
    ensures r.Error? ==> r.message == NotFoundMessage
  {
    if |args| == 0 then Panic(IndexPanic)
    else if env.getFault(args[0]).None? && args[0] in w then Success(Some(w[args[0]]))
    else Error(NotFoundMessage)
  }

  /** The ballot `votar` builds for a transaction stamped `stamp`. */
  function Ballot(stamp: string): Voto
  {
    Voto(stamp, stamp, BallotCandidate)
  }

  /** votar: store a ballot for the fixed candidate under the transaction's timestamp text. */
  function VotarStep(lib: Library, env: Env, w: World): (t: Step)
    ensures env.txTimestamp.Err? ==> t == Step(Error(env.txTimestamp.error), w)
    ensures !t.response.Panic?
    ensures t.response.Success? <==>
      && env.txTimestamp.Ok?
      && var key := lib.timestampString(env.txTimestamp.value);
         && lib.marshalVoto(Ballot(key)).Ok?
         && env.putFault(key, lib.marshalVoto(Ballot(key)).value).None?
    ensures !t.response.Success? ==> t.world == w
    ensures t.response.Success? ==>
      && t.response == Success(None)
      && env.txTimestamp.Ok?
      && var key := lib.timestampString(env.txTimestamp.value);
         && lib.marshalVoto(Ballot(key)).Ok?
         && env.putFault(key, lib.marshalVoto(Ballot(key)).value).None?
         && t.world == w[key := lib.marshalVoto(Ballot(key)).value]
  {
    match env.txTimestamp
    case Err(e) => Step(Error(e), w)
    case Ok(ts) =>
      var voto := Ballot(lib.timestampString(ts));
      match lib.marshalVoto(voto)
      case Err(e) => Step(Error(e), w)
      case Ok(bytes) =>
        match env.putFault(voto.assinatura, bytes)
        case Some(e) => Step(Error(e), w)
        case None => Step(Success(None), w[voto.assinatura := bytes])
  }

  /** addTeste: store the fixed election `Teste` under "teste", replacing what was there. */
  function AddTesteStep(lib: Library, env: Env, w: World): (t: Step)
    ensures t.response.Success? <==> lib.marshalVotacao(Teste).Ok? && env.putFault("teste", lib.marshalVotacao(Teste).value).None?
    ensures !t.response.Panic?
    ensures t.response.Success? ==> t.response == Success(None) && t.world == w["teste" := lib.marshalVotacao(Teste).value]
    ensures !t.response.Success? ==> t.world == w
  {
    match lib.marshalVotacao(Teste)
    case Err(e) => Step(Error(e), w)
    case Ok(bytes) =>
      match env.putFault(Teste.id, bytes)
      case Some(e) => Step(Error(PutFailureMessage(Teste.id, e)), w)
      case None => Step(Success(None), w[Teste.id := bytes])
  }

  /** queryTeste: the encoding of `Teste`, or a nil payload when encoding fails (its error is dropped). */
  function QueryTeste(lib: Library): (r: Response)
    ensures r.Success?
    ensures r.payload.Some? <==> lib.marshalVotacao(Teste).Ok?
    ensures r.payload.Some? ==> r.payload.value == lib.marshalVotacao(Teste).value
  {
    match lib.marshalVotacao(Teste)
    case Ok(bytes) => Success(Some(bytes))
    case Err(_) => Success(None)
  }

  /** getSignedProposal: the encoded signed proposal, or the first error met. */
  function GetSignedProposal(lib: Library, env: Env): (r: Response)
    ensures r.Success? <==> env.signedProposal.Ok? && lib.marshalProposal(env.signedProposal.value).Ok?
    ensures r.Success? ==> r.payload == Some(lib.marshalProposal(env.signedProposal.value).value)
    ensures env.signedProposal.Err? ==> r == Error(env.signedProposal.error)
    ensures env.signedProposal.Ok? && lib.marshalProposal(env.signedProposal.value).Err?
            ==> r == Error(lib.marshalProposal(env.signedProposal.value).error)
  {
    match env.signedProposal
    case Err(e) => Error(e)
    case Ok(p) =>
      match lib.marshalProposal(p)
      case Err(e) => Error(e)
      case Ok(bytes) => Success(Some(bytes))
  }

  /** getCreator: the creator the peer reports, or its error. */
  function GetCreator(env: Env): (r: Response)
    ensures r.Success? <==> env.creator.Ok?
    ensures r.Success? ==> r.payload == Some(env.creator.value)
    ensures env.creator.Err? ==> r == Error(env.creator.error)
  {
    match env.creator
    case Err(e) => Error(e)
    case Ok(c) => Success(Some(c))
  }

  /** getQueryResultForQueryString: the rendered rows, the first error met, and never a partial buffer. */
  function QueryOutcome(q: Result<QueryIterator, string>): Result<string, string>
  {
    match q
    case Err(e) => Err(e)
    case Ok(it) => if it.FailsWithin() then Err(it.failure) else Ok(Render(it.rows))
  }

  /** auditarVotos: every row of the query "" as a JSON-style array, or the query's error. */
  function AuditarVotos(env: Env, w: World): (r: Response)
    ensures r.Success? <==> env.richQuery("", w).Ok? && !env.richQuery("", w).value.FailsWithin()
    ensures r.Success? ==> r.payload == Some(Render(env.richQuery("", w).value.rows))
    ensures env.richQuery("", w).Err? ==> r == Error(env.richQuery("", w).error)
    ensures env.richQuery("", w).Ok? && env.richQuery("", w).value.FailsWithin()
            ==> r == Error(env.richQuery("", w).value.failure)
  {
    match QueryOutcome(env.richQuery("", w))
    case Err(e) => Error(e)
    case Ok(text) => Success(Some(text))
  }

  /**
   * auditarVotos as the code is written: the iterator's `Close` is deferred
   * before the query's error is checked, so a failed query (nil iterator)
   * panics when the function returns instead of reporting the error.
   */
  function AuditarVotosAsWritten(env: Env, w: World): (r: Response)
    ensures env.richQuery("", w).Err? ==> r.Panic?
    ensures env.richQuery("", w).Ok? ==> r == AuditarVotos(env, w)
  {
    if env.richQuery("", w).Err? then Panic(NilPanic) else AuditarVotos(env, w)
  }

  /** The transition of the handler `h`. */
  function Handle(lib: Library, env: Env, w: World, h: Dispatch.Handler, args: seq<string>): (t: Step)
    ensures !Dispatch.Writes(h) ==> t.world == w
    ensures !t.response.Success? ==> t.world == w
  {
    match h
    case CadastrarVotacao => CadastrarVotacaoStep(lib, env, w, args)
    case VisualizarVotacao => Step(VisualizarVotacao(env, w, args), w)
    case CadastrarCandidato => Step(Success(None), w)
    case VisualizarCandidatos => Step(Success(None), w)
    case Votar => VotarStep(lib, env, w)
    case AddTeste => AddTesteStep(lib, env, w)
    case QueryTeste => Step(QueryTeste(lib), w)
    case GetSignedProposal => Step(GetSignedProposal(lib, env), w)
    case GetCreator => Step(GetCreator(env), w)
    case AuditarVotos => Step(AuditarVotos(env, w), w)
  }

  /** Invoke: run the handler the function name selects; an unknown name changes nothing. */
  function InvokeStep(lib: Library, env: Env, w: World, name: string, args: seq<string>): (t: Step)
    ensures name !in Dispatch.Names ==> t == Step(Error(UnavailableMessage), w)
    ensures name in {"cadastrarCandidato", "visualizarCandidatos"} ==> t == Step(Success(None), w)
    ensures !t.response.Success? ==> t.world == w
    ensures name !in {"cadastrarVotacao", "votar", "addTeste"} ==> t.world == w
    ensures w.Keys <= t.world.Keys
    ensures t.response.Panic? <==> name == "visualizarVotacao" && |args| == 0
  {
    match Dispatch.Route(name)
    case None => Step(Error(UnavailableMessage), w)
    case Some(h) => Handle(lib, env, w, h, args)
  }

  /** The seven writes of one member append exactly `Member(kv)`. */
  lemma AppendMember(b: string, kv: KV)
    ensures b + "{\"Key\":" + "\"" + kv.key + "\"" + ", \"Record\":" + kv.value + "}" == b + Member(kv)
  {
  }

  /**
   * getQueryResultForQueryString: runs the query, then drains the iterator
   * into a buffer, writing a comma before every member but the first.
   */
  method GetQueryResultForQueryString(stub: ChaincodeStub, queryString: string) returns (r: Result<string, string>)
    ensures r == QueryOutcome(stub.env.richQuery(queryString, stub.world))
  {
    var query := stub.env.richQuery(queryString, stub.world);
    if query.Err? {
      return Err(query.error);
    }
    var resultsIterator := query.value;
    var buffer := "[";
    var bArrayMemberAlreadyWritten := false;
    var pos := 0;
    while pos < |resultsIterator.rows|
      invariant pos <= |resultsIterator.rows|
      invariant resultsIterator.failAt.Some? ==> resultsIterator.failAt.value >= pos
      invariant buffer == "[" + Join(Members(resultsIterator.rows[..pos]))
      invariant bArrayMemberAlreadyWritten <==> pos > 0
    {
      var queryResponse := resultsIterator.Next(pos);
      if queryResponse.Err? {
        return Err(queryResponse.error);
      }
      var kv := queryResponse.value;
      assert kv == resultsIterator.rows[pos];
      if bArrayMemberAlreadyWritten {
        buffer := buffer + ",";
      }
      ghost var before := buffer;
      buffer := buffer + "{\"Key\":";
      buffer := buffer + "\"";
      buffer := buffer + kv.key;
      buffer := buffer + "\"";
      buffer := buffer + ", \"Record\":";
      buffer := buffer + kv.value;
      buffer := buffer + "}";
      bArrayMemberAlreadyWritten := true;
      AppendMember(before, kv);
      PrefixSnoc(resultsIterator.rows, pos, before);
      pos := pos + 1;
    }
    buffer := buffer + "]";
    assert resultsIterator.rows[..pos] == resultsIterator.rows;
    return Ok(buffer);
  }

  class VotacaoContract {
    const lib: Library

    constructor (lib: Library)
      ensures this.lib == lib
    {
      this.lib := lib;
    }

    /** cadastrarVotacao, check by check. */
    method CadastrarVotacao(stub: ChaincodeStub, args: seq<string>) returns (r: Response)
      modifies stub
      ensures Step(r, stub.world) == CadastrarVotacaoStep(lib, stub.env, old(stub.world), args)
    {
      var formatoData := DateLayout;
      if |args| != 5 {
        return Error(ArgCountMessage);
      }
      var id := args[0];
      var inicioCandidatura := lib.parse(formatoData, args[1]);
      var terminoCandidatura := lib.parse(formatoData, args[2]);
      var inicioVotacao := lib.parse(formatoData, args[3]);
      var terminoVotacao := lib.parse(formatoData, args[4]);
      assert args[1..][1..][1..][1..] == [args[4]];
      if inicioCandidatura.Err? {
        return Error(inicioCandidatura.error);
      }
      if terminoCandidatura.Err? {
        return Error(terminoCandidatura.error);
      }
      if inicioVotacao.Err? {
        return Error(inicioVotacao.error);
      }
      if terminoVotacao.Err? {
        return Error(terminoVotacao.error);
      }
      var votacao := Votacao(id,
        lib.format(inicioCandidatura.value, formatoData), lib.format(terminoCandidatura.value, formatoData),
        lib.format(inicioVotacao.value, formatoData), lib.format(terminoVotacao.value, formatoData));
      assert votacao == VotacaoFrom(lib, args);
      var val, getStateError := stub.GetState(votacao.id);
      if val.Some? {
        return Error(IdExistsMessage);
      }
      if getStateError.Some? {
        return Error(getStateError.value);
      }
      var votacaoAsBytes := lib.marshalVotacao(votacao);
      if votacaoAsBytes.Err? {
        return Error(votacaoAsBytes.error);
      }
      var putStateError := stub.PutState(votacao.id, votacaoAsBytes.value);
      if putStateError.Some? {
        return Error(PutFailureMessage(votacao.id, putStateError.value));
      }
      return Success(None);
    }

    /** votar, step by step. */
    method Votar(stub: ChaincodeStub, args: seq<string>) returns (r: Response)
      modifies stub
      ensures Step(r, stub.world) == VotarStep(lib, stub.env, old(stub.world))
    {
      var horarioTransacao := stub.env.txTimestamp;
      if horarioTransacao.Err? {
        return Error(horarioTransacao.error);
      }
      var stamp := lib.timestampString(horarioTransacao.value);
      var voto := Voto(stamp, stamp, Candidato("John Doe", "email_teste@ttcfabric.com"));
      var votoAsBytes := lib.marshalVoto(voto);
      if votoAsBytes.Err? {
        return Error(votoAsBytes.error);
      }
      var putStateError := stub.PutState(voto.assinatura, votoAsBytes.value);
      if putStateError.Some? {
        return Error(putStateError.value);
      }
      return Success(None);
    }

    /** addTeste, step by step; there is no existence check. */
    method AddTeste(stub: ChaincodeStub, args: seq<string>) returns (r: Response)
      modifies stub
      ensures Step(r, stub.world) == AddTesteStep(lib, stub.env, old(stub.world))
    {
      var votacao := Votacao("teste", "2019-01-01 10:00:00", "2019-01-08 23:00:00", "2019-07-01 10:00:00", "2019-07-01 23:00:00");
      var votacaoAsBytes := lib.marshalVotacao(votacao);
      if votacaoAsBytes.Err? {
        return Error(votacaoAsBytes.error);
      }
      var putStateError := stub.PutState(votacao.id, votacaoAsBytes.value);
      if putStateError.Some? {
        return Error(PutFailureMessage(votacao.id, putStateError.value));
      }
      return Success(None);
    }

    /** Invoke: the chain of name comparisons, then the selected handler. */
    method Invoke(stub: ChaincodeStub, functionName: string, args: seq<string>) returns (r: Response)
      modifies stub
      ensures Step(r, stub.world) == InvokeStep(lib, stub.env, old(stub.world), functionName, args)
    {
      if functionName == "cadastrarVotacao" {
        r := CadastrarVotacao(stub, args);
      } else if functionName == "visualizarVotacao" {
        r := VisualizarVotacao(stub.env, stub.world, args);
      } else if functionName == "cadastrarCandidato" {
        r := Success(None);
      } else if functionName == "visualizarCandidatos" {
        r := Success(None);
      } else if functionName == "votar" {
        r := Votar(stub, args);
      } else if functionName == "addTeste" {
        r := AddTeste(stub, args);
      } else if functionName == "queryTeste" {
        r := QueryTeste(lib);
      } else if functionName == "getSignedProposal" {
        r := GetSignedProposal(lib, stub.env);
      } else if functionName == "getCreator" {
        r := GetCreator(stub.env);
      } else if functionName == "auditarVotos" {
        var votos := GetQueryResultForQueryString(stub, "");
        r := if votos.Err? then Error(votos.error) else Success(Some(votos.value));
      } else {
        r := Error(UnavailableMessage);
      }
    }
  }
}
