/** The function names `Invoke` routes, and the handler each one selects. */
module Dispatch {
  import opened Wrappers

  datatype Handler =
    | CadastrarVotacao | VisualizarVotacao | CadastrarCandidato | VisualizarCandidatos
    | Votar | AddTeste | QueryTeste | GetSignedProposal | GetCreator | AuditarVotos

  /** The function name a client passes to select `h`. */
  function Name(h: Handler): string
  {
    match h
    case CadastrarVotacao => "cadastrarVotacao"
    case VisualizarVotacao => "visualizarVotacao"
    case CadastrarCandidato => "cadastrarCandidato"
    case VisualizarCandidatos => "visualizarCandidatos"
    case Votar => "votar"
    case AddTeste => "addTeste"
    case QueryTeste => "queryTeste"
    case GetSignedProposal => "getSignedProposal"
    case GetCreator => "getCreator"
    case AuditarVotos => "auditarVotos"
  }

  /** Every name `Invoke` recognises. */
  const Names: set<string> := {
    "cadastrarVotacao", "visualizarVotacao", "cadastrarCandidato", "visualizarCandidatos", "votar",
    "addTeste", "queryTeste", "getSignedProposal", "getCreator", "auditarVotos" }

  /** The handler `Invoke`'s chain of comparisons selects, or `None` for an unknown name. */
  function Route(name: string): (r: Option<Handler>)
    ensures r.Some? ==> Name(r.value) == name
    ensures r.None? <==> name !in Names
  {
    if name == "cadastrarVotacao" then Some(CadastrarVotacao)
    else if name == "visualizarVotacao" then Some(VisualizarVotacao)
    else if name == "cadastrarCandidato" then Some(CadastrarCandidato)
    else if name == "visualizarCandidatos" then Some(VisualizarCandidatos)
    else if name == "votar" then Some(Votar)
    else if name == "addTeste" then Some(AddTeste)
    else if name == "queryTeste" then Some(QueryTeste)
    else if name == "getSignedProposal" then Some(GetSignedProposal)
    else if name == "getCreator" then Some(GetCreator)
    else if name == "auditarVotos" then Some(AuditarVotos)
    else None
  }

  /** Every handler is reachable by its own name, and distinct handlers have distinct names. */
  lemma RouteName(h: Handler)
    ensures Route(Name(h)) == Some(h)
    ensures forall g :: Name(g) == Name(h) ==> g == h
  {
  }

  /** The handlers that write to the world state (all others only read it). */
  predicate Writes(h: Handler)
  {
    h == CadastrarVotacao || h == Votar || h == AddTeste
  }
}
