/** Properties that relate several handlers or several transactions of the election contract. */
module Properties {
  import opened Wrappers
  import opened Shim
  import opened Chaincode
  import Dispatch

  /** `w2` agrees with `w1` on every key except possibly `k`. */
  ghost predicate AgreeExcept(w1: World, w2: World, k: string)
  {
    forall k' :: k' != k ==> (k' in w1 <==> k' in w2) && (k' in w1 ==> w1[k'] == w2[k'])
  }

  /** A second registration of an ID that was registered fails, whatever its other arguments, and writes nothing. */
  lemma RegisterTwiceFails(lib: Library, env: Env, w: World, args: seq<string>, env2: Env, again: seq<string>)
    requires CadastrarVotacaoStep(lib, env, w, args).response.Success?
    requires |again| > 0 && again[0] == args[0]
    ensures var w1 := CadastrarVotacaoStep(lib, env, w, args).world;
            var t := CadastrarVotacaoStep(lib, env2, w1, again);
            !t.response.Success? && t.world == w1
  {
  }

  /** After a registration, visualizarVotacao returns the encoded election: its ID and its four re-rendered dates. */
  lemma RegisterThenView(lib: Library, env: Env, w: World, args: seq<string>, env2: Env)
    requires CadastrarVotacaoStep(lib, env, w, args).response.Success?
    requires env2.getFault(args[0]).None?
    ensures WellFormed(lib, args)
    ensures var v := VotacaoFrom(lib, args);
            && v.id == args[0]
            && v.inicioCandidatura == Rerendered(lib, args[1])
            && v.terminoCandidatura == Rerendered(lib, args[2])
            && v.inicioVotacao == Rerendered(lib, args[3])
            && v.terminoVotacao == Rerendered(lib, args[4])
            && VisualizarVotacao(env2, CadastrarVotacaoStep(lib, env, w, args).world, [args[0]])
               == Success(Some(lib.marshalVotacao(v).value))
  {
  }

  /** addTeste succeeds or fails regardless of what the ledger holds: it never checks for an existing "teste". */
  lemma AddTesteIgnoresLedger(lib: Library, env: Env, w1: World, w2: World)
    ensures AddTesteStep(lib, env, w1).response == AddTesteStep(lib, env, w2).response
  {
  }

  /** Once addTeste has run, running it again in any later transaction leaves the ledger as it was. */
  lemma AddTesteIdempotent(lib: Library, env: Env, w: World, env2: Env)
    ensures var t := AddTesteStep(lib, env, w);
            t.response.Success? ==> AddTesteStep(lib, env2, t.world).world == t.world
  {
  }

  /** Once addTeste has run, visualizarVotacao on "teste" returns what queryTeste returns. */
  lemma AddTesteThenQueryTeste(lib: Library, env: Env, w: World, env2: Env)
    requires AddTesteStep(lib, env, w).response.Success?
    requires env2.getFault("teste").None?
    ensures VisualizarVotacao(env2, AddTesteStep(lib, env, w).world, ["teste"]) == QueryTeste(lib)
  {
  }

  /** Once addTeste has run, an election with ID "teste" can no longer be registered. */
  lemma AddTesteBlocksRegistration(lib: Library, env: Env, w: World, env2: Env, args: seq<string>)
    requires AddTesteStep(lib, env, w).response.Success?
    requires |args| > 0 && args[0] == "teste"
    ensures var w1 := AddTesteStep(lib, env, w).world;
            var t := CadastrarVotacaoStep(lib, env2, w1, args);
            !t.response.Success? && t.world == w1
  {
  }

  /** votar's outcome does not depend on the ledger: a ballot under an existing key replaces it. */
  lemma VotarIgnoresLedger(lib: Library, env: Env, w1: World, w2: World)
    ensures VotarStep(lib, env, w1).response == VotarStep(lib, env, w2).response
    ensures VotarStep(lib, env, w1).response.Success? ==>
            var key := lib.timestampString(env.txTimestamp.value);
            VotarStep(lib, env, w1).world[key] == VotarStep(lib, env, w2).world[key]
  {
  }

  /** Every transaction writes at most one key and deletes none. */
  lemma InvokeWritesAtMostOneKey(lib: Library, env: Env, w: World, name: string, args: seq<string>)
    ensures var t := InvokeStep(lib, env, w, name, args);
            w.Keys <= t.world.Keys && exists k :: AgreeExcept(w, t.world, k)
  {
    var t := InvokeStep(lib, env, w, name, args);
    if t.world == w {
      assert AgreeExcept(w, t.world, "");
    } else {
      var h := Dispatch.Route(name).value;
      if h == Dispatch.CadastrarVotacao {
        assert AgreeExcept(w, t.world, args[0]);
      } else if h == Dispatch.Votar {
        assert AgreeExcept(w, t.world, lib.timestampString(env.txTimestamp.value));
      } else {
        assert AgreeExcept(w, t.world, "teste");
      }
    }
  }

  /** A peer whose state database rejects rich queries, as LevelDB does. */
  function LevelDbEnv(): Env
  {
    Env(
      k => None,
      (k, v) => None,
      (q, w) => Err("ExecuteQuery not supported for leveldb"),
      Err("no timestamp"), Err("no creator"), Err("no proposal"))
  }

  /** On such a peer auditarVotos as written panics, where the corrected version reports the query's error. */
  lemma AuditarVotosPanicsOnLevelDb(w: World)
    ensures AuditarVotosAsWritten(LevelDbEnv(), w) == Panic(NilPanic)
    ensures AuditarVotos(LevelDbEnv(), w) == Error("ExecuteQuery not supported for leveldb")
  {
  }
}
