/**
 * What the request handlers of PixServer guarantee: the accept/reject conditions of each
 * operation and their messages, that a rejected request changes nothing, that a transfer
 * conserves money, that a profile update touches only the fields it names, that the statement
 * lists exactly the caller's records, and a ledger invariant every request preserves: with
 * names and passwords kept non-empty by the switch as written, and kept at 6 to 120
 * characters once usuario_atualizar measures what it stores.
 */
module Properties {
  import opened Base
  import opened Model
  import opened Service
  import opened Dao
  import opened Handlers

  // ---------------------------------------------------------------------------------------
  // usuario_criar

  /** Creation succeeds exactly for filled, in-bounds fields and a new cpf; it adds one empty account. */
  lemma UsuarioCriarSse(s: Estado, req: Requisicao)
    ensures var p := UsuarioCriar(s, req);
      var nome, cpf, senha := Trim(TextoOuVazio(req.nome)), Trim(TextoOuVazio(req.cpf)), Trim(TextoOuVazio(req.senha));
      && (p.resposta.status <==>
            nome != [] && cpf != [] && senha != [] && NoLimite(|nome|) && NoLimite(|senha|) && cpf !in s.usuarios)
      && (!p.resposta.status ==> p.estado == s)
      && (p.resposta.status ==>
            && p.estado == s.(usuarios := s.usuarios[cpf := Linha(nome, senha, 0)])
            && p.estado.usuarios.Keys == s.usuarios.Keys + {cpf}
            && p.resposta.info == "Usuário criado com sucesso")
  {
  }

  /** A creation on a cpf already present reports it and leaves that account as it was. */
  lemma UsuarioCriarExistente(s: Estado, req: Requisicao)
    requires var nome, senha := Trim(TextoOuVazio(req.nome)), Trim(TextoOuVazio(req.senha));
      nome != [] && senha != [] && NoLimite(|nome|) && NoLimite(|senha|)
    requires Trim(TextoOuVazio(req.cpf)) != [] && Trim(TextoOuVazio(req.cpf)) in s.usuarios
    ensures UsuarioCriar(s, req).resposta == NovaResposta(OP_USUARIO_CRIAR, false, "Usuário já existente")
    ensures UsuarioCriar(s, req).estado == s
  {
  }

  // ---------------------------------------------------------------------------------------
  // usuario_login and the session it opens

  /** Login succeeds exactly for a known cpf with its password; it only records the new session. */
  lemma UsuarioLoginSse(s: Estado, req: Requisicao, agora: Instante, novo: Token)
    ensures var p := UsuarioLogin(s, req, agora, novo);
      var cpf, senha := Trim(TextoOuVazio(req.cpf)), Trim(TextoOuVazio(req.senha));
      && (p.resposta.status <==> cpf != [] && senha != [] && cpf in s.usuarios && s.usuarios[cpf].senha == senha)
      && (cpf != [] && senha != [] && cpf !in s.usuarios ==> p.resposta.info == "Usuário inexistente")
      && (cpf != [] && senha != [] && cpf in s.usuarios && s.usuarios[cpf].senha != senha ==>
            p.resposta.info == "Senha inválida")
      && (!p.resposta.status ==> p.estado == s)
      && (p.resposta.status ==>
            && p.estado == s.(sessoes := s.sessoes[novo := TokenInfo(cpf, agora)])
            && p.resposta.token == Some(novo)
            && "token" in p.resposta.dados && p.resposta.dados["token"] == Texto(novo))
  {
  }

  /**
   * The token a login hands out identifies the caller to usuario_ler while fewer than 25 full
   * hours have passed; after that it is refused and evicted.
   */
  lemma {:induction false} SessaoDoLogin(s: Estado, req: Requisicao, agora: Instante, novo: Token,
                                         pedido: Requisicao, depois: Instante)
    requires novo != ""
    requires UsuarioLogin(s, req, agora, novo).resposta.status
    requires pedido.token == Some(novo)
    ensures var p := UsuarioLogin(s, req, agora, novo);
      var cpf := Trim(TextoOuVazio(req.cpf));
      var leitura := UsuarioLer(p.estado, pedido, depois);
      if depois - agora < (TOKEN_EXPIRY_HOURS + 1) * SEGUNDOS_POR_HORA then
        && SessaoDaRequisicao(p.estado, pedido, depois).cpf == Some(cpf)
        && leitura.resposta.status
        && leitura.resposta.usuario == Some(UsuarioDados(s.usuarios[cpf].nome, cpf, s.usuarios[cpf].saldo))
      else
        && leitura.resposta == NovaResposta(OP_USUARIO_LER, false, TOKEN_INVALIDO)
        && novo !in leitura.estado.sessoes
  {
    var cpf := Trim(TextoOuVazio(req.cpf));
    CicloDaSessao(s.sessoes, novo, cpf, agora, depois);
  }

  // ---------------------------------------------------------------------------------------
  // usuario_logout

  /** Logout reports success exactly when it removed a session; afterwards that token is gone. */
  lemma UsuarioLogoutSse(s: Estado, req: Requisicao)
    ensures var p := UsuarioLogout(s, req);
      var token := TextoOuVazio(req.token);
      && (p.resposta.status <==> token != [] && token in s.sessoes)
      && (token == [] ==> p.estado == s && p.resposta.info == "Token é obrigatório")
      && (token != [] ==> p.estado == s.(sessoes := s.sessoes - {token}))
      && (token != [] && token !in s.sessoes ==> p.resposta.info == TOKEN_INVALIDO)
  {
  }

  /** A second logout with the same token reports failure and changes nothing more. */
  lemma SegundoLogoutFalha(s: Estado, req: Requisicao)
    ensures var p := UsuarioLogout(s, req);
      var q := UsuarioLogout(p.estado, req);
      !q.resposta.status && q.estado == p.estado
  {
    var token := TextoOuVazio(req.token);
    var p := UsuarioLogout(s, req);
    if token != [] {
      assert p.estado.sessoes - {token} == p.estado.sessoes;
    }
  }

  // ---------------------------------------------------------------------------------------
  // usuario_ler

  /** The profile read answers the caller's row; without a live session it is refused. */
  lemma UsuarioLerSse(s: Estado, req: Requisicao, agora: Instante)
    ensures var p := UsuarioLer(s, req, agora);
      var sessao := SessaoDaRequisicao(s, req, agora);
      && p.estado == sessao.estado
      && (p.resposta.status <==> sessao.cpf.Some? && sessao.cpf.value in s.usuarios)
      && (sessao.cpf.None? ==> p.resposta.info == TOKEN_INVALIDO)
      && (p.resposta.status ==>
            var cpf := sessao.cpf.value;
            && p.resposta.usuario == Some(UsuarioDados(s.usuarios[cpf].nome, cpf, s.usuarios[cpf].saldo))
            && "usuario" in p.resposta.dados
            && p.resposta.dados["usuario"] == DadosUsuario(p.resposta.usuario.value))
  {
  }

  // ---------------------------------------------------------------------------------------
  // transacao_criar

  /** All checks of transacao_criar pass. */
  predicate TransferenciaAceita(s: Estado, req: Requisicao, agora: Instante) {
    var sessao := SessaoDaRequisicao(s, req, agora);
    var destino := Trim(TextoOuVazio(req.cpfDestino));
    var valor := ValorOuZero(req.valor);
    && sessao.cpf.Some? && destino != [] && valor > 0 && sessao.cpf.value != destino
    && sessao.cpf.value in s.usuarios && s.usuarios[sessao.cpf.value].saldo >= valor
    && destino in s.usuarios
  }

  /**
   * The checks of transacao_criar in their order, each with its message; a transfer is made
   * exactly when all pass, and a refused one changes neither balances, log nor counter.
   */
  lemma TransacaoCriarRecusas(s: Estado, req: Requisicao, agora: Instante)
    ensures var p := TransacaoCriar(s, req, agora);
      var sessao := SessaoDaRequisicao(s, req, agora);
      var destino := Trim(TextoOuVazio(req.cpfDestino));
      var valor := ValorOuZero(req.valor);
      var info := p.resposta.info;
      var comSessao := sessao.cpf.Some?;
      var comDestino := comSessao && destino != [];
      var positivo := comDestino && valor > 0;
      var distintos := positivo && sessao.cpf.value != destino;
      var comOrigem := distintos && sessao.cpf.value in s.usuarios;
      var comSaldo := comOrigem && s.usuarios[sessao.cpf.value].saldo >= valor;
      && (!comSessao ==> info == TOKEN_INVALIDO)
      && (comSessao && !comDestino ==> info == "CPF de destino é obrigatório")
      && (comDestino && !positivo ==> info == VALOR_NAO_POSITIVO)
      && (positivo && !distintos ==> info == "Não é possível transferir para si mesmo")
      && (distintos && !comOrigem ==> info == "Usuário de origem não encontrado")
      && (comOrigem && !comSaldo ==> info == "Saldo insuficiente")
      && (comSaldo && destino !in s.usuarios ==> info == "Usuário de destino não encontrado")
      && (p.resposta.status <==> TransferenciaAceita(s, req, agora))
      && (!p.resposta.status ==> p.estado == sessao.estado)
  {
  }

  /**
   * A transfer moves valor from the caller to the destination, leaves every other account and
   * the total of all balances as they were, and appends exactly one record.
   */
  lemma TransacaoCriarEfeito(s: Estado, req: Requisicao, agora: Instante)
    requires TransferenciaAceita(s, req, agora)
    ensures var p := TransacaoCriar(s, req, agora);
      var origem := SessaoDaRequisicao(s, req, agora).cpf.value;
      var destino := Trim(TextoOuVazio(req.cpfDestino));
      var valor := ValorOuZero(req.valor);
      && p.resposta.status
      && p.estado.usuarios.Keys == s.usuarios.Keys
      && p.estado.usuarios[origem] == s.usuarios[origem].(saldo := s.usuarios[origem].saldo - valor)
      && p.estado.usuarios[destino] == s.usuarios[destino].(saldo := s.usuarios[destino].saldo + valor)
      && (forall c :: c in s.usuarios && c != origem && c != destino ==> p.estado.usuarios[c] == s.usuarios[c])
      && Soma(p.estado.usuarios) == Soma(s.usuarios)
      && p.estado.transacoes == s.transacoes + [Registro(|s.transacoes| + 1, origem, destino, valor, agora, agora)]
      && p.estado.sessoes == s.sessoes
      && p.estado.proximoId == s.proximoId + 1
      && "id" in p.resposta.dados && p.resposta.dados["id"] == Numero(s.proximoId)
  {
    var origem := SessaoDaRequisicao(s, req, agora).cpf.value;
    var destino := Trim(TextoOuVazio(req.cpfDestino));
    var valor := ValorOuZero(req.valor);
    TransferenciaEfeito(s.usuarios, origem, destino, valor);
    TransferenciaConserva(s.usuarios, origem, destino, valor);
  }

  // ---------------------------------------------------------------------------------------
  // depositar

  /** A deposit of a positive amount raises the caller's balance by it and records nothing. */
  lemma DepositarEfeito(s: Estado, req: Requisicao, agora: Instante)
    ensures var p := Depositar(s, req, agora);
      var sessao := SessaoDaRequisicao(s, req, agora);
      var valor := ValorOuZero(req.valorEnviado);
      && (p.resposta.status <==> sessao.cpf.Some? && valor > 0 && sessao.cpf.value in s.usuarios)
      && (sessao.cpf.Some? && valor <= 0 ==> p.resposta.info == VALOR_NAO_POSITIVO)
      && (!p.resposta.status ==> p.estado == sessao.estado)
      && (p.resposta.status ==>
            var cpf := sessao.cpf.value;
            var saldo := s.usuarios[cpf].saldo + valor;
            && p.estado == s.(usuarios := s.usuarios[cpf := s.usuarios[cpf].(saldo := saldo)])
            && "novo_saldo" in p.resposta.dados && p.resposta.dados["novo_saldo"] == Numero(saldo)
            && Soma(p.estado.usuarios) == Soma(s.usuarios) + valor)
  {
    var sessao := SessaoDaRequisicao(s, req, agora);
    var valor := ValorOuZero(req.valorEnviado);
    if sessao.cpf.Some? && valor > 0 && sessao.cpf.value in s.usuarios {
      SomaAjustada(s.usuarios, sessao.cpf.value, valor);
      var cpf := sessao.cpf.value;
      assert Atualizado(s.usuarios, cpf, s.usuarios[cpf].(saldo := s.usuarios[cpf].saldo + valor))
          == Ajustado(s.usuarios, cpf, valor);
    }
  }

  // ---------------------------------------------------------------------------------------
  // usuario_atualizar

  /** The row a successful update writes: a field given replaces the stored one, trimmed. */
  function Perfil(atual: Linha, campos: Campos): Linha {
    Linha(if Informado(campos.nome) then Trim(campos.nome.value) else atual.nome,
          if Informado(campos.senha) then Trim(campos.senha.value) else atual.senha,
          atual.saldo)
  }

  /**
   * A profile update changes only the fields it names, never the balance, cpf or any other
   * account; with nothing to change, or a field out of bounds, nothing is written. This holds
   * of the update as written (`aparaAntesDeMedir` false: the received text is measured) and of
   * the corrected one (the trimmed text is measured) alike.
   */
  lemma UsuarioAtualizarSoCamposInformados(s: Estado, req: Requisicao, agora: Instante, aparaAntesDeMedir: bool)
    ensures var p := AtualizarPerfil(s, req, agora, aparaAntesDeMedir);
      var sessao := SessaoDaRequisicao(s, req, agora);
      var campos := CamposDoPerfil(req);
      && (sessao.cpf.Some? && !Informado(campos.nome) && !Informado(campos.senha) ==>
            p.resposta.info == "Nenhum campo para atualizar")
      && (p.resposta.status <==>
            && sessao.cpf.Some? && (Informado(campos.nome) || Informado(campos.senha))
            && sessao.cpf.value in s.usuarios
            && (Informado(campos.nome) ==> NoLimite(Medida(campos.nome.value, aparaAntesDeMedir)))
            && (Informado(campos.senha) ==> NoLimite(Medida(campos.senha.value, aparaAntesDeMedir))))
      && (!p.resposta.status ==> p.estado == sessao.estado)
      && (p.resposta.status ==>
            var cpf := sessao.cpf.value;
            var linha := p.estado.usuarios[cpf];
            && p.estado == s.(usuarios := s.usuarios[cpf := Perfil(s.usuarios[cpf], campos)])
            && linha.saldo == s.usuarios[cpf].saldo
            && (!Informado(campos.nome) ==> linha.nome == s.usuarios[cpf].nome)
            && (!Informado(campos.senha) ==> linha.senha == s.usuarios[cpf].senha))
  {
  }

  // ---------------------------------------------------------------------------------------
  // transacao_ler

  /** What a record or a statement line says about money: who paid whom how much. */
  datatype Movimento = Movimento(origem: Cpf, destino: Cpf, valor: Centavos)

  /** The movements of the records of `log` that `cpf` takes part in. */
  function MovimentosDoLivro(log: seq<Registro>, cpf: Cpf): multiset<Movimento>
    decreases |log|
  {
    if log == [] then multiset{}
    else
      var r := log[0];
      (if r.cpfOrigem == cpf || r.cpfDestino == cpf
       then multiset{Movimento(r.cpfOrigem, r.cpfDestino, r.valor)} else multiset{})
        + MovimentosDoLivro(log[1..], cpf)
  }

  /** The movements a statement shows. */
  function MovimentosDoExtrato(linhas: seq<TransacaoDados>): multiset<Movimento>
    decreases |linhas|
  {
    if linhas == [] then multiset{}
    else
      var l := linhas[|linhas| - 1];
      MovimentosDoExtrato(linhas[..|linhas| - 1]) + multiset{Movimento(l.enviador.cpf, l.recebedor.cpf, l.valor)}
  }

  lemma {:induction false} MovimentosConcat(a: seq<Registro>, b: seq<Registro>, cpf: Cpf)
    ensures MovimentosDoLivro(a + b, cpf) == MovimentosDoLivro(a, cpf) + MovimentosDoLivro(b, cpf)
    decreases |a|
  {
    if a == [] {
      assert a + b == b;
    } else {
      assert (a + b)[1..] == a[1..] + b;
      MovimentosConcat(a[1..], b, cpf);
    }
  }

  lemma {:induction false} MovimentosInserir(r: Registro, s: seq<Registro>, cpf: Cpf)
    ensures MovimentosDoLivro(InserirPorData(r, s), cpf) == MovimentosDoLivro(s, cpf) + MovimentosDoLivro([r], cpf)
    decreases |s|
  {
    if s == [] || s[0].criadoEm <= r.criadoEm {
      MovimentosConcat([r], s, cpf);
    } else {
      var inserido := InserirPorData(r, s[1..]);
      assert InserirPorData(r, s) == [s[0]] + inserido;
      assert ([s[0]] + inserido)[1..] == inserido;
      MovimentosInserir(r, s[1..], cpf);
    }
  }

  /** Listing newest first neither loses nor invents a movement. */
  lemma {:induction false} MovimentosOrdenados(log: seq<Registro>, cpf: Cpf)
    ensures MovimentosDoLivro(MaisRecentesPrimeiro(log), cpf) == MovimentosDoLivro(log, cpf)
    decreases |log|
  {
    if log != [] {
      var ini, ultimo := log[..|log| - 1], log[|log| - 1];
      var ordenados := MaisRecentesPrimeiro(ini);
      assert MovimentosDoLivro(log, cpf) == MovimentosDoLivro(ini, cpf) + MovimentosDoLivro([ultimo], cpf) by {
        MovimentosConcat(ini, [ultimo], cpf);
        assert log == ini + [ultimo];
      }
      assert MovimentosDoLivro(ordenados, cpf) == MovimentosDoLivro(ini, cpf) by {
        MovimentosOrdenados(ini, cpf);
      }
      MovimentosInserir(ultimo, ordenados, cpf);
    }
  }

  /** The movements of one record. */
  lemma MovimentosDeUm(r: Registro, cpf: Cpf)
    ensures MovimentosDoLivro([r], cpf)
         == if r.cpfOrigem == cpf || r.cpfDestino == cpf then multiset{Movimento(r.cpfOrigem, r.cpfDestino, r.valor)}
            else multiset{}
  {
    assert [r][1..] == [];
  }

  /** `todas` moves, position by position, the same amounts between the same accounts as `linhas`. */
  predicate Corresponde(todas: seq<Transacao>, linhas: seq<Registro>) {
    && |todas| == |linhas|
    && forall i :: 0 <= i < |todas| ==>
         && todas[i].cpfOrigem == linhas[i].cpfOrigem
         && todas[i].cpfDestino == linhas[i].cpfDestino
         && todas[i].valor == linhas[i].valor
  }

  /** The movements of the transactions in `ts` that involve `cpf`, taken from the back. */
  function MovimentosDasTransacoes(ts: seq<Transacao>, cpf: Cpf): multiset<Movimento>
    decreases |ts|
  {
    if ts == [] then multiset{}
    else
      var t := ts[|ts| - 1];
      MovimentosDasTransacoes(ts[..|ts| - 1], cpf)
        + (if Envolve(t, cpf) then multiset{Movimento(t.cpfOrigem, t.cpfDestino, t.valor)} else multiset{})
  }

  /** A statement shows exactly the movements of the transactions it was built from that involve `cpf`. */
  lemma {:induction false} ExtratoMostraMovimentos(todas: seq<Transacao>, cpf: Cpf, contas: Contas)
    ensures MovimentosDoExtrato(Extrato(todas, cpf, contas)) == MovimentosDasTransacoes(todas, cpf)
    decreases |todas|
  {
    if todas != [] {
      ExtratoMostraMovimentos(todas[..|todas| - 1], cpf, contas);
      ExtratoUltima(todas, cpf, contas);
    }
  }

  /** Transactions that mirror `linhas` have the movements of `linhas`. */
  lemma {:induction false} MovimentosCorrespondentes(todas: seq<Transacao>, linhas: seq<Registro>, cpf: Cpf)
    requires Corresponde(todas, linhas)
    ensures MovimentosDasTransacoes(todas, cpf) == MovimentosDoLivro(linhas, cpf)
    decreases |linhas|
  {
    if linhas != [] {
      var n := |linhas| - 1;
      var ini, ultimo := linhas[..n], linhas[n];
      assert MovimentosDasTransacoes(todas[..n], cpf) == MovimentosDoLivro(ini, cpf) by {
        assert Corresponde(todas[..n], ini);
        MovimentosCorrespondentes(todas[..n], ini, cpf);
      }
      assert MovimentosDoLivro(linhas, cpf) == MovimentosDoLivro(ini, cpf) + MovimentosDoLivro([ultimo], cpf) by {
        MovimentosConcat(ini, [ultimo], cpf);
        assert linhas == ini + [ultimo];
      }
      MovimentosDeUm(ultimo, cpf);
    }
  }

  /** The last transaction adds its own movement to the statement, if the caller takes part in it. */
  lemma ExtratoUltima(todas: seq<Transacao>, cpf: Cpf, contas: Contas)
    requires todas != []
    ensures var ultima := todas[|todas| - 1];
      MovimentosDoExtrato(Extrato(todas, cpf, contas))
        == MovimentosDoExtrato(Extrato(todas[..|todas| - 1], cpf, contas))
           + (if Envolve(ultima, cpf) then multiset{Movimento(ultima.cpfOrigem, ultima.cpfDestino, ultima.valor)}
              else multiset{})
  {
    var ultima := todas[|todas| - 1];
    var antes := Extrato(todas[..|todas| - 1], cpf, contas);
    if Envolve(ultima, cpf) {
      var e := antes + [LinhaDoExtrato(ultima, contas)];
      assert Extrato(todas, cpf, contas) == e;
      assert e[..|e| - 1] == antes;
    } else {
      assert Extrato(todas, cpf, contas) == antes;
    }
  }

  /** The statement built from a listing shows the movements of the listed rows involving `cpf`. */
  lemma ExtratoDaListagem(linhas: seq<Registro>, primeiro: int, agora: Instante, cpf: Cpf, contas: Contas)
    ensures MovimentosDoExtrato(Extrato(Listagem(linhas, primeiro, agora), cpf, contas))
         == MovimentosDoLivro(linhas, cpf)
  {
    var todas := Listagem(linhas, primeiro, agora);
    ExtratoMostraMovimentos(todas, cpf, contas);
    MovimentosCorrespondentes(todas, linhas, cpf);
  }

  /**
   * transacao_ler, for a live session, answers one line per logged record the caller takes
   * part in (same origin, destination and amount), each with atualizado_em equal to criado_em.
   */
  lemma TransacaoLerExato(s: Estado, req: Requisicao, agora: Instante)
    ensures var p := TransacaoLer(s, req, agora);
      var sessao := SessaoDaRequisicao(s, req, agora);
      && (p.resposta.status <==> sessao.cpf.Some?)
      && (sessao.cpf.None? ==> p.estado == sessao.estado && p.resposta.info == TOKEN_INVALIDO)
      && (sessao.cpf.Some? ==>
            && p.resposta.transacoes.Some?
            && MovimentosDoExtrato(p.resposta.transacoes.value) == MovimentosDoLivro(s.transacoes, sessao.cpf.value)
            && (forall i :: 0 <= i < |p.resposta.transacoes.value| ==>
                  p.resposta.transacoes.value[i].atualizadoEm == p.resposta.transacoes.value[i].criadoEm)
            && "transacoes" in p.resposta.dados
            && p.resposta.dados["transacoes"] == DadosTransacoes(p.resposta.transacoes.value)
            && p.estado == s.(proximoId := s.proximoId + |s.transacoes|))
  {
    var sessao := SessaoDaRequisicao(s, req, agora);
    if sessao.cpf.Some? {
      var cpf, s1 := sessao.cpf.value, sessao.estado;
      assert s1.transacoes == s.transacoes && s1.usuarios == s.usuarios && s1.proximoId == s.proximoId;
      var linhas := Extrato(Listagem(MaisRecentesPrimeiro(s.transacoes), s.proximoId, agora), cpf, s.usuarios);
      assert TransacaoLer(s, req, agora).resposta.transacoes == Some(linhas);
      calc {
        MovimentosDoExtrato(linhas);
      == { ExtratoDaListagem(MaisRecentesPrimeiro(s.transacoes), s.proximoId, agora, cpf, s.usuarios); }
        MovimentosDoLivro(MaisRecentesPrimeiro(s.transacoes), cpf);
      == { MovimentosOrdenados(s.transacoes, cpf); }
        MovimentosDoLivro(s.transacoes, cpf);
      }
    }
  }

  // ---------------------------------------------------------------------------------------
  // The dispatcher as a whole

  /** Each known operation code is handed to its handler. */
  lemma Encaminhamento(s: Estado, req: Requisicao, agora: Instante, novo: Token)
    ensures var operacao, p := TextoOuVazio(req.operacao), Despachar(s, req, agora, novo);
      && (operacao == OP_USUARIO_CRIAR ==> p == UsuarioCriar(s, req))
      && (operacao == OP_USUARIO_LOGIN ==> p == UsuarioLogin(s, req, agora, novo))
      && (operacao == OP_USUARIO_LOGOUT ==> p == UsuarioLogout(s, req))
      && (operacao == OP_USUARIO_LER ==> p == UsuarioLer(s, req, agora))
      && (operacao == OP_TRANSACAO_CRIAR ==> p == TransacaoCriar(s, req, agora))
      && (operacao == OP_TRANSACAO_LER ==> p == TransacaoLer(s, req, agora))
      && (operacao == OP_DEPOSITAR ==> p == Depositar(s, req, agora))
      && (operacao == OP_USUARIO_ATUALIZAR ==> p == UsuarioAtualizarComoEscrito(s, req, agora))
  {
  }

  /** An unknown operation code is answered with the code echoed back and changes nothing. */
  lemma OperacaoDesconhecida(s: Estado, req: Requisicao, agora: Instante, novo: Token)
    requires TextoOuVazio(req.operacao) !in
      {OP_USUARIO_CRIAR, OP_USUARIO_LOGIN, OP_USUARIO_LOGOUT, OP_USUARIO_LER,
       OP_TRANSACAO_CRIAR, OP_TRANSACAO_LER, OP_DEPOSITAR, OP_USUARIO_ATUALIZAR}
    ensures Despachar(s, req, agora, novo)
         == Passo(s, NovaResposta(TextoOuVazio(req.operacao), false, "Operação desconhecida"))
  {
  }

  /**
   * A rejected request changes nothing, except that validating the request's own token may
   * evict it when it has expired.
   */
  lemma RecusaNaoMudaNada(s: Estado, req: Requisicao, agora: Instante, novo: Token)
    ensures var p := Despachar(s, req, agora, novo);
      !p.resposta.status ==>
        p.estado == s || p.estado == SessaoDaRequisicao(s, req, agora).estado
  {
    var operacao := TextoOuVazio(req.operacao);
    var p := Despachar(s, req, agora, novo);
    if operacao == OP_USUARIO_CRIAR {
      assert p == UsuarioCriar(s, req);
      UsuarioCriarSse(s, req);
    } else if operacao == OP_USUARIO_LOGIN {
      assert p == UsuarioLogin(s, req, agora, novo);
      UsuarioLoginSse(s, req, agora, novo);
    } else if operacao == OP_USUARIO_LOGOUT {
      assert p == UsuarioLogout(s, req);
      UsuarioLogoutSse(s, req);
      var token := TextoOuVazio(req.token);
      if token != [] && token !in s.sessoes {
        assert s.sessoes - {token} == s.sessoes;
      }
    } else if operacao == OP_USUARIO_LER {
      assert p == UsuarioLer(s, req, agora);
      UsuarioLerSse(s, req, agora);
    } else if operacao == OP_TRANSACAO_CRIAR {
      assert p == TransacaoCriar(s, req, agora);
      TransacaoCriarRecusas(s, req, agora);
    } else if operacao == OP_TRANSACAO_LER {
      assert p == TransacaoLer(s, req, agora);
      TransacaoLerExato(s, req, agora);
    } else if operacao == OP_DEPOSITAR {
      assert p == Depositar(s, req, agora);
      DepositarEfeito(s, req, agora);
    } else if operacao == OP_USUARIO_ATUALIZAR {
      assert p == UsuarioAtualizarComoEscrito(s, req, agora);
      UsuarioAtualizarSoCamposInformados(s, req, agora, false);
    }
  }

  /** Money enters the ledger only through depositar: every other request keeps the total. */
  lemma DinheiroSoEntraPorDeposito(s: Estado, req: Requisicao, agora: Instante, novo: Token)
    ensures var p := Despachar(s, req, agora, novo);
      Soma(p.estado.usuarios) == Soma(s.usuarios)
        + (if TextoOuVazio(req.operacao) == OP_DEPOSITAR && p.resposta.status then ValorOuZero(req.valorEnviado) else 0)
  {
    var operacao := TextoOuVazio(req.operacao);
    var p := Despachar(s, req, agora, novo);
    if operacao == OP_USUARIO_CRIAR {
      assert p == UsuarioCriar(s, req);
      UsuarioCriarSse(s, req);
      if p.resposta.status {
        var cpf := Trim(TextoOuVazio(req.cpf));
        SomaAlterada(s.usuarios, cpf, p.estado.usuarios[cpf]);
      }
    } else if operacao == OP_USUARIO_LOGIN {
      assert p == UsuarioLogin(s, req, agora, novo);
      UsuarioLoginSse(s, req, agora, novo);
    } else if operacao == OP_USUARIO_LOGOUT {
      assert p == UsuarioLogout(s, req);
      UsuarioLogoutSse(s, req);
    } else if operacao == OP_USUARIO_LER {
      assert p == UsuarioLer(s, req, agora);
      UsuarioLerSse(s, req, agora);
    } else if operacao == OP_TRANSACAO_CRIAR {
      assert p == TransacaoCriar(s, req, agora);
      TransacaoCriarRecusas(s, req, agora);
      if p.resposta.status {
        TransacaoCriarEfeito(s, req, agora);
      }
    } else if operacao == OP_TRANSACAO_LER {
      assert p == TransacaoLer(s, req, agora);
      TransacaoLerExato(s, req, agora);
    } else if operacao == OP_DEPOSITAR {
      assert p == Depositar(s, req, agora);
      DepositarEfeito(s, req, agora);
    } else if operacao == OP_USUARIO_ATUALIZAR {
      assert p == UsuarioAtualizarComoEscrito(s, req, agora);
      UsuarioAtualizarSoCamposInformados(s, req, agora, false);
      if p.resposta.status {
        var cpf := SessaoDaRequisicao(s, req, agora).cpf.value;
        SomaAlterada(s.usuarios, cpf, Perfil(s.usuarios[cpf], CamposDoPerfil(req)));
      }
    } else {
      assert p.estado == s;
    }
  }

  /** The log only grows, and only a successful transacao_criar appends to it, one record. */
  lemma LivroSoCresceComTransferencia(s: Estado, req: Requisicao, agora: Instante, novo: Token)
    ensures var p := Despachar(s, req, agora, novo);
      if TextoOuVazio(req.operacao) == OP_TRANSACAO_CRIAR && p.resposta.status
      then |p.estado.transacoes| == |s.transacoes| + 1 && p.estado.transacoes[..|s.transacoes|] == s.transacoes
      else p.estado.transacoes == s.transacoes
  {
    var operacao := TextoOuVazio(req.operacao);
    var p := Despachar(s, req, agora, novo);
    if operacao == OP_USUARIO_CRIAR {
      assert p == UsuarioCriar(s, req);
      UsuarioCriarSse(s, req);
    } else if operacao == OP_USUARIO_LOGIN {
      assert p == UsuarioLogin(s, req, agora, novo);
      UsuarioLoginSse(s, req, agora, novo);
    } else if operacao == OP_USUARIO_LOGOUT {
      assert p == UsuarioLogout(s, req);
      UsuarioLogoutSse(s, req);
    } else if operacao == OP_USUARIO_LER {
      assert p == UsuarioLer(s, req, agora);
      UsuarioLerSse(s, req, agora);
    } else if operacao == OP_TRANSACAO_CRIAR {
      assert p == TransacaoCriar(s, req, agora);
      TransacaoCriarRecusas(s, req, agora);
      if p.resposta.status {
        TransacaoCriarEfeito(s, req, agora);
      }
    } else if operacao == OP_TRANSACAO_LER {
      assert p == TransacaoLer(s, req, agora);
      TransacaoLerExato(s, req, agora);
    } else if operacao == OP_DEPOSITAR {
      assert p == Depositar(s, req, agora);
      DepositarEfeito(s, req, agora);
    } else if operacao == OP_USUARIO_ATUALIZAR {
      assert p == UsuarioAtualizarComoEscrito(s, req, agora);
      UsuarioAtualizarSoCamposInformados(s, req, agora, false);
    } else {
      assert p.estado == s;
    }
  }

  // ---------------------------------------------------------------------------------------
  // The ledger invariant

  /**
   * A row with a non-negative balance, and a name and password of `minimo` to 120 characters:
   * usuario_criar stores at least 6, the as-written usuario_atualizar at least 1.
   */
  predicate LinhaValida(linha: Linha, minimo: nat) {
    && linha.saldo >= 0
    && minimo <= |linha.nome| <= COMPRIMENTO_MAXIMO
    && minimo <= |linha.senha| <= COMPRIMENTO_MAXIMO
  }

  predicate ContasValidas(contas: Contas, minimo: nat) {
    forall c :: c in contas ==> LinhaValida(contas[c], minimo)
  }

  /** Every session belongs to an existing account. */
  predicate SessoesValidas(sessoes: Sessoes, contas: Contas) {
    forall t :: t in sessoes ==> sessoes[t].cpf in contas
  }

  /** Records are numbered 1, 2, ... and move a positive amount between two distinct existing accounts. */
  predicate LivroValido(log: seq<Registro>, contas: Contas) {
    forall i :: 0 <= i < |log| ==>
      && log[i].id == i + 1 && log[i].valor > 0 && log[i].cpfOrigem != log[i].cpfDestino
      && log[i].cpfOrigem in contas && log[i].cpfDestino in contas
      && log[i].atualizadoEm == log[i].criadoEm
  }

  /** The ledger invariant, with `minimo` the shortest name or password an account may hold. */
  predicate Invariante(s: Estado, minimo: nat) {
    ContasValidas(s.usuarios, minimo) && SessoesValidas(s.sessoes, s.usuarios) && LivroValido(s.transacoes, s.usuarios)
  }

  lemma InicialValido(minimo: nat)
    ensures Invariante(Inicial(), minimo)
  {
  }

  /** Replacing or adding a valid row keeps the invariant. */
  lemma ContaGravada(s: Estado, cpf: Cpf, linha: Linha, minimo: nat)
    requires Invariante(s, minimo) && LinhaValida(linha, minimo)
    ensures Invariante(s.(usuarios := s.usuarios[cpf := linha]), minimo)
  {
    var contas := s.usuarios[cpf := linha];
    assert forall t :: t in s.sessoes ==> s.sessoes[t].cpf in contas;
    assert forall i :: 0 <= i < |s.transacoes| ==>
      s.transacoes[i].cpfOrigem in contas && s.transacoes[i].cpfDestino in contas;
  }

  /** Validating a token keeps the invariant, and a live session names an existing account. */
  lemma SessaoValida(s: Estado, req: Requisicao, agora: Instante, minimo: nat)
    requires Invariante(s, minimo)
    ensures Invariante(SessaoDaRequisicao(s, req, agora).estado, minimo)
    ensures SessaoDaRequisicao(s, req, agora).cpf.Some? ==> SessaoDaRequisicao(s, req, agora).cpf.value in s.usuarios
  {
  }

  /** Under the invariant a live session always finds its account. */
  lemma SessaoSempreTemConta(s: Estado, req: Requisicao, agora: Instante, minimo: nat)
    requires Invariante(s, minimo)
    requires SessaoDaRequisicao(s, req, agora).cpf.Some?
    ensures UsuarioLer(s, req, agora).resposta.status
    ensures Depositar(s, req, agora).resposta.info != USUARIO_NAO_ENCONTRADO
  {
    SessaoValida(s, req, agora, minimo);
  }

  /** usuario_criar stores trimmed texts of 6 to 120 characters, so it keeps any minimum up to 6. */
  lemma UsuarioCriarPreserva(s: Estado, req: Requisicao, minimo: nat)
    requires Invariante(s, minimo) && minimo <= COMPRIMENTO_MINIMO
    ensures Invariante(UsuarioCriar(s, req).estado, minimo)
  {
    UsuarioCriarSse(s, req);
    var p := UsuarioCriar(s, req);
    if p.resposta.status {
      var cpf := Trim(TextoOuVazio(req.cpf));
      ContaGravada(s, cpf, p.estado.usuarios[cpf], minimo);
    }
  }

  lemma UsuarioLoginPreserva(s: Estado, req: Requisicao, agora: Instante, novo: Token, minimo: nat)
    requires Invariante(s, minimo)
    ensures Invariante(UsuarioLogin(s, req, agora, novo).estado, minimo)
  {
    UsuarioLoginSse(s, req, agora, novo);
  }

  lemma UsuarioLogoutPreserva(s: Estado, req: Requisicao, minimo: nat)
    requires Invariante(s, minimo)
    ensures Invariante(UsuarioLogout(s, req).estado, minimo)
  {
    UsuarioLogoutSse(s, req);
  }

  lemma TransacaoCriarPreserva(s: Estado, req: Requisicao, agora: Instante, minimo: nat)
    requires Invariante(s, minimo)
    ensures Invariante(TransacaoCriar(s, req, agora).estado, minimo)
  {
    SessaoValida(s, req, agora, minimo);
    TransacaoCriarRecusas(s, req, agora);
    var p := TransacaoCriar(s, req, agora);
    if p.resposta.status {
      TransacaoCriarEfeito(s, req, agora);
      var origem := SessaoDaRequisicao(s, req, agora).cpf.value;
      var destino := Trim(TextoOuVazio(req.cpfDestino));
      var novas := p.estado.usuarios;
      forall c | c in novas ensures LinhaValida(novas[c], minimo) {
        assert LinhaValida(s.usuarios[c], minimo);
      }
      var log := p.estado.transacoes;
      forall i | 0 <= i < |log|
        ensures log[i].id == i + 1 && log[i].valor > 0 && log[i].cpfOrigem != log[i].cpfDestino
        ensures log[i].cpfOrigem in novas && log[i].cpfDestino in novas
        ensures log[i].atualizadoEm == log[i].criadoEm
      {
        if i < |s.transacoes| {
          assert log[i] == s.transacoes[i];
        }
      }
    }
  }

  lemma TransacaoLerPreserva(s: Estado, req: Requisicao, agora: Instante, minimo: nat)
    requires Invariante(s, minimo)
    ensures Invariante(TransacaoLer(s, req, agora).estado, minimo)
  {
    SessaoValida(s, req, agora, minimo);
    TransacaoLerExato(s, req, agora);
  }

  lemma DepositarPreserva(s: Estado, req: Requisicao, agora: Instante, minimo: nat)
    requires Invariante(s, minimo)
    ensures Invariante(Depositar(s, req, agora).estado, minimo)
  {
    SessaoValida(s, req, agora, minimo);
    DepositarEfeito(s, req, agora);
    var p := Depositar(s, req, agora);
    if p.resposta.status {
      var cpf := SessaoDaRequisicao(s, req, agora).cpf.value;
      assert LinhaValida(s.usuarios[cpf], minimo);
      ContaGravada(s, cpf, p.estado.usuarios[cpf], minimo);
    }
  }

  /** A field the update stores: the trim of a given text whose measured length is within bounds. */
  lemma CampoGravado(v: string, aparaAntesDeMedir: bool, minimo: nat)
    requires Trim(v) != [] && NoLimite(Medida(v, aparaAntesDeMedir))
    requires minimo <= if aparaAntesDeMedir then COMPRIMENTO_MINIMO else 1
    ensures minimo <= |Trim(v)| <= COMPRIMENTO_MAXIMO
  {
  }

  /**
   * usuario_atualizar keeps the invariant. Measured after trimming it keeps the minimum of 6;
   * as written it only keeps names and passwords non-empty, since the trim may be shorter
   * than the text measured.
   */
  lemma UsuarioAtualizarPreserva(s: Estado, req: Requisicao, agora: Instante, aparaAntesDeMedir: bool, minimo: nat)
    requires Invariante(s, minimo)
    requires minimo <= if aparaAntesDeMedir then COMPRIMENTO_MINIMO else 1
    ensures Invariante(AtualizarPerfil(s, req, agora, aparaAntesDeMedir).estado, minimo)
  {
    SessaoValida(s, req, agora, minimo);
    UsuarioAtualizarSoCamposInformados(s, req, agora, aparaAntesDeMedir);
    var p := AtualizarPerfil(s, req, agora, aparaAntesDeMedir);
    if p.resposta.status {
      var cpf := SessaoDaRequisicao(s, req, agora).cpf.value;
      var campos := CamposDoPerfil(req);
      assert LinhaValida(s.usuarios[cpf], minimo);
      if Informado(campos.nome) {
        CampoGravado(campos.nome.value, aparaAntesDeMedir, minimo);
      }
      if Informado(campos.senha) {
        CampoGravado(campos.senha.value, aparaAntesDeMedir, minimo);
      }
      ContaGravada(s, cpf, Perfil(s.usuarios[cpf], campos), minimo);
    }
  }

  /** Every operation but usuario_atualizar keeps the invariant for any minimum up to 6. */
  lemma DemaisOperacoesPreservam(s: Estado, req: Requisicao, agora: Instante, novo: Token, minimo: nat)
    requires Invariante(s, minimo) && minimo <= COMPRIMENTO_MINIMO
    requires TextoOuVazio(req.operacao) != OP_USUARIO_ATUALIZAR
    ensures Invariante(Despachar(s, req, agora, novo).estado, minimo)
  {
    var operacao := TextoOuVazio(req.operacao);
    var p := Despachar(s, req, agora, novo);
    if operacao == OP_USUARIO_CRIAR {
      assert p == UsuarioCriar(s, req);
      UsuarioCriarPreserva(s, req, minimo);
    } else if operacao == OP_USUARIO_LOGIN {
      assert p == UsuarioLogin(s, req, agora, novo);
      UsuarioLoginPreserva(s, req, agora, novo, minimo);
    } else if operacao == OP_USUARIO_LOGOUT {
      assert p == UsuarioLogout(s, req);
      UsuarioLogoutPreserva(s, req, minimo);
    } else if operacao == OP_USUARIO_LER {
      assert p == UsuarioLer(s, req, agora);
      UsuarioLerSse(s, req, agora);
      SessaoValida(s, req, agora, minimo);
    } else if operacao == OP_TRANSACAO_CRIAR {
      assert p == TransacaoCriar(s, req, agora);
      TransacaoCriarPreserva(s, req, agora, minimo);
    } else if operacao == OP_TRANSACAO_LER {
      assert p == TransacaoLer(s, req, agora);
      TransacaoLerPreserva(s, req, agora, minimo);
    } else if operacao == OP_DEPOSITAR {
      assert p == Depositar(s, req, agora);
      DepositarPreserva(s, req, agora, minimo);
    } else {
      assert p.estado == s;
    }
  }

  /**
   * The switch as written keeps the invariant with names and passwords of 1 to 120
   * characters: balances never negative, sessions and records naming existing accounts.
   */
  lemma DespacharPreservaInvariante(s: Estado, req: Requisicao, agora: Instante, novo: Token)
    requires Invariante(s, 1)
    ensures Invariante(Despachar(s, req, agora, novo).estado, 1)
  {
    if TextoOuVazio(req.operacao) == OP_USUARIO_ATUALIZAR {
      assert Despachar(s, req, agora, novo) == AtualizarPerfil(s, req, agora, false);
      UsuarioAtualizarPreserva(s, req, agora, false, 1);
    } else {
      DemaisOperacoesPreservam(s, req, agora, novo, 1);
    }
  }

  /** With usuario_atualizar measuring the trimmed text, every request keeps names and passwords at 6 to 120 characters. */
  lemma DespacharCorrigidoPreservaInvariante(s: Estado, req: Requisicao, agora: Instante, novo: Token)
    requires Invariante(s, COMPRIMENTO_MINIMO)
    ensures Invariante(DespacharCorrigido(s, req, agora, novo).estado, COMPRIMENTO_MINIMO)
  {
    if TextoOuVazio(req.operacao) == OP_USUARIO_ATUALIZAR {
      assert DespacharCorrigido(s, req, agora, novo) == AtualizarPerfil(s, req, agora, true);
      UsuarioAtualizarPreserva(s, req, agora, true, COMPRIMENTO_MINIMO);
    } else {
      DemaisOperacoesPreservam(s, req, agora, novo, COMPRIMENTO_MINIMO);
    }
  }
}
