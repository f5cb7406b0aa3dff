/**
 * Runs of the dispatcher: the session of the command-line test client
 * (com.pix.test.PixClientTest) against a server started on an empty database, and the input
 * on which usuario_atualizar, as written, stores a name shorter than the allowed minimum.
 * Both are proved for any accounts and tokens of the right shape, then for the client's own
 * literals.
 */
module Cenarios {
  import opened Base
  import opened Model
  import opened Service
  import opened Dao
  import opened Handlers
  import opened Properties

  /** The data of one account as the client sends it. */
  datatype Cliente = Cliente(nome: string, cpf: Cpf, senha: string)

  /** A text usuario_criar takes as it is: already trimmed, and of an allowed length. */
  predicate Aceitavel(x: string) {
    Trim(x) == x && NoLimite(|x|)
  }

  predicate ClienteValido(c: Cliente) {
    Aceitavel(c.nome) && Aceitavel(c.senha) && c.cpf != [] && Trim(c.cpf) == c.cpf
  }

  /**
   * The cast of the client test: the two accounts, the token the login draws, and the new
   * name and password of the profile update.
   */
  datatype Elenco = Elenco(a: Cliente, b: Cliente, token: Token, novoNome: string, novaSenha: string)

  predicate ElencoValido(e: Elenco) {
    && ClienteValido(e.a) && ClienteValido(e.b) && e.a.cpf != e.b.cpf
    && e.token != []
    && Aceitavel(e.novoNome) && Aceitavel(e.novaSenha) && e.novaSenha != e.a.senha
  }

  /** A request line holding only its operation code. */
  function Pedido(operacao: string): Requisicao {
    Requisicao(Some(operacao), None, None, None, None, None, None, None, None)
  }

  function Criar(c: Cliente): Requisicao {
    Pedido(OP_USUARIO_CRIAR).(nome := Some(c.nome), cpf := Some(c.cpf), senha := Some(c.senha))
  }

  function Entrar(c: Cliente): Requisicao {
    Pedido(OP_USUARIO_LOGIN).(cpf := Some(c.cpf), senha := Some(c.senha))
  }

  function Autenticado(operacao: string, token: Token): Requisicao {
    Pedido(operacao).(token := Some(token))
  }

  /** The authenticated request lines the client test sends, in order. */
  function Ler(e: Elenco): Requisicao { Autenticado(OP_USUARIO_LER, e.token) }
  function Deposito(e: Elenco): Requisicao { Autenticado(OP_DEPOSITAR, e.token).(valorEnviado := Some(150000)) }
  function Transferencia(e: Elenco): Requisicao {
    Autenticado(OP_TRANSACAO_CRIAR, e.token).(cpfDestino := Some(e.b.cpf), valor := Some(30000))
  }
  function ExtratoPedido(e: Elenco): Requisicao { Autenticado(OP_TRANSACAO_LER, e.token) }
  function Alteracao(e: Elenco): Requisicao {
    Autenticado(OP_USUARIO_ATUALIZAR, e.token).(usuario := Some(Campos(Some(e.novoNome), Some(e.novaSenha))))
  }
  function Saida(e: Elenco): Requisicao { Autenticado(OP_USUARIO_LOGOUT, e.token) }

  function Conta(c: Cliente, saldo: Centavos): Linha { Linha(c.nome, c.senha, saldo) }
  function SessaoAberta(e: Elenco): Sessoes { map[e.token := TokenInfo(e.a.cpf, 2)] }

  /** The states the run passes through. */
  function Apos1(e: Elenco): Estado { Inicial().(usuarios := map[e.a.cpf := Conta(e.a, 0)]) }
  function Apos2(e: Elenco): Estado {
    Estado(map[e.a.cpf := Conta(e.a, 0), e.b.cpf := Conta(e.b, 0)], [], map[], 1)
  }
  function Apos3(e: Elenco): Estado { Apos2(e).(sessoes := SessaoAberta(e)) }
  function Apos5(e: Elenco): Estado {
    Apos3(e).(usuarios := map[e.a.cpf := Conta(e.a, 150000), e.b.cpf := Conta(e.b, 0)])
  }
  function Apos6(e: Elenco): Estado {
    Estado(map[e.a.cpf := Conta(e.a, 120000), e.b.cpf := Conta(e.b, 30000)],
           [Registro(1, e.a.cpf, e.b.cpf, 30000, 5, 5)], SessaoAberta(e), 2)
  }
  function Apos7(e: Elenco): Estado { Apos6(e).(proximoId := 3) }
  function Apos8(e: Elenco): Estado {
    Apos7(e).(usuarios := map[e.a.cpf := Linha(e.novoNome, e.novaSenha, 120000), e.b.cpf := Conta(e.b, 30000)])
  }
  function Apos9(e: Elenco): Estado { Apos8(e).(sessoes := map[]) }

  function Criado(): Envelope { NovaResposta(OP_USUARIO_CRIAR, true, "Usuário criado com sucesso") }

  lemma CriacaoDoPrimeiro(e: Elenco)
    requires ElencoValido(e)
    ensures UsuarioCriar(Inicial(), Criar(e.a)) == Passo(Apos1(e), Criado())
  {
  }

  lemma CriacaoDoSegundo(e: Elenco)
    requires ElencoValido(e)
    ensures UsuarioCriar(Apos1(e), Criar(e.b)) == Passo(Apos2(e), Criado())
  {
    assert e.b.cpf !in Apos1(e).usuarios;
  }

  lemma LoginDoPrimeiro(e: Elenco)
    requires ElencoValido(e)
    ensures UsuarioLogin(Apos2(e), Entrar(e.a), 2, e.token)
         == Passo(Apos3(e), NovaResposta(OP_USUARIO_LOGIN, true, "Login bem-sucedido").(
                              token := Some(e.token), dados := map["token" := Texto(e.token)]))
  {
    assert e.a.cpf in Apos2(e).usuarios && Apos2(e).usuarios[e.a.cpf].senha == e.a.senha;
  }

  /** The session opened at instant 2 is live at every later instant of the run. */
  lemma SessaoViva(e: Elenco, s: Estado, req: Requisicao, agora: Instante)
    requires e.token != [] && s.sessoes == SessaoAberta(e) && req.token == Some(e.token) && 2 <= agora <= 9
    ensures SessaoDaRequisicao(s, req, agora) == Sessao(Some(e.a.cpf), s)
  {
    assert HorasEntre(2, agora) == 0;
  }

  lemma LeituraDoPrimeiro(e: Elenco)
    requires ElencoValido(e)
    ensures UsuarioLer(Apos3(e), Ler(e), 3)
         == Passo(Apos3(e), NovaResposta(OP_USUARIO_LER, true, "Dados do usuário").(
                              usuario := Some(UsuarioDados(e.a.nome, e.a.cpf, 0)),
                              dados := map["usuario" := DadosUsuario(UsuarioDados(e.a.nome, e.a.cpf, 0))]))
  {
    SessaoViva(e, Apos3(e), Ler(e), 3);
  }

  lemma DepositoDoPrimeiro(e: Elenco)
    requires ElencoValido(e)
    ensures Depositar(Apos3(e), Deposito(e), 4)
         == Passo(Apos5(e), NovaResposta(OP_DEPOSITAR, true, "Depósito realizado com sucesso").(
                              dados := map["novo_saldo" := Numero(150000)]))
  {
    SessaoViva(e, Apos3(e), Deposito(e), 4);
    var contas := Apos3(e).usuarios;
    assert Atualizado(contas, e.a.cpf, Conta(e.a, 150000)) == Apos5(e).usuarios;
  }

  lemma TransferenciaDoPrimeiro(e: Elenco)
    requires ElencoValido(e)
    ensures TransacaoCriar(Apos5(e), Transferencia(e), 5)
         == Passo(Apos6(e), NovaResposta(OP_TRANSACAO_CRIAR, true, "Transação realizada com sucesso").(
                              dados := map["id" := Numero(1), "valor" := Numero(30000), "data_hora" := Momento(5)]))
  {
    SessaoViva(e, Apos5(e), Transferencia(e), 5);
    ContasDaTransferencia(e);
  }

  /** The debit and the credit of the transfer, on the two accounts. */
  lemma ContasDaTransferencia(e: Elenco)
    requires ElencoValido(e)
    ensures Transferido(Apos5(e).usuarios, e.a.cpf, e.b.cpf, 30000) == Apos6(e).usuarios
  {
    var contas := Apos5(e).usuarios;
    var debitado := map[e.a.cpf := Conta(e.a, 120000), e.b.cpf := Conta(e.b, 0)];
    assert Debitado(contas, e.a.cpf, 30000) == debitado;
    assert Creditado(debitado, e.b.cpf, 30000) == Apos6(e).usuarios;
  }

  /** The statement line: the listing renumbers the record with the next counter value, 2. */
  function LinhaDoPrimeiro(e: Elenco): TransacaoDados {
    TransacaoDados(2, 30000, Parte(e.a.nome, e.a.cpf), Parte(e.b.nome, e.b.cpf), 6, 6)
  }

  lemma ExtratoDoPrimeiro(e: Elenco)
    requires ElencoValido(e)
    ensures TransacaoLer(Apos6(e), ExtratoPedido(e), 6)
         == Passo(Apos7(e), NovaResposta(OP_TRANSACAO_LER, true, "Transações do usuário").(
                              transacoes := Some([LinhaDoPrimeiro(e)]),
                              dados := map["transacoes" := DadosTransacoes([LinhaDoPrimeiro(e)])]))
  {
    SessaoViva(e, Apos6(e), ExtratoPedido(e), 6);
    var log := Apos6(e).transacoes;
    assert log[..0] == [];
    assert MaisRecentesPrimeiro(log) == log;
    var todas := Listagem(log, 2, 6);
    assert todas == [Transacao(2, e.a.cpf, e.b.cpf, 30000, 6, 6)];
    assert todas[..0] == [];
    assert Extrato(todas, e.a.cpf, Apos6(e).usuarios) == [LinhaDoPrimeiro(e)];
  }

  lemma AlteracaoDoPrimeiro(e: Elenco)
    requires ElencoValido(e)
    ensures UsuarioAtualizarComoEscrito(Apos7(e), Alteracao(e), 7)
         == Passo(Apos8(e), NovaResposta(OP_USUARIO_ATUALIZAR, true, "Dados atualizados com sucesso"))
  {
    SessaoViva(e, Apos7(e), Alteracao(e), 7);
    var campos := CamposDoPerfil(Alteracao(e));
    assert campos == Campos(Some(e.novoNome), Some(e.novaSenha));
    assert Informado(campos.nome) && Informado(campos.senha);
    var contas := Apos7(e).usuarios;
    assert Atualizado(contas, e.a.cpf, Linha(e.novoNome, e.novaSenha, 120000)) == Apos8(e).usuarios;
  }

  lemma SaidaDoPrimeiro(e: Elenco)
    requires ElencoValido(e)
    ensures UsuarioLogout(Apos8(e), Saida(e))
         == Passo(Apos9(e), NovaResposta(OP_USUARIO_LOGOUT, true, "Logout realizado com sucesso"))
  {
    assert SessaoAberta(e) - {e.token} == map[];
  }

  lemma SenhaAntigaRecusada(e: Elenco, novo: Token)
    requires ElencoValido(e)
    ensures UsuarioLogin(Apos9(e), Entrar(e.a), 9, novo)
         == Passo(Apos9(e), NovaResposta(OP_USUARIO_LOGIN, false, "Senha inválida"))
  {
    assert e.a.cpf in Apos9(e).usuarios && Apos9(e).usuarios[e.a.cpf].senha == e.novaSenha;
  }

  /**
   * The client test's sequence against an empty database, for any two valid accounts: creation
   * of both, login, profile read, a deposit of 1500.00, a transfer of 300.00, the statement, a
   * profile update, logout, and a login with the old password, which the update has replaced.
   * `outro` is the token any later login would draw.
   */
  lemma Roteiro(e: Elenco, outro: Token)
    requires ElencoValido(e)
    ensures
      var p1 := Despachar(Inicial(), Criar(e.a), 0, outro);
      var p2 := Despachar(p1.estado, Criar(e.b), 1, outro);
      var p3 := Despachar(p2.estado, Entrar(e.a), 2, e.token);
      var p4 := Despachar(p3.estado, Ler(e), 3, outro);
      var p5 := Despachar(p4.estado, Deposito(e), 4, outro);
      var p6 := Despachar(p5.estado, Transferencia(e), 5, outro);
      var p7 := Despachar(p6.estado, ExtratoPedido(e), 6, outro);
      var p8 := Despachar(p7.estado, Alteracao(e), 7, outro);
      var p9 := Despachar(p8.estado, Saida(e), 8, outro);
      var p10 := Despachar(p9.estado, Entrar(e.a), 9, outro);
      && p1.resposta.status && p2.resposta.status
      && p3.resposta.token == Some(e.token)
      && p4.resposta.usuario == Some(UsuarioDados(e.a.nome, e.a.cpf, 0))
      && p5.resposta.dados == map["novo_saldo" := Numero(150000)]
      && p6.resposta.status
      && p6.estado == Apos6(e)
      && p7.resposta.transacoes == Some([LinhaDoPrimeiro(e)])
      && p8.estado == Apos8(e)
      && p9.resposta.status && p9.estado.sessoes == map[]
      && p10.resposta == NovaResposta(OP_USUARIO_LOGIN, false, "Senha inválida")
      && p10.estado == Apos9(e)
  {
    assert Despachar(Inicial(), Criar(e.a), 0, outro) == UsuarioCriar(Inicial(), Criar(e.a)) by {
      Encaminhamento(Inicial(), Criar(e.a), 0, outro);
    }
    CriacaoDoPrimeiro(e);
    assert Despachar(Apos1(e), Criar(e.b), 1, outro) == UsuarioCriar(Apos1(e), Criar(e.b)) by {
      Encaminhamento(Apos1(e), Criar(e.b), 1, outro);
    }
    CriacaoDoSegundo(e);
    assert Despachar(Apos2(e), Entrar(e.a), 2, e.token) == UsuarioLogin(Apos2(e), Entrar(e.a), 2, e.token) by {
      Encaminhamento(Apos2(e), Entrar(e.a), 2, e.token);
    }
    LoginDoPrimeiro(e);
    assert Despachar(Apos3(e), Ler(e), 3, outro) == UsuarioLer(Apos3(e), Ler(e), 3) by {
      Encaminhamento(Apos3(e), Ler(e), 3, outro);
    }
    LeituraDoPrimeiro(e);
    assert Despachar(Apos3(e), Deposito(e), 4, outro) == Depositar(Apos3(e), Deposito(e), 4) by {
      Encaminhamento(Apos3(e), Deposito(e), 4, outro);
    }
    DepositoDoPrimeiro(e);
    assert Despachar(Apos5(e), Transferencia(e), 5, outro) == TransacaoCriar(Apos5(e), Transferencia(e), 5) by {
      Encaminhamento(Apos5(e), Transferencia(e), 5, outro);
    }
    TransferenciaDoPrimeiro(e);
    assert Despachar(Apos6(e), ExtratoPedido(e), 6, outro) == TransacaoLer(Apos6(e), ExtratoPedido(e), 6) by {
      Encaminhamento(Apos6(e), ExtratoPedido(e), 6, outro);
    }
    ExtratoDoPrimeiro(e);
    assert Despachar(Apos7(e), Alteracao(e), 7, outro) == UsuarioAtualizarComoEscrito(Apos7(e), Alteracao(e), 7) by {
      Encaminhamento(Apos7(e), Alteracao(e), 7, outro);
    }
    AlteracaoDoPrimeiro(e);
    assert Despachar(Apos8(e), Saida(e), 8, outro) == UsuarioLogout(Apos8(e), Saida(e)) by {
      Encaminhamento(Apos8(e), Saida(e), 8, outro);
    }
    SaidaDoPrimeiro(e);
    assert Despachar(Apos9(e), Entrar(e.a), 9, outro) == UsuarioLogin(Apos9(e), Entrar(e.a), 9, outro) by {
      Encaminhamento(Apos9(e), Entrar(e.a), 9, outro);
    }
    SenhaAntigaRecusada(e, outro);
  }

  /** The run ends in a state that keeps the ledger invariant, holding exactly the deposited money. */
  lemma RoteiroTerminaValido(e: Elenco)
    requires ElencoValido(e)
    ensures Invariante(Apos9(e), COMPRIMENTO_MINIMO)
    ensures Soma(Apos9(e).usuarios) == 150000
  {
    var contas := Apos9(e).usuarios;
    SomaSeparando(contas, e.a.cpf);
    assert contas - {e.a.cpf} == map[e.b.cpf := Conta(e.b, 30000)];
    SomaSeparando(contas - {e.a.cpf}, e.b.cpf);
    assert contas - {e.a.cpf} - {e.b.cpf} == map[];
    assert LinhaValida(contas[e.a.cpf], COMPRIMENTO_MINIMO) && LinhaValida(contas[e.b.cpf], COMPRIMENTO_MINIMO);
  }

  // ---------------------------------------------------------------------------------------
  // The client's own literals

  function Paulo(): Cliente { Cliente("Paulo Plinio", "123.456.789-00", "senha123") }
  function Maicou(): Cliente { Cliente("Maicou Jequison", "987.654.321-00", "senha456") }
  function ElencoDoTeste(): Elenco {
    Elenco(Paulo(), Maicou(), "3f2c9a1e-0001", "Maicou Jordao", "novaSenha123")
  }

  /** A literal with no blank at either end and of an allowed length is acceptable. */
  lemma LiteralAceitavel(x: string)
    requires NoLimite(|x|) && !Branco(x[0]) && !Branco(x[|x| - 1])
    ensures Aceitavel(x)
  {
    TrimSemBrancosNasPontas(x);
  }

  lemma ElencoDoTesteValido()
    ensures ElencoValido(ElencoDoTeste())
  {
    LiteralAceitavel("Paulo Plinio");
    LiteralAceitavel("senha123");
    LiteralAceitavel("Maicou Jequison");
    LiteralAceitavel("senha456");
    LiteralAceitavel("Maicou Jordao");
    LiteralAceitavel("novaSenha123");
    TrimSemBrancosNasPontas("123.456.789-00");
    TrimSemBrancosNasPontas("987.654.321-00");
  }

  /** The client test's own literals meet the requirements of Roteiro, so its whole run is as stated there. */
  lemma RoteiroDoCliente()
    ensures ElencoValido(ElencoDoTeste())
    ensures Despachar(Apos5(ElencoDoTeste()), Transferencia(ElencoDoTeste()), 5, "3f2c9a1e-0002").estado
         == Apos6(ElencoDoTeste())
    ensures Soma(Apos9(ElencoDoTeste()).usuarios) == 150000
  {
    var e := ElencoDoTeste();
    ElencoDoTesteValido();
    Roteiro(e, "3f2c9a1e-0002");
    assert Despachar(Apos5(e), Transferencia(e), 5, "3f2c9a1e-0002") == TransacaoCriar(Apos5(e), Transferencia(e), 5) by {
      Encaminhamento(Apos5(e), Transferencia(e), 5, "3f2c9a1e-0002");
    }
    TransferenciaDoPrimeiro(e);
    RoteiroTerminaValido(e);
  }

  // ---------------------------------------------------------------------------------------
  // The profile update that measures before trimming

  /** An account and a live session for it, as a login at instant 0 leaves them. */
  function ContaComSessao(c: Cliente, token: Token): Estado {
    Estado(map[c.cpf := Conta(c, 0)], [], map[token := TokenInfo(c.cpf, 0)], 1)
  }

  /** A profile update that changes only the name. */
  function NovoNome(token: Token, nome: string): Requisicao {
    Autenticado(OP_USUARIO_ATUALIZAR, token).(usuario := Some(Campos(Some(nome), None)))
  }

  /**
   * As written, usuario_atualizar accepts a name whose padded length is allowed but whose
   * trim, the value stored, is shorter than the minimum, leaving an account that
   * usuario_criar could never have made.
   */
  lemma ComoEscritoGravaNomeCurto(c: Cliente, token: Token, nome: string)
    requires ClienteValido(c) && token != []
    requires NoLimite(|nome|) && Trim(nome) != [] && |Trim(nome)| < COMPRIMENTO_MINIMO
    ensures Invariante(ContaComSessao(c, token), COMPRIMENTO_MINIMO)
    ensures var p := UsuarioAtualizarComoEscrito(ContaComSessao(c, token), NovoNome(token, nome), 60);
      && p.resposta.status
      && p.estado.usuarios[c.cpf].nome == Trim(nome)
      && !Invariante(p.estado, COMPRIMENTO_MINIMO)
  {
    var s := ContaComSessao(c, token);
    assert SessaoDaRequisicao(s, NovoNome(token, nome), 60) == Sessao(Some(c.cpf), s) by {
      assert HorasEntre(0, 60) == 0;
    }
    var p := UsuarioAtualizarComoEscrito(s, NovoNome(token, nome), 60);
    assert p.estado.usuarios[c.cpf] == Linha(Trim(nome), c.senha, 0);
    assert !LinhaValida(p.estado.usuarios[c.cpf], COMPRIMENTO_MINIMO);
  }

  /** Measured after trimming, the same request is refused with the length message. */
  lemma CorrigidoRecusaNomeCurto(c: Cliente, token: Token, nome: string)
    requires ClienteValido(c) && token != []
    requires Trim(nome) != [] && |Trim(nome)| < COMPRIMENTO_MINIMO
    ensures UsuarioAtualizar(ContaComSessao(c, token), NovoNome(token, nome), 60)
         == Passo(ContaComSessao(c, token), NovaResposta(OP_USUARIO_ATUALIZAR, false, NOME_FORA_DO_LIMITE))
  {
    var s := ContaComSessao(c, token);
    assert SessaoDaRequisicao(s, NovoNome(token, nome), 60) == Sessao(Some(c.cpf), s) by {
      assert HorasEntre(0, 60) == 0;
    }
  }

  lemma TrimAcolchoado()
    ensures Trim("  Ana  ") == "Ana"
  {
    var s0, s1, s2 := "  Ana  ", " Ana  ", "Ana  ";
    assert s0[1..] == s1 && s1[1..] == s2;
    assert SemBrancosIniciais(s2) == s2;
    assert SemBrancosIniciais(s1) == s2;
    assert SemBrancosIniciais(s0) == s2;
    var f1, f0 := "Ana ", "Ana";
    assert s2[..4] == f1 && f1[..3] == f0;
    assert SemBrancosFinais(f0) == f0;
    assert SemBrancosFinais(f1) == f0;
    assert SemBrancosFinais(s2) == f0;
  }

  /** The witness: "  Ana  " is 7 characters long and its trim "Ana" only 3, so the as-written update stores "Ana". */
  lemma NomeAcolchoado()
    ensures NoLimite(|"  Ana  "|) && Trim("  Ana  ") == "Ana" && |Trim("  Ana  ")| < COMPRIMENTO_MINIMO
    ensures var p := UsuarioAtualizarComoEscrito(ContaComSessao(Paulo(), "3f2c9a1e-0001"),
                                                 NovoNome("3f2c9a1e-0001", "  Ana  "), 60);
      p.resposta.status && p.estado.usuarios[Paulo().cpf].nome == "Ana" && !Invariante(p.estado, COMPRIMENTO_MINIMO)
    ensures UsuarioAtualizar(ContaComSessao(Paulo(), "3f2c9a1e-0001"), NovoNome("3f2c9a1e-0001", "  Ana  "), 60).resposta
         == NovaResposta(OP_USUARIO_ATUALIZAR, false, NOME_FORA_DO_LIMITE)
  {
    TrimAcolchoado();
    ElencoDoTesteValido();
    ComoEscritoGravaNomeCurto(Paulo(), "3f2c9a1e-0001", "  Ana  ");
    CorrigidoRecusaNomeCurto(Paulo(), "3f2c9a1e-0001", "  Ana  ");
  }
}
