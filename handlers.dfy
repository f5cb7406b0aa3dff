/**
 * What each request handler of com.pix.server.PixServer does, as a function from the server's
 * whole state (the two tables, the session table and the Transacao id counter) and one typed
 * request to the new state and the response envelope. The imperative handlers in module Server
 * are proved to compute exactly these functions.
 */
module Handlers {
  import opened Base
  import opened Model
  import opened Service
  import opened Dao

  /** Everything a request can read or change. */
  datatype Estado = Estado(
    usuarios: Contas,
    transacoes: seq<Registro>,
    sessoes: Sessoes,
    proximoId: int)

  /** The nested "usuario" object of usuario_atualizar. */
  datatype Campos = Campos(nome: Option<string>, senha: Option<string>)

  /**
   * A decoded request line: each field a handler reads, None when the line lacks it. The
   * operation code, texts and amounts are as Jackson's asText/asDouble would give them.
   */
  datatype Requisicao = Requisicao(
    operacao: Option<string>,
    nome: Option<string>,
    cpf: Option<string>,
    senha: Option<string>,
    token: Option<string>,
    cpfDestino: Option<string>,
    valor: Option<Centavos>,
    valorEnviado: Option<Centavos>,
    usuario: Option<Campos>)

  /** The state after a request and the response sent for it. */
  datatype Passo = Passo(estado: Estado, resposta: Envelope)

  const OP_USUARIO_CRIAR := "usuario_criar"
  const OP_USUARIO_LOGIN := "usuario_login"
  const OP_USUARIO_LOGOUT := "usuario_logout"
  const OP_USUARIO_LER := "usuario_ler"
  const OP_TRANSACAO_CRIAR := "transacao_criar"
  const OP_TRANSACAO_LER := "transacao_ler"
  const OP_DEPOSITAR := "depositar"
  const OP_USUARIO_ATUALIZAR := "usuario_atualizar"

  const TOKEN_INVALIDO := "Token inválido ou expirado"
  const USUARIO_NAO_ENCONTRADO := "Usuário não encontrado"
  const VALOR_NAO_POSITIVO := "Valor deve ser positivo"
  const NOME_FORA_DO_LIMITE := "Nome deve ter entre 6 e 120 caracteres"
  const SENHA_FORA_DO_LIMITE := "Senha deve ter entre 6 e 120 caracteres"

  const COMPRIMENTO_MINIMO := 6
  const COMPRIMENTO_MAXIMO := 120

  /** asText(""): the text of a field, or "" when it is missing. */
  function TextoOuVazio(campo: Option<string>): string {
    campo.GetOr("")
  }

  /** asDouble(0): the amount of a field, or 0 when it is missing. */
  function ValorOuZero(campo: Option<Centavos>): Centavos {
    campo.GetOr(0)
  }

  predicate NoLimite(comprimento: int) {
    COMPRIMENTO_MINIMO <= comprimento <= COMPRIMENTO_MAXIMO
  }

  function Falha(operacao: string, info: string): Envelope {
    NovaResposta(operacao, false, info)
  }

  function Sucesso(operacao: string, info: string): Envelope {
    NovaResposta(operacao, true, info)
  }

  /** A server started on an empty database: no accounts, no records, no sessions, ids from 1. */
  function Inicial(): Estado {
    Estado(map[], [], map[], 1)
  }

  /** The caller's cpf, if any, and the state after validateToken may have evicted the token. */
  datatype Sessao = Sessao(cpf: Option<Cpf>, estado: Estado)

  /** PixServer.validateToken: TokenManager.validateToken on the request's token field. */
  function SessaoDaRequisicao(s: Estado, req: Requisicao, agora: Instante): (r: Sessao)
    ensures r.estado == s.(sessoes := r.estado.sessoes)
    ensures r.cpf.Some? ==> TextoOuVazio(req.token) in s.sessoes && r.estado == s
  {
    var v := Validar(s.sessoes, TextoOuVazio(req.token), agora);
    Sessao(v.cpf, s.(sessoes := v.sessoes))
  }

  /** opUsuarioCriar */
  function UsuarioCriar(s: Estado, req: Requisicao): (r: Passo)
    ensures r.resposta.operacao == OP_USUARIO_CRIAR
    ensures r.estado == s.(usuarios := r.estado.usuarios)
    ensures !r.resposta.status ==> r.estado == s
  {
    var nome := Trim(TextoOuVazio(req.nome));
    var cpf := Trim(TextoOuVazio(req.cpf));
    var senha := Trim(TextoOuVazio(req.senha));
    if nome == [] || cpf == [] || senha == [] then
      Passo(s, Falha(OP_USUARIO_CRIAR, "Nome, CPF e senha são obrigatórios"))
    else if !NoLimite(|nome|) then
      Passo(s, Falha(OP_USUARIO_CRIAR, NOME_FORA_DO_LIMITE))
    else if !NoLimite(|senha|) then
      Passo(s, Falha(OP_USUARIO_CRIAR, SENHA_FORA_DO_LIMITE))
    else if cpf in s.usuarios then
      Passo(s, Falha(OP_USUARIO_CRIAR, "Usuário já existente"))
    else
      Passo(s.(usuarios := s.usuarios[cpf := Linha(nome, senha, 0)]),
            Sucesso(OP_USUARIO_CRIAR, "Usuário criado com sucesso"))
  }

  /** opUsuarioLogin; `novoToken` is the UUID the token manager draws. */
  function UsuarioLogin(s: Estado, req: Requisicao, agora: Instante, novoToken: Token): (r: Passo)
    ensures r.resposta.operacao == OP_USUARIO_LOGIN
    ensures r.estado == s.(sessoes := r.estado.sessoes)
    ensures !r.resposta.status ==> r.estado == s
    ensures r.resposta.status ==> r.resposta.token == Some(novoToken) && novoToken in r.estado.sessoes
  {
    var cpf := Trim(TextoOuVazio(req.cpf));
    var senha := Trim(TextoOuVazio(req.senha));
    if cpf == [] || senha == [] then
      Passo(s, Falha(OP_USUARIO_LOGIN, "CPF e senha são obrigatórios"))
    else if cpf !in s.usuarios then
      Passo(s, Falha(OP_USUARIO_LOGIN, "Usuário inexistente"))
    else if s.usuarios[cpf].senha != senha then
      Passo(s, Falha(OP_USUARIO_LOGIN, "Senha inválida"))
    else
      Passo(s.(sessoes := s.sessoes[novoToken := TokenInfo(cpf, agora)]),
            Sucesso(OP_USUARIO_LOGIN, "Login bem-sucedido").(
              token := Some(novoToken),
              dados := map["token" := Texto(novoToken)]))
  }

  /** opUsuarioLogout */
  function UsuarioLogout(s: Estado, req: Requisicao): (r: Passo)
    ensures r.resposta.operacao == OP_USUARIO_LOGOUT
    ensures r.estado == s.(sessoes := r.estado.sessoes)
    ensures TextoOuVazio(req.token) != [] ==> TextoOuVazio(req.token) !in r.estado.sessoes
  {
    var token := TextoOuVazio(req.token);
    if token == [] then
      Passo(s, Falha(OP_USUARIO_LOGOUT, "Token é obrigatório"))
    else
      var s' := s.(sessoes := s.sessoes - {token});
      if token in s.sessoes then Passo(s', Sucesso(OP_USUARIO_LOGOUT, "Logout realizado com sucesso"))
      else Passo(s', Falha(OP_USUARIO_LOGOUT, TOKEN_INVALIDO))
  }

  /** opUsuarioLer */
  function UsuarioLer(s: Estado, req: Requisicao, agora: Instante): (r: Passo)
    ensures r.resposta.operacao == OP_USUARIO_LER
    ensures r.estado == SessaoDaRequisicao(s, req, agora).estado
    ensures r.resposta.status <==> r.resposta.usuario.Some?
  {
    var sessao := SessaoDaRequisicao(s, req, agora);
    var s1 := sessao.estado;
    if sessao.cpf.None? then
      Passo(s1, Falha(OP_USUARIO_LER, TOKEN_INVALIDO))
    else if sessao.cpf.value !in s1.usuarios then
      Passo(s1, Falha(OP_USUARIO_LER, USUARIO_NAO_ENCONTRADO))
    else
      var cpf := sessao.cpf.value;
      var dados := UsuarioDados(s1.usuarios[cpf].nome, cpf, s1.usuarios[cpf].saldo);
      Passo(s1, Sucesso(OP_USUARIO_LER, "Dados do usuário").(
                  usuario := Some(dados),
                  dados := map["usuario" := DadosUsuario(dados)]))
  }

  /** opTransacaoCriar; `agora` is the clock reading of this request. */
  function TransacaoCriar(s: Estado, req: Requisicao, agora: Instante): (r: Passo)
    ensures r.resposta.operacao == OP_TRANSACAO_CRIAR
    ensures !r.resposta.status ==> r.estado == SessaoDaRequisicao(s, req, agora).estado
  {
    var sessao := SessaoDaRequisicao(s, req, agora);
    if sessao.cpf.None? then
      Passo(sessao.estado, Falha(OP_TRANSACAO_CRIAR, TOKEN_INVALIDO))
    else
      TransferenciaDe(sessao.estado, sessao.cpf.value, req, agora)
  }

  /** The rest of opTransacaoCriar once the token has named the paying account `origem`. */
  function TransferenciaDe(s1: Estado, origem: Cpf, req: Requisicao, agora: Instante): (r: Passo)
    ensures r.resposta.operacao == OP_TRANSACAO_CRIAR
    ensures !r.resposta.status ==> r.estado == s1
    ensures r.resposta.status ==> ValorOuZero(req.valor) > 0 && origem in s1.usuarios
                                  && s1.usuarios[origem].saldo >= ValorOuZero(req.valor)
  {
    var destino := Trim(TextoOuVazio(req.cpfDestino));
    var valor := ValorOuZero(req.valor);
    if destino == [] then
      Passo(s1, Falha(OP_TRANSACAO_CRIAR, "CPF de destino é obrigatório"))
    else if valor <= 0 then
      Passo(s1, Falha(OP_TRANSACAO_CRIAR, VALOR_NAO_POSITIVO))
    else if origem == destino then
      Passo(s1, Falha(OP_TRANSACAO_CRIAR, "Não é possível transferir para si mesmo"))
    else if origem !in s1.usuarios then
      Passo(s1, Falha(OP_TRANSACAO_CRIAR, "Usuário de origem não encontrado"))
    else if s1.usuarios[origem].saldo < valor then
      Passo(s1, Falha(OP_TRANSACAO_CRIAR, "Saldo insuficiente"))
    else if destino !in s1.usuarios then
      Passo(s1, Falha(OP_TRANSACAO_CRIAR, "Usuário de destino não encontrado"))
    else
      Efetivada(s1, origem, destino, valor, agora)
  }

  /** An accepted transfer: the next Transacao id, the record appended, both balances moved. */
  function Efetivada(s1: Estado, origem: Cpf, destino: Cpf, valor: Centavos, agora: Instante): (r: Passo)
    ensures r.resposta.operacao == OP_TRANSACAO_CRIAR && r.resposta.status
    ensures r.estado.sessoes == s1.sessoes && r.estado.proximoId == s1.proximoId + 1
    ensures |r.estado.transacoes| == |s1.transacoes| + 1 && r.estado.transacoes[..|s1.transacoes|] == s1.transacoes
    ensures "id" in r.resposta.dados && r.resposta.dados["id"] == Numero(s1.proximoId)
  {
    var t := Transacao(s1.proximoId, origem, destino, valor, agora, agora);
    var s2 := Estado(
      Transferido(s1.usuarios, origem, destino, valor),
      s1.transacoes + [NovoRegistro(s1.transacoes, t, agora)],
      s1.sessoes,
      s1.proximoId + 1);
    Passo(s2, Sucesso(OP_TRANSACAO_CRIAR, "Transação realizada com sucesso").(
                dados := map["id" := Numero(t.id), "valor" := Numero(valor), "data_hora" := Momento(agora)]))
  }

  /** The statement line built for one transaction: the party names looked up by cpf ("" if none). */
  function LinhaDoExtrato(t: Transacao, contas: Contas): TransacaoDados {
    var nomeOrigem := if t.cpfOrigem in contas then contas[t.cpfOrigem].nome else "";
    var nomeDestino := if t.cpfDestino in contas then contas[t.cpfDestino].nome else "";
    TransacaoDados(t.id, t.valor, Parte(nomeOrigem, t.cpfOrigem), Parte(nomeDestino, t.cpfDestino),
                   t.criadoEm, t.criadoEm)
  }

  predicate Envolve(t: Transacao, cpf: Cpf) {
    t.cpfOrigem == cpf || t.cpfDestino == cpf
  }

  /** The loop of opTransacaoLer: one line, in order, for each transaction the caller takes part in. */
  function Extrato(ts: seq<Transacao>, cpf: Cpf, contas: Contas): (r: seq<TransacaoDados>)
    ensures |r| <= |ts|
    ensures forall i :: 0 <= i < |r| ==> r[i].atualizadoEm == r[i].criadoEm
    ensures forall i :: 0 <= i < |r| ==> r[i].enviador.cpf == cpf || r[i].recebedor.cpf == cpf
    decreases |ts|
  {
    if ts == [] then []
    else
      var ultima := ts[|ts| - 1];
      Extrato(ts[..|ts| - 1], cpf, contas)
        + (if Envolve(ultima, cpf) then [LinhaDoExtrato(ultima, contas)] else [])
  }

  /** opTransacaoLer; listarTodas numbers the rows it rebuilds from the id counter. */
  function TransacaoLer(s: Estado, req: Requisicao, agora: Instante): (r: Passo)
    ensures r.resposta.operacao == OP_TRANSACAO_LER
    ensures r.estado.usuarios == s.usuarios && r.estado.transacoes == s.transacoes
  {
    var sessao := SessaoDaRequisicao(s, req, agora);
    var s1 := sessao.estado;
    if sessao.cpf.None? then
      Passo(s1, Falha(OP_TRANSACAO_LER, TOKEN_INVALIDO))
    else
      var todas := Listagem(MaisRecentesPrimeiro(s1.transacoes), s1.proximoId, agora);
      var linhas := Extrato(todas, sessao.cpf.value, s1.usuarios);
      Passo(s1.(proximoId := s1.proximoId + |s1.transacoes|),
            Sucesso(OP_TRANSACAO_LER, "Transações do usuário").(
              transacoes := Some(linhas),
              dados := map["transacoes" := DadosTransacoes(linhas)]))
  }

  /** opDepositar */
  function Depositar(s: Estado, req: Requisicao, agora: Instante): (r: Passo)
    ensures r.resposta.operacao == OP_DEPOSITAR
    ensures r.estado.transacoes == s.transacoes && r.estado.proximoId == s.proximoId
  {
    var sessao := SessaoDaRequisicao(s, req, agora);
    if sessao.cpf.None? then Passo(sessao.estado, Falha(OP_DEPOSITAR, TOKEN_INVALIDO))
    else DepositoEm(sessao.estado, sessao.cpf.value, req)
  }

  /** The rest of opDepositar once the token has named the account cpf. */
  function DepositoEm(s1: Estado, cpf: Cpf, req: Requisicao): (r: Passo)
    ensures r.resposta.operacao == OP_DEPOSITAR
    ensures r.estado == s1.(usuarios := r.estado.usuarios)
    ensures !r.resposta.status ==> r.estado == s1
    ensures r.resposta.status ==> ValorOuZero(req.valorEnviado) > 0 && cpf in s1.usuarios
  {
    var valor := ValorOuZero(req.valorEnviado);
    if valor <= 0 then
      Passo(s1, Falha(OP_DEPOSITAR, VALOR_NAO_POSITIVO))
    else if cpf !in s1.usuarios then
      Passo(s1, Falha(OP_DEPOSITAR, USUARIO_NAO_ENCONTRADO))
    else
      var linha := s1.usuarios[cpf].(saldo := s1.usuarios[cpf].saldo + valor);
      Passo(s1.(usuarios := Atualizado(s1.usuarios, cpf, linha)),
            Sucesso(OP_DEPOSITAR, "Depósito realizado com sucesso").(
              dados := map["novo_saldo" := Numero(linha.saldo)]))
  }

  /** The fields usuario_atualizar reads: the nested "usuario" object if present, else the top level. */
  function CamposDoPerfil(req: Requisicao): Campos {
    if req.usuario.Some? then req.usuario.value else Campos(req.nome, req.senha)
  }

  /** A field counts as given when it is present and not blank. */
  predicate Informado(campo: Option<string>) {
    campo.Some? && Trim(campo.value) != []
  }

  /**
   * opUsuarioAtualizar, with the length checks applied to the value as received
   * (`aparaAntesDeMedir` false, as the source does) or to the trimmed value that is stored.
   */
  function AtualizarPerfil(s: Estado, req: Requisicao, agora: Instante, aparaAntesDeMedir: bool): (r: Passo)
    ensures r.resposta.operacao == OP_USUARIO_ATUALIZAR
    ensures r.estado.transacoes == s.transacoes && r.estado.proximoId == s.proximoId
    ensures !r.resposta.status ==> r.estado == SessaoDaRequisicao(s, req, agora).estado
  {
    var sessao := SessaoDaRequisicao(s, req, agora);
    if sessao.cpf.None? then Passo(sessao.estado, Falha(OP_USUARIO_ATUALIZAR, TOKEN_INVALIDO))
    else PerfilDe(sessao.estado, sessao.cpf.value, req, aparaAntesDeMedir)
  }

  /** The length a profile field is checked by: of the trimmed value, or of the value as received. */
  function Medida(v: string, aparaAntesDeMedir: bool): nat {
    if aparaAntesDeMedir then |Trim(v)| else |v|
  }

  /** The rest of opUsuarioAtualizar once the token has named the account cpf. */
  function PerfilDe(s1: Estado, cpf: Cpf, req: Requisicao, aparaAntesDeMedir: bool): (r: Passo)
    ensures r.resposta.operacao == OP_USUARIO_ATUALIZAR
    ensures !r.resposta.status ==> r.estado == s1
    ensures r.resposta.status ==> cpf in s1.usuarios && (Informado(CamposDoPerfil(req).nome) || Informado(CamposDoPerfil(req).senha))
  {
    var campos := CamposDoPerfil(req);
    if !Informado(campos.nome) && !Informado(campos.senha) then
      Passo(s1, Falha(OP_USUARIO_ATUALIZAR, "Nenhum campo para atualizar"))
    else if cpf !in s1.usuarios then
      Passo(s1, Falha(OP_USUARIO_ATUALIZAR, USUARIO_NAO_ENCONTRADO))
    else CamposNoLimite(s1, cpf, campos, aparaAntesDeMedir)
  }

  /** The length checks of opUsuarioAtualizar and the update, once the row of cpf has been read. */
  function CamposNoLimite(s1: Estado, cpf: Cpf, campos: Campos, aparaAntesDeMedir: bool): (r: Passo)
    requires cpf in s1.usuarios
    ensures r.resposta.operacao == OP_USUARIO_ATUALIZAR
    ensures r.estado == s1.(usuarios := r.estado.usuarios)
    ensures !r.resposta.status ==> r.estado == s1
    ensures r.resposta.status ==> cpf in r.estado.usuarios && r.estado.usuarios[cpf].saldo == s1.usuarios[cpf].saldo
  {
    if Informado(campos.nome) && !NoLimite(Medida(campos.nome.value, aparaAntesDeMedir)) then
      Passo(s1, Falha(OP_USUARIO_ATUALIZAR, NOME_FORA_DO_LIMITE))
    else if Informado(campos.senha) && !NoLimite(Medida(campos.senha.value, aparaAntesDeMedir)) then
      Passo(s1, Falha(OP_USUARIO_ATUALIZAR, SENHA_FORA_DO_LIMITE))
    else
      var atual := s1.usuarios[cpf];
      var nome := if Informado(campos.nome) then Trim(campos.nome.value) else atual.nome;
      var senha := if Informado(campos.senha) then Trim(campos.senha.value) else atual.senha;
      Passo(s1.(usuarios := Atualizado(s1.usuarios, cpf, Linha(nome, senha, atual.saldo))),
            Sucesso(OP_USUARIO_ATUALIZAR, "Dados atualizados com sucesso"))
  }

  /** opUsuarioAtualizar exactly as written: the untrimmed length is checked, the trimmed value stored. */
  function UsuarioAtualizarComoEscrito(s: Estado, req: Requisicao, agora: Instante): (r: Passo)
    ensures r.resposta.operacao == OP_USUARIO_ATUALIZAR
  {
    AtualizarPerfil(s, req, agora, false)
  }

  /** opUsuarioAtualizar with the length checks on the trimmed value, as in opUsuarioCriar. */
  function UsuarioAtualizar(s: Estado, req: Requisicao, agora: Instante): (r: Passo)
    ensures r.resposta.operacao == OP_USUARIO_ATUALIZAR
  {
    AtualizarPerfil(s, req, agora, true)
  }

  /**
   * The switch on the operation code, as written: usuario_atualizar measures the text it
   * receives. `agora` is the clock, `novoToken` the UUID login would draw.
   */
  function Despachar(s: Estado, req: Requisicao, agora: Instante, novoToken: Token): (r: Passo)
    ensures r.resposta.operacao == TextoOuVazio(req.operacao)
  {
    var operacao := TextoOuVazio(req.operacao);
    if operacao == OP_USUARIO_CRIAR then UsuarioCriar(s, req)
    else if operacao == OP_USUARIO_LOGIN then UsuarioLogin(s, req, agora, novoToken)
    else if operacao == OP_USUARIO_LOGOUT then UsuarioLogout(s, req)
    else if operacao == OP_USUARIO_LER then UsuarioLer(s, req, agora)
    else if operacao == OP_TRANSACAO_CRIAR then TransacaoCriar(s, req, agora)
    else if operacao == OP_TRANSACAO_LER then TransacaoLer(s, req, agora)
    else if operacao == OP_DEPOSITAR then Depositar(s, req, agora)
    else if operacao == OP_USUARIO_ATUALIZAR then UsuarioAtualizarComoEscrito(s, req, agora)
    else Passo(s, Falha(operacao, "Operação desconhecida"))
  }

  /** The switch with usuario_atualizar measuring the trimmed text it stores; every other code as in Despachar. */
  function DespacharCorrigido(s: Estado, req: Requisicao, agora: Instante, novoToken: Token): (r: Passo)
    ensures r.resposta.operacao == TextoOuVazio(req.operacao)
  {
    if TextoOuVazio(req.operacao) == OP_USUARIO_ATUALIZAR then UsuarioAtualizar(s, req, agora)
    else Despachar(s, req, agora, novoToken)
  }
}
