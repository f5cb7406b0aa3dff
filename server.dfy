/**
 * com.pix.server.PixServer without its sockets: the handlers run one request at a time against
 * the database (through the two DAOs), the session table and the Transacao id counter, and
 * build the response bean step by step. Each handler is proved to compute the function of the
 * same name in module Handlers, so everything proved there holds of this code.
 */
module Server {
  import opened Base
  import opened Model
  import opened Service
  import opened Dao
  import opened Handlers

  class PixServer {
    const banco: Banco
    const usuarioDAO: UsuarioDAO
    const transacaoDAO: TransacaoDAO
    const tokens: TokenManager
    const ids: ContadorIds

    /** Both DAOs work on this server's database. */
    predicate Valid() {
      usuarioDAO.banco == banco && transacaoDAO.banco == banco
    }

    /** The state the handlers read and change. */
    ghost function Atual(): Estado
      reads banco, tokens, ids
    {
      Estado(banco.usuarios, banco.transacoes, tokens.tokens, ids.proximo)
    }

    /** A server on an empty database, with no sessions and the id counter at 1. */
    constructor ()
      ensures Valid() && Atual() == Inicial()
    {
      var b := new Banco();
      banco := b;
      usuarioDAO := new UsuarioDAO(b);
      transacaoDAO := new TransacaoDAO(b);
      tokens := new TokenManager();
      ids := new ContadorIds();
    }

    /** validateToken: the token field (or "") checked by the token manager. */
    method ValidarToken(req: Requisicao, agora: Instante) returns (cpf: Option<Cpf>)
      modifies tokens
      ensures Sessao(cpf, Atual()) == SessaoDaRequisicao(old(Atual()), req, agora)
    {
      cpf := tokens.ValidateToken(TextoOuVazio(req.token), agora);
    }

    method OpUsuarioCriar(req: Requisicao) returns (r: RespostaBase)
      requires Valid()
      modifies banco
      ensures fresh(r) && Passo(Atual(), r.Valor()) == UsuarioCriar(old(Atual()), req)
    {
      var nome := Trim(TextoOuVazio(req.nome));
      var cpf := Trim(TextoOuVazio(req.cpf));
      var senha := Trim(TextoOuVazio(req.senha));
      if nome == [] || cpf == [] || senha == [] {
        r := new RespostaBase(OP_USUARIO_CRIAR, false, "Nome, CPF e senha são obrigatórios");
        return;
      }
      if |nome| < COMPRIMENTO_MINIMO || |nome| > COMPRIMENTO_MAXIMO {
        r := new RespostaBase(OP_USUARIO_CRIAR, false, NOME_FORA_DO_LIMITE);
        return;
      }
      if |senha| < COMPRIMENTO_MINIMO || |senha| > COMPRIMENTO_MAXIMO {
        r := new RespostaBase(OP_USUARIO_CRIAR, false, SENHA_FORA_DO_LIMITE);
        return;
      }
      var existente := usuarioDAO.BuscarPorCpf(cpf);
      if existente != null {
        r := new RespostaBase(OP_USUARIO_CRIAR, false, "Usuário já existente");
        return;
      }
      var u := new Usuario(nome, cpf, senha);
      usuarioDAO.Salvar(u);
      r := new RespostaBase(OP_USUARIO_CRIAR, true, "Usuário criado com sucesso");
    }

    /** `agora` and `novoToken` are the clock reading and the UUID generateToken would take. */
    method OpUsuarioLogin(req: Requisicao, agora: Instante, novoToken: Token) returns (r: RespostaBase)
      requires Valid()
      modifies tokens
      ensures fresh(r) && Passo(Atual(), r.Valor()) == UsuarioLogin(old(Atual()), req, agora, novoToken)
    {
      var cpf := Trim(TextoOuVazio(req.cpf));
      var senha := Trim(TextoOuVazio(req.senha));
      if cpf == [] || senha == [] {
        r := new RespostaBase(OP_USUARIO_LOGIN, false, "CPF e senha são obrigatórios");
        return;
      }
      var u := usuarioDAO.BuscarPorCpf(cpf);
      if u == null {
        r := new RespostaBase(OP_USUARIO_LOGIN, false, "Usuário inexistente");
        return;
      }
      if u.senha != senha {
        r := new RespostaBase(OP_USUARIO_LOGIN, false, "Senha inválida");
        return;
      }
      var token := tokens.GenerateToken(cpf, agora, novoToken);
      r := new RespostaBase(OP_USUARIO_LOGIN, true, "Login bem-sucedido");
      r.SetToken(token);
      r.PutDado("token", Texto(token));
    }

    method OpUsuarioLogout(req: Requisicao) returns (r: RespostaBase)
      requires Valid()
      modifies tokens
      ensures fresh(r) && Passo(Atual(), r.Valor()) == UsuarioLogout(old(Atual()), req)
    {
      var token := TextoOuVazio(req.token);
      if token == [] {
        r := new RespostaBase(OP_USUARIO_LOGOUT, false, "Token é obrigatório");
        return;
      }
      var removido := tokens.RemoveToken(token);
      if removido {
        r := new RespostaBase(OP_USUARIO_LOGOUT, true, "Logout realizado com sucesso");
      } else {
        r := new RespostaBase(OP_USUARIO_LOGOUT, false, TOKEN_INVALIDO);
      }
    }

    method OpUsuarioLer(req: Requisicao, agora: Instante) returns (r: RespostaBase)
      requires Valid()
      modifies tokens
      ensures fresh(r) && Passo(Atual(), r.Valor()) == UsuarioLer(old(Atual()), req, agora)
    {
      var cpf := ValidarToken(req, agora);
      if cpf.None? {
        r := new RespostaBase(OP_USUARIO_LER, false, TOKEN_INVALIDO);
        return;
      }
      var u := usuarioDAO.BuscarPorCpf(cpf.value);
      if u == null {
        r := new RespostaBase(OP_USUARIO_LER, false, USUARIO_NAO_ENCONTRADO);
        return;
      }
      r := new RespostaBase(OP_USUARIO_LER, true, "Dados do usuário");
      var dados := UsuarioDados(u.nome, u.cpf, u.saldo);
      r.SetUsuario(dados);
      r.PutDado("usuario", DadosUsuario(dados));
    }

    method OpTransacaoCriar(req: Requisicao, agora: Instante) returns (r: RespostaBase)
      requires Valid()
      modifies banco, tokens, ids
      ensures fresh(r) && Passo(Atual(), r.Valor()) == TransacaoCriar(old(Atual()), req, agora)
    {
      var cpf := ValidarToken(req, agora);
      if cpf.None? {
        r := new RespostaBase(OP_TRANSACAO_CRIAR, false, TOKEN_INVALIDO);
        return;
      }
      r := Transferir(cpf.value, req, agora);
    }

    /** The body of opTransacaoCriar after validateToken has named the paying account. */
    method Transferir(origem: Cpf, req: Requisicao, agora: Instante) returns (r: RespostaBase)
      requires Valid()
      modifies banco, ids
      ensures fresh(r) && Passo(Atual(), r.Valor()) == TransferenciaDe(old(Atual()), origem, req, agora)
    {
      var cpfDestino := Trim(TextoOuVazio(req.cpfDestino));
      var valor := ValorOuZero(req.valor);
      if cpfDestino == [] {
        r := new RespostaBase(OP_TRANSACAO_CRIAR, false, "CPF de destino é obrigatório");
        return;
      }
      if valor <= 0 {
        r := new RespostaBase(OP_TRANSACAO_CRIAR, false, VALOR_NAO_POSITIVO);
        return;
      }
      if origem == cpfDestino {
        r := new RespostaBase(OP_TRANSACAO_CRIAR, false, "Não é possível transferir para si mesmo");
        return;
      }
      var u := usuarioDAO.BuscarPorCpf(origem);
      if u == null {
        r := new RespostaBase(OP_TRANSACAO_CRIAR, false, "Usuário de origem não encontrado");
        return;
      }
      if u.saldo < valor {
        r := new RespostaBase(OP_TRANSACAO_CRIAR, false, "Saldo insuficiente");
        return;
      }
      var destino := usuarioDAO.BuscarPorCpf(cpfDestino);
      if destino == null {
        r := new RespostaBase(OP_TRANSACAO_CRIAR, false, "Usuário de destino não encontrado");
        return;
      }
      r := Efetivar(origem, cpfDestino, valor, agora);
    }

    /** The accepted transfer: new Transacao, TransacaoDAO.salvar, and the response payload. */
    method Efetivar(origem: Cpf, destino: Cpf, valor: Centavos, agora: Instante) returns (r: RespostaBase)
      requires Valid()
      modifies banco, ids
      ensures fresh(r) && Passo(Atual(), r.Valor()) == Efetivada(old(Atual()), origem, destino, valor, agora)
    {
      var t := ids.NovaTransacao(origem, destino, valor, agora);
      transacaoDAO.Salvar(t, agora, None);
      r := new RespostaBase(OP_TRANSACAO_CRIAR, true, "Transação realizada com sucesso");
      r.PutDado("id", Numero(t.id));
      r.PutDado("valor", Numero(valor));
      r.PutDado("data_hora", Momento(t.criadoEm));
    }

    method OpTransacaoLer(req: Requisicao, agora: Instante) returns (r: RespostaBase)
      requires Valid()
      modifies tokens, ids
      ensures fresh(r) && Passo(Atual(), r.Valor()) == TransacaoLer(old(Atual()), req, agora)
    {
      var cpf := ValidarToken(req, agora);
      if cpf.None? {
        r := new RespostaBase(OP_TRANSACAO_LER, false, TOKEN_INVALIDO);
        return;
      }
      var todas := transacaoDAO.ListarTodas(ids, agora);
      var linhas := MontarExtrato(todas, cpf.value);
      r := new RespostaBase(OP_TRANSACAO_LER, true, "Transações do usuário");
      r.SetTransacoes(linhas);
      r.PutDado("transacoes", DadosTransacoes(linhas));
    }

    /** The loop of opTransacaoLer: the caller's transactions in order, with both names looked up. */
    method MontarExtrato(todas: seq<Transacao>, cpf: Cpf) returns (linhas: seq<TransacaoDados>)
      requires Valid()
      ensures linhas == Extrato(todas, cpf, banco.usuarios)
    {
      linhas := [];
      var i := 0;
      while i < |todas|
        invariant 0 <= i <= |todas|
        invariant linhas == Extrato(todas[..i], cpf, banco.usuarios)
      {
        var t := todas[i];
        if t.cpfOrigem == cpf || t.cpfDestino == cpf {
          var enviador := usuarioDAO.BuscarPorCpf(t.cpfOrigem);
          var recebedor := usuarioDAO.BuscarPorCpf(t.cpfDestino);
          var nomeEnviador := if enviador != null then enviador.nome else "";
          var nomeRecebedor := if recebedor != null then recebedor.nome else "";
          linhas := linhas + [TransacaoDados(t.id, t.valor, Parte(nomeEnviador, t.cpfOrigem),
                                             Parte(nomeRecebedor, t.cpfDestino), t.criadoEm, t.criadoEm)];
        }
        assert todas[..i + 1][..i] == todas[..i];
        i := i + 1;
      }
      assert todas[..i] == todas;
    }

    method OpDepositar(req: Requisicao, agora: Instante) returns (r: RespostaBase)
      requires Valid()
      modifies banco, tokens
      ensures fresh(r) && Passo(Atual(), r.Valor()) == Depositar(old(Atual()), req, agora)
    {
      var cpf := ValidarToken(req, agora);
      if cpf.None? {
        r := new RespostaBase(OP_DEPOSITAR, false, TOKEN_INVALIDO);
        return;
      }
      r := DepositarEm(cpf.value, req);
    }

    /** opDepositar after validateToken has named the account cpf. */
    method DepositarEm(cpf: Cpf, req: Requisicao) returns (r: RespostaBase)
      requires Valid()
      modifies banco
      ensures fresh(r) && Passo(Atual(), r.Valor()) == DepositoEm(old(Atual()), cpf, req)
    {
      var valor := ValorOuZero(req.valorEnviado);
      if valor <= 0 {
        r := new RespostaBase(OP_DEPOSITAR, false, VALOR_NAO_POSITIVO);
        return;
      }
      var u := usuarioDAO.BuscarPorCpf(cpf);
      if u == null {
        r := new RespostaBase(OP_DEPOSITAR, false, USUARIO_NAO_ENCONTRADO);
        return;
      }
      u.AddSaldo(valor);
      usuarioDAO.Atualizar(u);
      r := new RespostaBase(OP_DEPOSITAR, true, "Depósito realizado com sucesso");
      r.PutDado("novo_saldo", Numero(u.saldo));
    }

    /**
     * opUsuarioAtualizar as written: the length checks measure the text as received and the
     * trimmed text is stored. The Usuario read from the database is changed in place and
     * written back only when every check has passed.
     */
    method OpUsuarioAtualizar(req: Requisicao, agora: Instante) returns (r: RespostaBase)
      requires Valid()
      modifies banco, tokens
      ensures fresh(r) && Passo(Atual(), r.Valor()) == UsuarioAtualizarComoEscrito(old(Atual()), req, agora)
    {
      var cpf := ValidarToken(req, agora);
      if cpf.None? {
        r := new RespostaBase(OP_USUARIO_ATUALIZAR, false, TOKEN_INVALIDO);
        return;
      }
      r := AtualizarCampos(cpf.value, req);
    }

    /** opUsuarioAtualizar after validateToken has named the account cpf. */
    method AtualizarCampos(cpf: Cpf, req: Requisicao) returns (r: RespostaBase)
      requires Valid()
      modifies banco
      ensures fresh(r) && Passo(Atual(), r.Valor()) == PerfilDe(old(Atual()), cpf, req, false)
    {
      var campos := CamposDoPerfil(req);
      var novoNome, novaSenha := campos.nome, campos.senha;
      if !Informado(novoNome) && !Informado(novaSenha) {
        r := new RespostaBase(OP_USUARIO_ATUALIZAR, false, "Nenhum campo para atualizar");
        return;
      }
      var u := usuarioDAO.BuscarPorCpf(cpf);
      if u == null {
        r := new RespostaBase(OP_USUARIO_ATUALIZAR, false, USUARIO_NAO_ENCONTRADO);
        return;
      }
      r := GravarCampos(u, cpf, campos);
    }

    /** The length checks of opUsuarioAtualizar on the Usuario read for cpf, then the write-back. */
    method GravarCampos(u: Usuario, cpf: Cpf, campos: Campos) returns (r: RespostaBase)
      requires Valid() && cpf in banco.usuarios && Espelha(u, cpf, banco.usuarios[cpf])
      modifies banco, u
      ensures fresh(r) && Passo(Atual(), r.Valor()) == CamposNoLimite(old(Atual()), cpf, campos, false)
    {
      var novoNome, novaSenha := campos.nome, campos.senha;
      if Informado(novoNome) {
        if |novoNome.value| < COMPRIMENTO_MINIMO || |novoNome.value| > COMPRIMENTO_MAXIMO {
          r := new RespostaBase(OP_USUARIO_ATUALIZAR, false, NOME_FORA_DO_LIMITE);
          return;
        }
        u.SetNome(Trim(novoNome.value));
      }
      if Informado(novaSenha) {
        if |novaSenha.value| < COMPRIMENTO_MINIMO || |novaSenha.value| > COMPRIMENTO_MAXIMO {
          r := new RespostaBase(OP_USUARIO_ATUALIZAR, false, SENHA_FORA_DO_LIMITE);
          return;
        }
        u.SetSenha(Trim(novaSenha.value));
      }
      usuarioDAO.Atualizar(u);
      r := new RespostaBase(OP_USUARIO_ATUALIZAR, true, "Dados atualizados com sucesso");
    }

    /** One request line: the switch on the operation code. */
    method Processar(req: Requisicao, agora: Instante, novoToken: Token) returns (r: RespostaBase)
      requires Valid()
      modifies banco, tokens, ids
      ensures fresh(r) && Passo(Atual(), r.Valor()) == Despachar(old(Atual()), req, agora, novoToken)
    {
      var operacao := TextoOuVazio(req.operacao);
      if operacao == OP_USUARIO_CRIAR {
        r := OpUsuarioCriar(req);
      } else if operacao == OP_USUARIO_LOGIN {
        r := OpUsuarioLogin(req, agora, novoToken);
      } else if operacao == OP_USUARIO_LOGOUT {
        r := OpUsuarioLogout(req);
      } else if operacao == OP_USUARIO_LER {
        r := OpUsuarioLer(req, agora);
      } else if operacao == OP_TRANSACAO_CRIAR {
        r := OpTransacaoCriar(req, agora);
      } else if operacao == OP_TRANSACAO_LER {
        r := OpTransacaoLer(req, agora);
      } else if operacao == OP_DEPOSITAR {
        r := OpDepositar(req, agora);
      } else if operacao == OP_USUARIO_ATUALIZAR {
        r := OpUsuarioAtualizar(req, agora);
      } else {
        r := new RespostaBase(operacao, false, "Operação desconhecida");
      }
    }
  }
}
