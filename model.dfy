/**
 * The entity classes of com.pix.model: Usuario (an account held in memory), Transacao with
 * its process-wide id counter, and RespostaBase, the response envelope every operation returns.
 */
module Model {
  import opened Base

  /** Usuario: a mutable account object; the balance is changed only through addSaldo/subSaldo. */
  class Usuario {
    var nome: string
    var cpf: Cpf
    var senha: string
    var saldo: Centavos
    var transacoes: seq<Transacao>

    /** new Usuario(nome, cpf, senha): the given fields and a zero balance. */
    constructor (nome: string, cpf: Cpf, senha: string)
      ensures this.nome == nome && this.cpf == cpf && this.senha == senha
      ensures saldo == 0 && transacoes == []
    {
      this.nome := nome;
      this.cpf := cpf;
      this.senha := senha;
      saldo := 0;
      transacoes := [];
    }

    method SetCpf(cpf: Cpf)
      modifies this`cpf
      ensures this.cpf == cpf
    {
      this.cpf := cpf;
    }

    /** setNome touches nothing but the name. */
    method SetNome(nome: string)
      modifies this`nome
      ensures this.nome == nome
      ensures cpf == old(cpf) && senha == old(senha) && saldo == old(saldo)
    {
      this.nome := nome;
    }

    /** setSenha touches nothing but the password. */
    method SetSenha(senha: string)
      modifies this`senha
      ensures this.senha == senha
      ensures cpf == old(cpf) && nome == old(nome) && saldo == old(saldo)
    {
      this.senha := senha;
    }

    method AddSaldo(valor: Centavos)
      modifies this`saldo
      ensures saldo == old(saldo) + valor
    {
      saldo := saldo + valor;
    }

    method SubSaldo(valor: Centavos)
      modifies this`saldo
      ensures saldo == old(saldo) - valor
    {
      saldo := saldo - valor;
    }

    /** addTransacao appends at the end and keeps the earlier entries in place. */
    method AddTransacao(t: Transacao)
      modifies this`transacoes
      ensures transacoes == old(transacoes) + [t]
      ensures transacoes[..|old(transacoes)|] == old(transacoes)
    {
      transacoes := transacoes + [t];
    }
  }

  /** addSaldo(v) followed by subSaldo(v) gives back the balance the account had. */
  method CreditoEstornado(u: Usuario, valor: Centavos)
    modifies u
    ensures u.saldo == old(u.saldo)
    ensures u.nome == old(u.nome) && u.cpf == old(u.cpf) && u.senha == old(u.senha)
    ensures u.transacoes == old(u.transacoes)
  {
    u.AddSaldo(valor);
    u.SubSaldo(valor);
  }

  /** Transacao: an immutable transfer record as the server builds it in memory. */
  datatype Transacao = Transacao(
    id: int,
    cpfOrigem: Cpf,
    cpfDestino: Cpf,
    valor: Centavos,
    criadoEm: Instante,
    atualizadoEm: Instante)

  /**
   * The static AtomicLong idCounter of Transacao, starting at 1; NovaTransacao is the
   * constructor new Transacao(origem, destino, valor), whose clock reading is `agora`.
   */
  class ContadorIds {
    var proximo: int

    constructor ()
      ensures proximo == 1
    {
      proximo := 1;
    }

    method NovaTransacao(cpfOrigem: Cpf, cpfDestino: Cpf, valor: Centavos, agora: Instante) returns (t: Transacao)
      modifies this
      ensures t == Transacao(old(proximo), cpfOrigem, cpfDestino, valor, agora, agora)
      ensures proximo == old(proximo) + 1
    {
      t := Transacao(proximo, cpfOrigem, cpfDestino, valor, agora, agora);
      proximo := proximo + 1;
    }
  }

  /** Successive constructions get successive ids; the first one in a process gets id 1. */
  method PrimeirasTransacoes(a: Cpf, b: Cpf, v: Centavos, agora: Instante) returns (t1: Transacao, t2: Transacao)
    ensures t1.id == 1 && t2.id == t1.id + 1
    ensures t1.cpfOrigem == a && t1.cpfDestino == b && t1.valor == v
  {
    var ids := new ContadorIds();
    t1 := ids.NovaTransacao(a, b, v, agora);
    t2 := ids.NovaTransacao(b, a, v, agora);
  }

  /** The "usuario" payload: nome, cpf and saldo of the caller's account. */
  datatype UsuarioDados = UsuarioDados(nome: string, cpf: Cpf, saldo: Centavos)

  /** usuario_enviador / usuario_recebedor of a statement line: nome and cpf. */
  datatype Parte = Parte(nome: string, cpf: Cpf)

  /** One line of the statement returned by transacao_ler. */
  datatype TransacaoDados = TransacaoDados(
    id: int,
    valor: Centavos,
    enviador: Parte,
    recebedor: Parte,
    criadoEm: Instante,
    atualizadoEm: Instante)

  /** The values the handlers put in the `dados` map. */
  datatype Dado =
    | Texto(texto: string)
    | Numero(numero: int)
    | Momento(instante: Instante)
    | DadosUsuario(usuario: UsuarioDados)
    | DadosTransacoes(linhas: seq<TransacaoDados>)

  /** The value of a RespostaBase: every property Jackson writes out. */
  datatype Envelope = Envelope(
    operacao: string,
    status: bool,
    info: string,
    dados: map<string, Dado>,
    usuario: Option<UsuarioDados>,
    transacoes: Option<seq<TransacaoDados>>,
    token: Option<Token>)

  /** new RespostaBase(operacao, status, info): an empty `dados`, no usuario, transacoes or token. */
  function NovaResposta(operacao: string, status: bool, info: string): (e: Envelope)
    ensures e.operacao == operacao && e.status == status && e.info == info
    ensures e.dados == map[] && e.usuario == None && e.transacoes == None && e.token == None
  {
    Envelope(operacao, status, info, map[], None, None, None)
  }

  /** RespostaBase: the mutable response bean; `dados` is filled in place by the handlers. */
  class RespostaBase {
    var operacao: string
    var status: bool
    var info: string
    var dados: map<string, Dado>
    var usuario: Option<UsuarioDados>
    var transacoes: Option<seq<TransacaoDados>>
    var token: Option<Token>

    /** The envelope this object serialises to. */
    function Valor(): Envelope
      reads this
    {
      Envelope(operacao, status, info, dados, usuario, transacoes, token)
    }

    constructor (operacao: string, status: bool, info: string)
      ensures Valor() == NovaResposta(operacao, status, info)
    {
      this.operacao := operacao;
      this.status := status;
      this.info := info;
      dados := map[];
      usuario := None;
      transacoes := None;
      token := None;
    }

    method SetUsuario(usuario: UsuarioDados)
      modifies this`usuario
      ensures Valor() == old(Valor()).(usuario := Some(usuario))
    {
      this.usuario := Some(usuario);
    }

    method SetTransacoes(transacoes: seq<TransacaoDados>)
      modifies this`transacoes
      ensures Valor() == old(Valor()).(transacoes := Some(transacoes))
    {
      this.transacoes := Some(transacoes);
    }

    method SetToken(token: Token)
      modifies this`token
      ensures Valor() == old(Valor()).(token := Some(token))
    {
      this.token := Some(token);
    }

    method SetOperacao(operacao: string)
      modifies this`operacao
      ensures Valor() == old(Valor()).(operacao := operacao)
    {
      this.operacao := operacao;
    }

    method SetStatus(status: bool)
      modifies this`status
      ensures Valor() == old(Valor()).(status := status)
    {
      this.status := status;
    }

    method SetInfo(info: string)
      modifies this`info
      ensures Valor() == old(Valor()).(info := info)
    {
      this.info := info;
    }

    method SetDados(dados: map<string, Dado>)
      modifies this`dados
      ensures Valor() == old(Valor()).(dados := dados)
    {
      this.dados := dados;
    }

    /** getDados().put(chave, valor): the handlers write into the map the bean holds. */
    method PutDado(chave: string, valor: Dado)
      modifies this`dados
      ensures Valor() == old(Valor()).(dados := old(dados)[chave := valor])
    {
      dados := dados[chave := valor];
    }

    /** isSucesso, kept for legacy callers, answers `status`. */
    function IsSucesso(): (r: bool)
      reads this
      ensures r == Valor().status
    {
      status
    }

    /** setSucesso(b) is setStatus(b). */
    method SetSucesso(sucesso: bool)
      modifies this`status
      ensures Valor() == old(Valor()).(status := sucesso)
    {
      status := sucesso;
    }

    /** getMensagem answers `info`. */
    function GetMensagem(): (r: string)
      reads this
      ensures r == Valor().info
    {
      info
    }

    /** setMensagem(m) is setInfo(m). */
    method SetMensagem(mensagem: string)
      modifies this`info
      ensures Valor() == old(Valor()).(info := mensagem)
    {
      info := mensagem;
    }
  }
}
