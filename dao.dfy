/**
 * Persistence (com.pix.dao): the `usuarios` table as a map from cpf to row, the `transacoes`
 * table as an append-only sequence of rows, and the two DAOs that read and write them.
 * Both DAOs work on one Banco object, the database both tables live in.
 */
module Dao {
  import opened Base
  import opened Model

  /** A row of `usuarios` (its key, the cpf, is the map's key). */
  datatype Linha = Linha(nome: string, senha: string, saldo: Centavos)

  type Contas = map<Cpf, Linha>

  /** A row of `transacoes`; `id` is the key the store generates. */
  datatype Registro = Registro(
    id: int,
    cpfOrigem: Cpf,
    cpfDestino: Cpf,
    valor: Centavos,
    criadoEm: Instante,
    atualizadoEm: Instante)

  /** The statements of TransacaoDAO.salvar, any of which may raise an SQLException. */
  datatype Etapa = Insercao | Debito | Credito

  // ---------------------------------------------------------------------------------------
  // The usuarios table

  /** UPDATE usuarios SET nome, senha, saldo WHERE cpf = ?: replaces that row if there is one. */
  function Atualizado(contas: Contas, cpf: Cpf, linha: Linha): Contas {
    if cpf in contas then contas[cpf := linha] else contas
  }

  /** UPDATE usuarios SET saldo = saldo + delta WHERE cpf = ?: no row, no change. */
  function Ajustado(contas: Contas, cpf: Cpf, delta: Centavos): Contas {
    if cpf in contas then contas[cpf := contas[cpf].(saldo := contas[cpf].saldo + delta)] else contas
  }

  /** The debit statement of TransacaoDAO.salvar: saldo = saldo - valor, with no funds check. */
  function Debitado(contas: Contas, cpf: Cpf, valor: Centavos): Contas {
    Ajustado(contas, cpf, -valor)
  }

  /** The credit statement of TransacaoDAO.salvar: saldo = saldo + valor. */
  function Creditado(contas: Contas, cpf: Cpf, valor: Centavos): Contas {
    Ajustado(contas, cpf, valor)
  }

  /** The accounts after a committed TransacaoDAO.salvar: the debit, then the credit. */
  function Transferido(contas: Contas, origem: Cpf, destino: Cpf, valor: Centavos): Contas {
    Creditado(Debitado(contas, origem, valor), destino, valor)
  }

  /** The total of all balances. */
  ghost function Soma(contas: Contas): int
    decreases |contas|
  {
    if contas == map[] then 0
    else
      var k :| k in contas;
      contas[k].saldo + Soma(contas - {k})
  }

  /** The total splits into any one account's balance and the total of the others. */
  lemma {:induction false} SomaSeparando(contas: Contas, k: Cpf)
    requires k in contas
    ensures Soma(contas) == contas[k].saldo + Soma(contas - {k})
    decreases |contas|
  {
    var j :| j in contas && Soma(contas) == contas[j].saldo + Soma(contas - {j});
    if j != k {
      var semJ, semK := contas - {j}, contas - {k};
      assert k in semJ && j in semK;
      SomaSeparando(semJ, k);
      SomaSeparando(semK, j);
      assert semJ - {k} == semK - {j};
    }
  }

  /** Overwriting one account's row changes the total by the change of its balance. */
  lemma SomaAlterada(contas: Contas, k: Cpf, linha: Linha)
    ensures k in contas ==> Soma(contas[k := linha]) == Soma(contas) - contas[k].saldo + linha.saldo
    ensures k !in contas ==> Soma(contas[k := linha]) == Soma(contas) + linha.saldo
  {
    var novo := contas[k := linha];
    SomaSeparando(novo, k);
    if k in contas {
      SomaSeparando(contas, k);
      assert novo - {k} == contas - {k};
    } else {
      assert novo - {k} == contas;
    }
  }

  /** A balance adjustment of one account changes the total by exactly delta (if the row exists). */
  lemma SomaAjustada(contas: Contas, cpf: Cpf, delta: Centavos)
    ensures Soma(Ajustado(contas, cpf, delta)) == Soma(contas) + (if cpf in contas then delta else 0)
  {
    if cpf in contas {
      var linha := contas[cpf].(saldo := contas[cpf].saldo + delta);
      assert Ajustado(contas, cpf, delta) == contas[cpf := linha];
      SomaAlterada(contas, cpf, linha);
    }
  }

  /** Adjusting the balance of a row that exists changes the total by exactly delta. */
  lemma SomaAjustadaPresente(contas: Contas, cpf: Cpf, delta: Centavos)
    requires cpf in contas
    ensures Soma(Ajustado(contas, cpf, delta)) == Soma(contas) + delta
  {
    SomaAjustada(contas, cpf, delta);
  }

  /** An update that keeps the balance keeps the total. */
  lemma SomaAtualizada(contas: Contas, cpf: Cpf, linha: Linha)
    requires cpf in contas ==> linha.saldo == contas[cpf].saldo
    ensures Soma(Atualizado(contas, cpf, linha)) == Soma(contas)
  {
    if cpf in contas {
      SomaAlterada(contas, cpf, linha);
    }
  }

  /** Money is conserved: when both rows exist, the debit and the credit cancel out. */
  lemma TransferenciaConserva(contas: Contas, origem: Cpf, destino: Cpf, valor: Centavos)
    requires origem in contas && destino in contas
    ensures Soma(Transferido(contas, origem, destino, valor)) == Soma(contas)
  {
    calc {
      Soma(Transferido(contas, origem, destino, valor));
    == { SomaAjustadaPresente(Ajustado(contas, origem, -valor), destino, valor); }
      Soma(Ajustado(contas, origem, -valor)) + valor;
    == { SomaAjustadaPresente(contas, origem, -valor); }
      Soma(contas);
    }
  }

  /**
   * The effect of a committed transfer between two distinct accounts: the origin loses valor,
   * the destination gains it, nothing else about any row changes.
   */
  lemma TransferenciaEfeito(contas: Contas, origem: Cpf, destino: Cpf, valor: Centavos)
    requires origem in contas && destino in contas && origem != destino
    ensures var r := Transferido(contas, origem, destino, valor);
      && r.Keys == contas.Keys
      && r[origem] == contas[origem].(saldo := contas[origem].saldo - valor)
      && r[destino] == contas[destino].(saldo := contas[destino].saldo + valor)
      && r[origem].saldo + r[destino].saldo == contas[origem].saldo + contas[destino].saldo
      && (forall k :: k in r && k != origem && k != destino ==> r[k] == contas[k])
  {
  }

  /** TransacaoDAO.salvar performs no funds check: the debit can take a balance below zero. */
  lemma SalvarNaoConfereSaldo(contas: Contas, origem: Cpf, destino: Cpf, valor: Centavos)
    requires origem in contas && origem != destino && contas[origem].saldo < valor
    ensures Transferido(contas, origem, destino, valor)[origem].saldo < 0
  {
  }

  // ---------------------------------------------------------------------------------------
  // The transacoes table

  /** The row the INSERT of TransacaoDAO.salvar appends; the store numbers rows from 1. */
  function NovoRegistro(log: seq<Registro>, t: Transacao, agora: Instante): Registro {
    Registro(|log| + 1, t.cpfOrigem, t.cpfDestino, t.valor, agora, agora)
  }

  /** Rows in descending creation order. */
  ghost predicate MaisRecentesAntes(s: seq<Registro>) {
    forall i, j :: 0 <= i < j < |s| ==> s[i].criadoEm >= s[j].criadoEm
  }

  /** Rows in the order of a clock that never goes backwards. */
  ghost predicate Cronologico(s: seq<Registro>) {
    forall i, j :: 0 <= i < j < |s| ==> s[i].criadoEm <= s[j].criadoEm
  }

  /** Places `r` (inserted after every row of `s`) before the rows no newer than it. */
  function InserirPorData(r: Registro, s: seq<Registro>): (o: seq<Registro>)
    ensures |o| == |s| + 1
    ensures multiset(o) == multiset(s) + multiset{r}
    decreases |s|
  {
    if s == [] || s[0].criadoEm <= r.criadoEm then [r] + s
    else
      assert s == [s[0]] + s[1..];
      [s[0]] + InserirPorData(r, s[1..])
  }

  /**
   * The row order of SELECT ... FROM transacoes ORDER BY criado_em DESC; among rows with the
   * same creation instant the later inserted comes first.
   */
  function MaisRecentesPrimeiro(log: seq<Registro>): (r: seq<Registro>)
    ensures |r| == |log|
    ensures multiset(r) == multiset(log)
    decreases |log|
  {
    if log == [] then []
    else
      assert log == log[..|log| - 1] + [log[|log| - 1]];
      InserirPorData(log[|log| - 1], MaisRecentesPrimeiro(log[..|log| - 1]))
  }

  /** Inserting a row no newer than `b` among rows no newer than `b` keeps all of them so. */
  lemma {:induction false} InserirLimitado(r: Registro, s: seq<Registro>, b: Instante)
    requires r.criadoEm <= b
    requires forall k :: 0 <= k < |s| ==> s[k].criadoEm <= b
    ensures forall k :: 0 <= k < |InserirPorData(r, s)| ==> InserirPorData(r, s)[k].criadoEm <= b
    decreases |s|
  {
    if s != [] && s[0].criadoEm > r.criadoEm {
      InserirLimitado(r, s[1..], b);
    }
  }

  /** A row no older than every row of a newest-first sequence can go in front of it. */
  lemma NaFrente(x: Registro, s: seq<Registro>)
    requires MaisRecentesAntes(s)
    requires forall k :: 0 <= k < |s| ==> s[k].criadoEm <= x.criadoEm
    ensures MaisRecentesAntes([x] + s)
  {
    var o := [x] + s;
    forall i, j | 0 <= i < j < |o| ensures o[i].criadoEm >= o[j].criadoEm {
      assert o[j] == s[j - 1];
      if i > 0 {
        assert o[i] == s[i - 1];
      }
    }
  }

  /** Inserting by date keeps a newest-first sequence newest first. */
  lemma {:induction false} InserirMantemOrdem(r: Registro, s: seq<Registro>)
    requires MaisRecentesAntes(s)
    ensures MaisRecentesAntes(InserirPorData(r, s))
    decreases |s|
  {
    if s == [] || s[0].criadoEm <= r.criadoEm {
      assert forall k :: 0 <= k < |s| ==> s[k].criadoEm <= r.criadoEm by {
        if s != [] {
          assert forall k :: 0 <= k < |s| ==> s[k].criadoEm <= s[0].criadoEm;
        }
      }
      NaFrente(r, s);
    } else {
      InserirMantemOrdem(r, s[1..]);
      InserirLimitado(r, s[1..], s[0].criadoEm);
      NaFrente(s[0], InserirPorData(r, s[1..]));
    }
  }

  /** The listing order is newest first, and it lists every stored row exactly once. */
  lemma {:induction false} MaisRecentesPrimeiroOrdena(log: seq<Registro>)
    ensures MaisRecentesAntes(MaisRecentesPrimeiro(log))
    ensures multiset(MaisRecentesPrimeiro(log)) == multiset(log)
    decreases |log|
  {
    if log != [] {
      MaisRecentesPrimeiroOrdena(log[..|log| - 1]);
      InserirMantemOrdem(log[|log| - 1], MaisRecentesPrimeiro(log[..|log| - 1]));
    }
  }

  function Invertida(s: seq<Registro>): (r: seq<Registro>)
    ensures |r| == |s|
    ensures forall i :: 0 <= i < |s| ==> r[i] == s[|s| - 1 - i]
    decreases |s|
  {
    if s == [] then [] else [s[|s| - 1]] + Invertida(s[..|s| - 1])
  }

  /** When the clock never went backwards, newest first is just the insertion order reversed. */
  lemma {:induction false} CronologicoInverte(log: seq<Registro>)
    requires Cronologico(log)
    ensures MaisRecentesPrimeiro(log) == Invertida(log)
    decreases |log|
  {
    if log != [] {
      var ini := log[..|log| - 1];
      assert Cronologico(ini);
      CronologicoInverte(ini);
      var rev := Invertida(ini);
      assert rev == [] || rev[0].criadoEm <= log[|log| - 1].criadoEm;
    }
  }

  /** The Transacao objects listarTodas builds from `linhas`, numbered from `primeiro`. */
  function Listagem(linhas: seq<Registro>, primeiro: int, agora: Instante): (r: seq<Transacao>)
    ensures |r| == |linhas|
    ensures forall i :: 0 <= i < |r| ==>
      r[i] == Transacao(primeiro + i, linhas[i].cpfOrigem, linhas[i].cpfDestino, linhas[i].valor, agora, agora)
    decreases |linhas|
  {
    if linhas == [] then []
    else
      [Transacao(primeiro, linhas[0].cpfOrigem, linhas[0].cpfDestino, linhas[0].valor, agora, agora)]
        + Listagem(linhas[1..], primeiro + 1, agora)
  }

  // ---------------------------------------------------------------------------------------
  // The database and the DAOs

  /** The database: both tables, changed in place. */
  class Banco {
    var usuarios: Contas
    var transacoes: seq<Registro>

    constructor ()
      ensures usuarios == map[] && transacoes == []
    {
      usuarios := map[];
      transacoes := [];
    }
  }

  /** The row a Usuario object is written as. */
  function LinhaDe(u: Usuario): Linha
    reads u
  {
    Linha(u.nome, u.senha, u.saldo)
  }

  /** `u` holds the fields of row `linha` of account `cpf`, and no transactions. */
  ghost predicate Espelha(u: Usuario, cpf: Cpf, linha: Linha)
    reads u
  {
    u.cpf == cpf && LinhaDe(u) == linha && u.transacoes == []
  }

  /**
   * Builds the Usuario of a row as buscarPorCpf and listarTodos do: a new object with a zero
   * balance, then addSaldo or subSaldo of the difference.
   */
  method Reconstruir(cpf: Cpf, linha: Linha) returns (u: Usuario)
    ensures fresh(u) && Espelha(u, cpf, linha)
  {
    u := new Usuario(linha.nome, cpf, linha.senha);
    var diff := linha.saldo - u.saldo;
    if diff > 0 {
      u.AddSaldo(diff);
    } else if diff < 0 {
      u.SubSaldo(-diff);
    }
  }

  class UsuarioDAO {
    const banco: Banco

    constructor (banco: Banco)
      ensures this.banco == banco
    {
      this.banco := banco;
    }

    /** salvar: INSERT the row; on a duplicate key, fall back to atualizar. */
    method Salvar(u: Usuario)
      modifies banco
      ensures banco.usuarios == old(banco.usuarios)[u.cpf := LinhaDe(u)]
      ensures banco.transacoes == old(banco.transacoes)
    {
      if u.cpf !in banco.usuarios {
        banco.usuarios := banco.usuarios[u.cpf := LinhaDe(u)];
      } else {
        Atualizar(u);
      }
    }

    /** atualizar: overwrite nome, senha and saldo of the row keyed by u.cpf, if there is one. */
    method Atualizar(u: Usuario)
      modifies banco
      ensures banco.usuarios == Atualizado(old(banco.usuarios), u.cpf, LinhaDe(u))
      ensures banco.transacoes == old(banco.transacoes)
    {
      if u.cpf in banco.usuarios {
        banco.usuarios := banco.usuarios[u.cpf := LinhaDe(u)];
      }
    }

    /** buscarPorCpf: null for an unknown cpf, otherwise a new Usuario holding the row. */
    method BuscarPorCpf(cpf: Cpf) returns (u: Usuario?)
      ensures u == null <==> cpf !in banco.usuarios
      ensures u != null ==> fresh(u) && Espelha(u, cpf, banco.usuarios[cpf])
    {
      if cpf !in banco.usuarios {
        return null;
      }
      u := Reconstruir(cpf, banco.usuarios[cpf]);
    }

    /** salvar then buscarPorCpf of the same cpf: a new object holding exactly what was saved. */
    method SalvarEBuscar(u: Usuario) returns (lido: Usuario?)
      modifies banco
      ensures banco.usuarios == old(banco.usuarios)[u.cpf := LinhaDe(u)]
      ensures banco.transacoes == old(banco.transacoes)
      ensures lido != null && lido != u && fresh(lido)
      ensures lido.cpf == u.cpf && lido.nome == u.nome && lido.senha == u.senha && lido.saldo == u.saldo
    {
      Salvar(u);
      lido := BuscarPorCpf(u.cpf);
    }

    /** listarTodos: one new Usuario per row, in no particular order. */
    method ListarTodos() returns (usuarios: seq<Usuario>)
      ensures |usuarios| == |banco.usuarios|
      ensures forall i :: 0 <= i < |usuarios| ==>
        fresh(usuarios[i]) && usuarios[i].cpf in banco.usuarios
        && Espelha(usuarios[i], usuarios[i].cpf, banco.usuarios[usuarios[i].cpf])
      ensures forall i, j :: 0 <= i < j < |usuarios| ==> usuarios[i].cpf != usuarios[j].cpf
      ensures forall c :: c in banco.usuarios ==> exists i :: 0 <= i < |usuarios| && usuarios[i].cpf == c
    {
      usuarios := [];
      var restantes := banco.usuarios.Keys;
      ghost var chaves: seq<Cpf> := [];
      while restantes != {}
        invariant restantes <= banco.usuarios.Keys
        invariant forall c :: c in banco.usuarios ==> (c in restantes <==> c !in chaves)
        invariant |restantes| + |chaves| == |banco.usuarios|
        invariant |chaves| == |usuarios|
        invariant forall i :: 0 <= i < |usuarios| ==> fresh(usuarios[i])
        invariant forall i :: 0 <= i < |chaves| ==> chaves[i] in banco.usuarios
        invariant forall i :: 0 <= i < |usuarios| ==> Espelha(usuarios[i], chaves[i], banco.usuarios[chaves[i]])
        invariant forall i, j :: 0 <= i < j < |chaves| ==> chaves[i] != chaves[j]
        decreases |restantes|
      {
        var cpf :| cpf in restantes;
        var u := Reconstruir(cpf, banco.usuarios[cpf]);
        usuarios := usuarios + [u];
        chaves := chaves + [cpf];
        restantes := restantes - {cpf};
      }
      forall c | c in banco.usuarios ensures exists i :: 0 <= i < |usuarios| && usuarios[i].cpf == c {
        var i :| 0 <= i < |chaves| && chaves[i] == c;
        assert usuarios[i].cpf == c;
      }
    }
  }

  class TransacaoDAO {
    const banco: Banco

    constructor (banco: Banco)
      ensures this.banco == banco
    {
      this.banco := banco;
    }

    /**
     * salvar: insert the record, debit the origin, credit the destination, as one unit with
     * auto-commit off. `falha` names the statement that raises an SQLException, if any; the
     * rollback then restores both tables. `agora` is the clock reading of the insert.
     */
    method Salvar(t: Transacao, agora: Instante, falha: Option<Etapa>)
      modifies banco
      ensures falha == None ==>
        && banco.transacoes == old(banco.transacoes) + [NovoRegistro(old(banco.transacoes), t, agora)]
        && banco.usuarios == Transferido(old(banco.usuarios), t.cpfOrigem, t.cpfDestino, t.valor)
      ensures falha != None ==>
        banco.transacoes == old(banco.transacoes) && banco.usuarios == old(banco.usuarios)
    {
      var usuariosAntes, transacoesAntes := banco.usuarios, banco.transacoes;
      if falha != Some(Insercao) {
        banco.transacoes := banco.transacoes + [NovoRegistro(banco.transacoes, t, agora)];
        if falha != Some(Debito) {
          banco.usuarios := Debitado(banco.usuarios, t.cpfOrigem, t.valor);
          if falha != Some(Credito) {
            banco.usuarios := Creditado(banco.usuarios, t.cpfDestino, t.valor);
          }
        }
      }
      if falha.Some? {
        banco.usuarios, banco.transacoes := usuariosAntes, transacoesAntes;
      }
    }

    /**
     * listarTodas: the rows newest first, each rebuilt with new Transacao(origem, destino,
     * valor), so each takes the next id of the counter and the current instant.
     */
    method ListarTodas(ids: ContadorIds, agora: Instante) returns (lista: seq<Transacao>)
      modifies ids
      ensures lista == Listagem(MaisRecentesPrimeiro(banco.transacoes), old(ids.proximo), agora)
      ensures ids.proximo == old(ids.proximo) + |banco.transacoes|
    {
      var linhas := MaisRecentesPrimeiro(banco.transacoes);
      lista := [];
      var i := 0;
      while i < |linhas|
        invariant 0 <= i <= |linhas|
        invariant ids.proximo == old(ids.proximo) + i
        invariant |lista| == i
        invariant forall k :: 0 <= k < i ==>
          lista[k] == Transacao(old(ids.proximo) + k, linhas[k].cpfOrigem, linhas[k].cpfDestino, linhas[k].valor, agora, agora)
      {
        var linha := linhas[i];
        var t := ids.NovaTransacao(linha.cpfOrigem, linha.cpfDestino, linha.valor, agora);
        lista := lista + [t];
        i := i + 1;
      }
    }
  }
}
