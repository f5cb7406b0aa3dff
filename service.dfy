/**
 * The session manager (com.pix.service.TokenManager): a process-wide table from token to
 * (cpf, creation instant), with a fixed 24-hour expiry checked lazily at validation time.
 * The clock and the random UUID are parameters of the operations that use them.
 */
module Service {
  import opened Base

  /** TokenInfo: the account a token belongs to and when the token was issued. */
  datatype TokenInfo = TokenInfo(cpf: Cpf, criadoEm: Instante)

  type Sessoes = map<Token, TokenInfo>

  const TOKEN_EXPIRY_HOURS: int := 24
  const SEGUNDOS_POR_HORA: int := 3600

  /** ChronoUnit.HOURS.between(de, ate): the whole hours from `de` to `ate`, truncated toward zero. */
  function HorasEntre(de: Instante, ate: Instante): (h: int)
    ensures ate >= de ==> 0 <= h && h * SEGUNDOS_POR_HORA <= ate - de < (h + 1) * SEGUNDOS_POR_HORA
    ensures ate < de ==> h <= 0 && (h - 1) * SEGUNDOS_POR_HORA < ate - de <= h * SEGUNDOS_POR_HORA
  {
    var d := ate - de;
    if d >= 0 then d / SEGUNDOS_POR_HORA else -((-d) / SEGUNDOS_POR_HORA)
  }

  /** TokenInfo.isExpired: more than TOKEN_EXPIRY_HOURS whole hours have elapsed since issue. */
  predicate Expirado(info: TokenInfo, agora: Instante)
    ensures Expirado(info, agora) ==> agora > info.criadoEm
  {
    HorasEntre(info.criadoEm, agora) > TOKEN_EXPIRY_HOURS
  }

  /** A token is expired exactly when 25 full hours have passed since it was issued. */
  lemma ExpiradoSse(info: TokenInfo, agora: Instante)
    ensures Expirado(info, agora) <==> agora - info.criadoEm >= (TOKEN_EXPIRY_HOURS + 1) * SEGUNDOS_POR_HORA
  {
  }

  /** What validateToken answers and the table it leaves behind. */
  datatype Validacao = Validacao(cpf: Option<Cpf>, sessoes: Sessoes)

  /** The outcome of TokenManager.validateToken on the table `m` at instant `agora`. */
  function Validar(m: Sessoes, token: Token, agora: Instante): (v: Validacao)
    ensures v.cpf.Some? <==> token != "" && token in m && !Expirado(m[token], agora)
    ensures v.cpf.Some? ==> v.cpf.value == m[token].cpf && v.sessoes == m
    ensures v.sessoes.Keys <= m.Keys && m.Keys - v.sessoes.Keys <= {token}
    ensures forall t :: t in v.sessoes ==> v.sessoes[t] == m[t]
    ensures token in m && token !in v.sessoes <==> token != "" && token in m && Expirado(m[token], agora)
  {
    if token == "" then Validacao(None, m)
    else if token !in m then Validacao(None, m)
    else if Expirado(m[token], agora) then Validacao(None, m - {token})
    else Validacao(Some(m[token].cpf), m)
  }

  /** cleanupExpiredTokens: the table without its expired entries. */
  function Varridos(m: Sessoes, agora: Instante): (r: Sessoes)
    ensures r.Keys <= m.Keys
  {
    map t | t in m && !Expirado(m[t], agora) :: m[t]
  }

  /** The sweep removes exactly the expired entries and keeps every other entry as it was. */
  lemma VarreduraExata(m: Sessoes, agora: Instante, t: Token)
    ensures t in Varridos(m, agora) <==> t in m && !Expirado(m[t], agora)
    ensures t in Varridos(m, agora) ==> Varridos(m, agora)[t] == m[t]
  {
  }

  /** Sweeping is idempotent. */
  lemma VarreduraIdempotente(m: Sessoes, agora: Instante)
    ensures Varridos(Varridos(m, agora), agora) == Varridos(m, agora)
  {
  }

  /** The sweep is an optimisation only: it changes no answer of validateToken at the same instant. */
  lemma VarreduraPreservaValidacao(m: Sessoes, token: Token, agora: Instante)
    ensures Validar(Varridos(m, agora), token, agora).cpf == Validar(m, token, agora).cpf
  {
  }

  /**
   * Session lifecycle: a token issued at `emitido` validates to its cpf while fewer than 25 full
   * hours have passed, and afterwards fails validation and is evicted.
   */
  lemma {:induction false} CicloDaSessao(m: Sessoes, token: Token, cpf: Cpf, emitido: Instante, agora: Instante)
    requires token != ""
    ensures var v := Validar(m[token := TokenInfo(cpf, emitido)], token, agora);
      if agora - emitido < (TOKEN_EXPIRY_HOURS + 1) * SEGUNDOS_POR_HORA
      then v.cpf == Some(cpf) && v.sessoes == m[token := TokenInfo(cpf, emitido)]
      else v.cpf == None && v.sessoes == m - {token}
  {
    ExpiradoSse(TokenInfo(cpf, emitido), agora);
    var m' := m[token := TokenInfo(cpf, emitido)];
    assert m' - {token} == m - {token};
  }

  /** A revoked token never validates again. */
  lemma RevogadoNaoValida(m: Sessoes, token: Token, agora: Instante)
    ensures Validar(m - {token}, token, agora).cpf == None
  {
  }

  /** TokenManager: the static ConcurrentHashMap `tokens`, one instance for the whole process. */
  class TokenManager {
    var tokens: Sessoes

    constructor ()
      ensures tokens == map[]
    {
      tokens := map[];
    }

    /** generateToken: record `novo` (the random UUID) for `cpf`, issued at `agora`. */
    method GenerateToken(cpf: Cpf, agora: Instante, novo: Token) returns (token: Token)
      modifies this
      ensures token == novo
      ensures tokens == old(tokens)[novo := TokenInfo(cpf, agora)]
      ensures forall t :: t != novo && t in old(tokens) ==> t in tokens && tokens[t] == old(tokens)[t]
    {
      token := novo;
      tokens := tokens[token := TokenInfo(cpf, agora)];
    }

    /** validateToken: the owner of a known, unexpired token; an expired token is evicted. */
    method ValidateToken(token: Token, agora: Instante) returns (cpf: Option<Cpf>)
      modifies this
      ensures Validacao(cpf, tokens) == Validar(old(tokens), token, agora)
    {
      if token == "" {
        return None;
      }
      if token !in tokens {
        return None;
      }
      var info := tokens[token];
      if Expirado(info, agora) {
        tokens := tokens - {token};
        return None;
      }
      return Some(info.cpf);
    }

    /** removeToken: true exactly when a session was removed. */
    method RemoveToken(token: Token) returns (removido: bool)
      modifies this
      ensures removido <==> token in old(tokens)
      ensures tokens == old(tokens) - {token}
    {
      removido := token in tokens;
      tokens := tokens - {token};
    }

    /** cleanupExpiredTokens: tokens.entrySet().removeIf(entry -> entry.getValue().isExpired()). */
    method CleanupExpiredTokens(agora: Instante)
      modifies this
      ensures tokens == Varridos(old(tokens), agora)
    {
      tokens := map t | t in tokens && !Expirado(tokens[t], agora) :: tokens[t];
    }
  }

  /** Logging out twice: the first removeToken of a live token succeeds, the second reports false. */
  method LogoutDuplo(gerente: TokenManager, token: Token) returns (primeiro: bool, segundo: bool)
    requires token in gerente.tokens
    modifies gerente
    ensures primeiro && !segundo
    ensures gerente.tokens == old(gerente.tokens) - {token}
  {
    primeiro := gerente.RemoveToken(token);
    segundo := gerente.RemoveToken(token);
  }
}
