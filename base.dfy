/** Shared vocabulary of the PIX ledger model: identifiers, money, time and Java's String.trim. */
module Base {

  /** Stands for a Java reference that may be null. */
  datatype Option<+T> = None | Some(value: T) {
    function GetOr(default: T): T {
      match this
      case Some(v) => v
      case None => default
    }
  }

  /** The natural key of an account (the CPF), as text. */
  type Cpf = string

  /** An opaque session token. */
  type Token = string

  /** A point on the server's clock, in whole seconds. */
  type Instante = int

  /** An amount of money in cents; the source holds amounts as Java doubles. */
  type Centavos = int

  /** Java's String.trim treats every character up to U+0020 as removable. */
  predicate Branco(c: char) {
    c <= ' '
  }

  /** The suffix of `s` left after dropping its leading blanks. */
  function SemBrancosIniciais(s: string): (r: string)
    ensures |r| <= |s|
    ensures r == [] || !Branco(r[0])
  {
    if s != [] && Branco(s[0]) then SemBrancosIniciais(s[1..]) else s
  }

  /** What SemBrancosIniciais drops is a prefix of `s` made of blanks only. */
  lemma {:induction false} SemBrancosIniciaisSufixo(s: string)
    ensures var r := SemBrancosIniciais(s);
      r == s[|s| - |r|..] && forall k :: 0 <= k < |s| - |r| ==> Branco(s[k])
  {
    if s != [] && Branco(s[0]) {
      SemBrancosIniciaisSufixo(s[1..]);
    }
  }

  /** The prefix of `s` left after dropping its trailing blanks. */
  function SemBrancosFinais(s: string): (r: string)
    ensures |r| <= |s|
    ensures r == [] || !Branco(r[|r| - 1])
  {
    if s != [] && Branco(s[|s| - 1]) then SemBrancosFinais(s[..|s| - 1]) else s
  }

  /** What SemBrancosFinais drops is a suffix of `s` made of blanks only. */
  lemma {:induction false} SemBrancosFinaisPrefixo(s: string)
    ensures var r := SemBrancosFinais(s);
      r == s[..|r|] && forall k :: |r| <= k < |s| ==> Branco(s[k])
  {
    if s != [] && Branco(s[|s| - 1]) {
      SemBrancosFinaisPrefixo(s[..|s| - 1]);
    }
  }

  /** String.trim: `s` without its leading and trailing blanks. */
  function Trim(s: string): (r: string)
    ensures |r| <= |s|
    ensures r == [] || (!Branco(r[0]) && !Branco(r[|r| - 1]))
  {
    SemBrancosFinaisPrefixo(SemBrancosIniciais(s));
    SemBrancosFinais(SemBrancosIniciais(s))
  }

  /** Trimming yields the empty string exactly when every character of `s` is blank. */
  lemma TrimVazioSse(s: string)
    ensures Trim(s) == [] <==> forall k :: 0 <= k < |s| ==> Branco(s[k])
  {
    var t := SemBrancosIniciais(s);
    SemBrancosIniciaisSufixo(s);
    SemBrancosFinaisPrefixo(t);
    // when the trim is empty, every character of t is blank but its first one is not: t is empty
    assert Trim(s) == [] ==> |t| == 0;
  }

  /** A string with no blank at either end is left as it is by trimming. */
  lemma TrimSemBrancosNasPontas(s: string)
    requires s == [] || (!Branco(s[0]) && !Branco(s[|s| - 1]))
    ensures Trim(s) == s
  {
  }

  /** Trimming twice is the same as trimming once. */
  lemma TrimIdempotente(s: string)
    ensures Trim(Trim(s)) == Trim(s)
  {
    TrimSemBrancosNasPontas(Trim(s));
  }
}
