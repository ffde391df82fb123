/** Password storage of `models/usuario.py`: `hash_senha` writes
    `iterations$salt_hex$hash_hex`, and `validar_senha` checks a password
    against that format or against a legacy unsalted SHA-256 hex digest. */
module Credenciais {
  import opened Wrappers
  import opened Texto
  import opened Codificacao

  /** The 16 random bytes `os.urandom(16)` draws. */
  type Salt = s: seq<Byte> | |s| == 16 witness seq(16, i => 0)

  /** A SHA-256 sized output (32 bytes). */
  type Digest = d: seq<Byte> | |d| == 32 witness seq(32, i => 0)

  /** The cryptographic primitives, outside the model: PBKDF2-HMAC-SHA256
      (section 5.2 of RFC 8018) of the UTF-8 encoded password, a salt and an
      iteration count, and SHA-256 (FIPS 180-4) of the UTF-8 encoded password. */
  datatype Primitivas = Primitivas(pbkdf2: (string, seq<Byte>, int) -> Digest, sha256: string -> Digest)

  const IteracoesMinimas := 100_000
  const IteracoesPadrao := 600_000
  /** CPython's `hashlib.pbkdf2_hmac` raises `OverflowError` for a count above
      C `INT_MAX` and `ValueError` for a count below 1. */
  const KdfMaxIteracoes := 0x7FFF_FFFF
  /** Below C `LONG_MIN` (64-bit) the argument conversion itself raises `OverflowError`. */
  const KdfMinArgumento := -0x8000_0000_0000_0000

  datatype ErroHash = SenhaVazia | IteracoesBaixas | IteracoesExcessivas

  /** The text `hash_senha` stores. */
  function FormatoHash(iteracoes: nat, salt: seq<Byte>, dk: seq<Byte>): string {
    NatToDecimal(iteracoes) + "$" + ToHex(salt) + "$" + ToHex(dk)
  }

  /** Neither a decimal numeral nor hexadecimal text contains a `$`. */
  lemma SemCifrao(n: nat, b: seq<Byte>)
    ensures '$' !in NatToDecimal(n) && '$' !in ToHex(b)
  {
    var a, h := NatToDecimal(n), ToHex(b);
    forall i | 0 <= i < |a| ensures a[i] != '$' {
      assert IsDigit(a[i]);
    }
    forall i | 0 <= i < |h| ensures h[i] != '$' {
      assert h[i] in HexDigits;
    }
  }

  /** Three `$`-free fields joined by `$` split back into themselves. */
  lemma SplitTres(a: string, b: string, c: string, maxsplit: nat)
    requires '$' !in a && '$' !in b && '$' !in c && maxsplit >= 2
    ensures Split(a + "$" + b + "$" + c, '$', maxsplit) == [a, b, c]
  {
    JuntarTres(a, b, c);
    SplitAfterFirst(a, '$', b + ['$'] + c, maxsplit);
    SplitAfterFirst(b, '$', c, maxsplit - 1);
    assert Split(c, '$', maxsplit - 2) == [c];
  }

  lemma JuntarTres(a: string, b: string, c: string)
    ensures a + "$" + b + "$" + c == a + ['$'] + (b + ['$'] + c)
  {
  }

  /** The stored text splits back into its three fields, which parse back to
      the count, the salt and the derived key. */
  lemma LerFormatoHash(iteracoes: nat, salt: seq<Byte>, dk: seq<Byte>, maxsplit: nat)
    requires maxsplit >= 2
    ensures Split(FormatoHash(iteracoes, salt, dk), '$', maxsplit) == [NatToDecimal(iteracoes), ToHex(salt), ToHex(dk)]
    ensures ParseInt(NatToDecimal(iteracoes)) ==
              if |NatToDecimal(iteracoes)| <= MaxStrDigits then Some(iteracoes) else None
    ensures FromHex(ToHex(salt)) == Some(salt) && FromHex(ToHex(dk)) == Some(dk)
  {
    SemCifrao(iteracoes, salt);
    SemCifrao(iteracoes, dk);
    SplitTres(NatToDecimal(iteracoes), ToHex(salt), ToHex(dk), maxsplit);
    ParseNatToDecimal(iteracoes);
    FromHexToHex(salt);
    FromHexToHex(dk);
  }

  /** Text that splits into more than one field contains the separator. */
  lemma CifraoPresente(h: string)
    requires |Split(h, '$', 2)| > 1
    ensures '$' in h
  {
  }

  /** `Usuario.hash_senha`: rejects a blank password, then a count below
      100 000; a count above `INT_MAX` makes `pbkdf2_hmac` raise. `salt`
      stands for `os.urandom(16)`. */
  function HashSenha(p: Primitivas, senha: string, iteracoes: int, salt: Salt): (r: Result<string, ErroHash>)
    ensures r.Ok? <==> !Blank(senha) && IteracoesMinimas <= iteracoes <= KdfMaxIteracoes
    ensures Blank(senha) ==> r == Err(SenhaVazia)
    ensures !Blank(senha) && iteracoes < IteracoesMinimas ==> r == Err(IteracoesBaixas)
    ensures !Blank(senha) && iteracoes > KdfMaxIteracoes ==> r == Err(IteracoesExcessivas)
    ensures r.Ok? ==> Split(r.value, '$', 2) == [NatToDecimal(iteracoes), ToHex(salt), ToHex(p.pbkdf2(senha, salt, iteracoes))]
    ensures r.Ok? ==> |ToHex(salt)| == 32 && |ToHex(p.pbkdf2(senha, salt, iteracoes))| == 64
  {
    if Blank(senha) then Err(SenhaVazia)
    else if iteracoes < IteracoesMinimas then Err(IteracoesBaixas)
    else if iteracoes > KdfMaxIteracoes then Err(IteracoesExcessivas)
    else
      LerFormatoHash(iteracoes, salt, p.pbkdf2(senha, salt, iteracoes), 2);
      Ok(FormatoHash(iteracoes, salt, p.pbkdf2(senha, salt, iteracoes)))
  }

  /** What a call of `validar_senha` does: return a boolean, or let an
      `OverflowError` escape (it is not among the caught exceptions). */
  datatype Desfecho = Retorna(valor: bool) | LancaOverflow

  /** The PBKDF2 branch of `validar_senha`, as written: any parse error is a
      caught `ValueError` (false); a count below 1 is a caught `ValueError`;
      a count outside the C `long`/`int` range raises `OverflowError`. */
  function VerificarPbkdf2(p: Primitivas, senhaHash: string, senha: string): (r: Desfecho)
    ensures r != Retorna(false) ==>
              var partes := Split(senhaHash, '$', 2);
              && |partes| == 3 && ParseInt(partes[0]).Some?
              && FromHex(partes[1]).Some? && FromHex(partes[2]).Some?
    ensures r.LancaOverflow? <==>
              var partes := Split(senhaHash, '$', 2);
              && |partes| == 3 && ParseInt(partes[0]).Some?
              && FromHex(partes[1]).Some? && FromHex(partes[2]).Some?
              && !(KdfMinArgumento <= ParseInt(partes[0]).value <= KdfMaxIteracoes)
    ensures r == Retorna(true) ==>
              var partes := Split(senhaHash, '$', 2);
              && 1 <= ParseInt(partes[0]).value <= KdfMaxIteracoes
              && p.pbkdf2(senha, FromHex(partes[1]).value, ParseInt(partes[0]).value) == FromHex(partes[2]).value
    ensures var partes := Split(senhaHash, '$', 2);
            |partes| == 3 && ParseInt(partes[0]).Some? && FromHex(partes[1]).Some? && FromHex(partes[2]).Some?
            && KdfMinArgumento <= ParseInt(partes[0]).value <= KdfMaxIteracoes ==>
              r == Retorna(1 <= ParseInt(partes[0]).value
                           && p.pbkdf2(senha, FromHex(partes[1]).value, ParseInt(partes[0]).value) == FromHex(partes[2]).value)
  {
    var partes := Split(senhaHash, '$', 2);
    if |partes| != 3 then Retorna(false)
    else
      match (ParseInt(partes[0]), FromHex(partes[1]), FromHex(partes[2]))
      case (Some(n), Some(salt), Some(dkGuardado)) =>
        if n < KdfMinArgumento || n > KdfMaxIteracoes then LancaOverflow
        else if n < 1 then Retorna(false)
        else Retorna(p.pbkdf2(senha, salt, n) == dkGuardado)
      case _ => Retorna(false)
  }

  /** `Usuario.validar_senha` as written: non-strings and empty strings are
      rejected; text with a `$` goes to the PBKDF2 branch; any other text is
      compared with the hex SHA-256 digest of the password. */
  function ValidarSenhaComoEscrito(p: Primitivas, senhaHash: Dyn<string>, senha: Dyn<string>): (r: Desfecho)
    ensures !senhaHash.Is? || !senha.Is? || senhaHash.val == [] || senha.val == [] ==> r == Retorna(false)
    ensures r.LancaOverflow? ==> senhaHash.Is? && '$' in senhaHash.val && senha.Is? && senha.val != []
    ensures senhaHash.Is? && senha.Is? && senha.val != [] && senhaHash.val != [] && '$' !in senhaHash.val ==>
              r == Retorna(senhaHash.val == ToHex(p.sha256(senha.val)))
    ensures senhaHash.Is? && senha.Is? && senha.val != [] && senhaHash.val != [] && '$' in senhaHash.val ==>
              r == VerificarPbkdf2(p, senhaHash.val, senha.val)
  {
    if !senhaHash.Is? || !senha.Is? then Retorna(false)
    else if senhaHash.val == [] || senha.val == [] then Retorna(false)
    else if '$' in senhaHash.val then VerificarPbkdf2(p, senhaHash.val, senha.val)
    else Retorna(senhaHash.val == ToHex(p.sha256(senha.val)))
  }

  /** `validar_senha` as its contract describes it: true when the password
      matches, false in every other case, the overflow included. */
  function ValidarSenha(p: Primitivas, senhaHash: Dyn<string>, senha: Dyn<string>): (b: bool)
    ensures b <==> ValidarSenhaComoEscrito(p, senhaHash, senha) == Retorna(true)
  {
    match ValidarSenhaComoEscrito(p, senhaHash, senha)
    case Retorna(b) => b
    case LancaOverflow => false
  }

  /** The PBKDF2 branch on a text in the stored format: the count decides
      between raising, rejecting and comparing derived keys. */
  lemma VerificarFormato(p: Primitivas, n: nat, salt: seq<Byte>, dk: seq<Byte>, senha: string)
    ensures VerificarPbkdf2(p, FormatoHash(n, salt, dk), senha) ==
              if |NatToDecimal(n)| > MaxStrDigits then Retorna(false)
              else if n > KdfMaxIteracoes then LancaOverflow
              else if n < 1 then Retorna(false)
              else Retorna(p.pbkdf2(senha, salt, n) == dk)
  {
    var partes := Split(FormatoHash(n, salt, dk), '$', 2);
    LerFormatoHash(n, salt, dk, 2);
    assert FromHex(partes[1]) == Some(salt);
    assert FromHex(partes[2]) == Some(dk);
  }

  /** A text in the stored format with a count the primitive accepts matches
      exactly the passwords that derive the stored key. */
  lemma ValidarFormato(p: Primitivas, n: nat, salt: seq<Byte>, dk: seq<Byte>, tentativa: string)
    requires 1 <= n <= KdfMaxIteracoes
    ensures ValidarSenhaComoEscrito(p, Is(FormatoHash(n, salt, dk)), Is(tentativa))
            == Retorna(tentativa != [] && p.pbkdf2(tentativa, salt, n) == dk)
  {
    var h := FormatoHash(n, salt, dk);
    LerFormatoHash(n, salt, dk, 2);
    CifraoPresente(h);
    DezDigitos(n);
    VerificarFormato(p, n, salt, dk, tentativa);
  }

  /** A hash written by `hash_senha` accepts exactly the passwords whose
      derived key under the stored salt and count is the stored key; in
      particular it accepts the password it was made from, and checking it
      never raises. */
  lemma ValidarHashGerado(p: Primitivas, senha: string, iteracoes: int, salt: Salt, tentativa: string)
    requires HashSenha(p, senha, iteracoes, salt).Ok?
    ensures ValidarSenhaComoEscrito(p, Is(HashSenha(p, senha, iteracoes, salt).value), Is(tentativa))
            == Retorna(tentativa != [] && p.pbkdf2(tentativa, salt, iteracoes) == p.pbkdf2(senha, salt, iteracoes))
    ensures ValidarSenha(p, Is(HashSenha(p, senha, iteracoes, salt).value), Is(senha))
  {
    var dk := p.pbkdf2(senha, salt, iteracoes);
    assert HashSenha(p, senha, iteracoes, salt).value == FormatoHash(iteracoes, salt, dk);
    ValidarFormato(p, iteracoes, salt, dk, tentativa);
    ValidarFormato(p, iteracoes, salt, dk, senha);
  }

  /** Text without a `$` is a legacy digest: it matches a password exactly
      when it is the lower-case hex SHA-256 of that password. */
  lemma ValidarLegado(p: Primitivas, senhaHash: string, senha: string)
    requires senhaHash != [] && senha != [] && '$' !in senhaHash
    ensures ValidarSenha(p, Is(senhaHash), Is(senha)) <==> senhaHash == ToHex(p.sha256(senha))
    ensures ValidarSenhaComoEscrito(p, Is(senhaHash), Is(senha)).Retorna?
  {
  }

  /** A text with a `$` that does not split into three fields never matches. */
  lemma ValidarPoucosCampos(p: Primitivas, senhaHash: string, senha: Dyn<string>)
    requires '$' in senhaHash && |Split(senhaHash, '$', 2)| != 3
    ensures ValidarSenhaComoEscrito(p, Is(senhaHash), senha) == Retorna(false)
  {
  }

  /** The as-written checker lets `OverflowError` escape for any well-formed
      hash whose count exceeds `INT_MAX`, whatever the password, unless the
      count has so many digits that `int()` itself raises a caught
      `ValueError`. */
  lemma OverflowEscapa(p: Primitivas, iteracoes: nat, salt: seq<Byte>, dk: seq<Byte>, senha: string)
    requires iteracoes > KdfMaxIteracoes && senha != []
    ensures ValidarSenhaComoEscrito(p, Is(FormatoHash(iteracoes, salt, dk)), Is(senha)) ==
              if |NatToDecimal(iteracoes)| <= MaxStrDigits then LancaOverflow else Retorna(false)
    ensures !ValidarSenha(p, Is(FormatoHash(iteracoes, salt, dk)), Is(senha))
  {
    var h := FormatoHash(iteracoes, salt, dk);
    LerFormatoHash(iteracoes, salt, dk, 2);
    CifraoPresente(h);
    VerificarFormato(p, iteracoes, salt, dk, senha);
  }

  /** `str(2**31)`, digit by digit: a worked computation that only supports
      the `OverflowExemplo` counterexample below. */
  lemma DecimalDoExemplo()
    ensures NatToDecimal(KdfMaxIteracoes + 1) == "2147483648"
  {
    assert NatToDecimal(2) == "2";
    assert NatToDecimal(21) == "21";
    assert NatToDecimal(214) == "214";
    assert NatToDecimal(2147) == "2147";
    assert NatToDecimal(21474) == "21474";
    assert NatToDecimal(214748) == "214748";
    assert NatToDecimal(2147483) == "2147483";
    assert NatToDecimal(21474836) == "21474836";
    assert NatToDecimal(214748364) == "214748364";
  }

  /** The smallest such input: `"2147483648$00$00"` with any non-empty password. */
  lemma OverflowExemplo(p: Primitivas)
    ensures ValidarSenhaComoEscrito(p, Is("2147483648$00$00"), Is("x")) == LancaOverflow
  {
    DecimalDoExemplo();
    assert ToHex([0]) == "00";
    assert FormatoHash(KdfMaxIteracoes + 1, [0], [0]) == "2147483648$00$00";
    OverflowEscapa(p, KdfMaxIteracoes + 1, [0], [0], "x");
  }

  /** The corrected checker agrees with the written one wherever that one
      returns, and answers false where it would raise. */
  lemma ValidarSenhaConcorda(p: Primitivas, senhaHash: Dyn<string>, senha: Dyn<string>)
    ensures ValidarSenhaComoEscrito(p, senhaHash, senha).Retorna? ==>
              ValidarSenha(p, senhaHash, senha) == ValidarSenhaComoEscrito(p, senhaHash, senha).valor
    ensures ValidarSenhaComoEscrito(p, senhaHash, senha).LancaOverflow? ==> !ValidarSenha(p, senhaHash, senha)
  {
  }
}
