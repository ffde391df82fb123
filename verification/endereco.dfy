/** `models/endereco.py`: a client's postal address, the validation and
    normalisation its constructor applies, CEP normalisation and the two-line
    rendering. */
module Enderecos {
  import opened Wrappers
  import opened Texto
  import opened Codificacao
  import opened Dicionario

  /** The house number may be given as text or as an integer. */
  datatype Numero = NumeroTexto(texto: string) | NumeroInteiro(valor: int)

  /** `str(numero)`. */
  function TextoDe(n: Numero): string {
    match n
    case NumeroTexto(t) => t
    case NumeroInteiro(v) => IntToDecimal(v)
  }

  datatype Endereco = Endereco(
    enderecoId: string,
    clienteId: Option<int>,
    rua: string,
    numero: string,
    bairro: string,
    cidade: string,
    uf: string,
    cep: string)

  datatype Erro = RuaVazia | BairroVazio | CidadeVazia | UfInvalida | CepInvalido

  /** `00000-000`. */
  predicate CepFormatado(c: string) {
    |c| == 9 && c[5] == '-' && forall i :: 0 <= i < 9 && i != 5 ==> IsDigit(c[i])
  }

  /** `Endereco._validar_cep`: the digits of the input, if there are exactly
      eight of them, written `ddddd-ddd`; otherwise `None`. */
  function ValidarCep(cep: string): (r: Option<string>)
    ensures r.Some? <==> |Digits(cep)| == 8
    ensures r.Some? ==> CepFormatado(r.value) && Digits(r.value) == Digits(cep)
  {
    if cep == [] then None
    else
      var d := Digits(cep);
      if |d| != 8 then None
      else
        DigitsAppend(d[..5] + "-", d[5..]);
        DigitsAppend(d[..5], "-");
        assert Digits(d[..5]) == d[..5] && Digits(d[5..]) == d[5..];
        assert d[..5] + d[5..] == d;
        Some(d[..5] + "-" + d[5..])
  }

  /** Normalising a normalised CEP changes nothing, and the two accepted
      spellings `ddddddddd` and `ddddd-ddd` of the same digits agree. */
  lemma ValidarCepIdempotente(cep: string)
    requires ValidarCep(cep).Some?
    ensures ValidarCep(ValidarCep(cep).value) == ValidarCep(cep)
    ensures ValidarCep(Digits(cep)) == ValidarCep(cep)
  {
    var d := Digits(cep);
    assert Digits(d) == d;
  }

  /** What every constructed address satisfies. */
  predicate Valido(e: Endereco) {
    && e.rua != [] && Strip(e.rua) == e.rua
    && e.bairro != [] && Strip(e.bairro) == e.bairro
    && e.cidade != [] && Strip(e.cidade) == e.cidade
    && Strip(e.numero) == e.numero
    && |e.uf| == 2 && NoSpace(e.uf) && (forall i :: 0 <= i < 2 ==> !IsLowerAscii(e.uf[i]))
    && CepFormatado(e.cep)
  }

  /** `Endereco.__init__`: rejects, in this order, a blank street, district or
      city, a state code that is not two characters once trimmed, and a CEP
      without exactly eight digits; stores the text fields trimmed and the
      state code upper-cased. `novoId` stands for `str(uuid4())`. */
  function NovoEndereco(rua: string, numero: Numero, bairro: string, cidade: string, uf: string, cep: string,
                        enderecoId: Option<string>, novoId: string, clienteId: Option<int>): (r: Result<Endereco, Erro>)
    ensures r.Ok? <==> !Blank(rua) && !Blank(bairro) && !Blank(cidade) && |Strip(uf)| == 2 && |Digits(cep)| == 8
    ensures Blank(rua) ==> r == Err(RuaVazia)
    ensures !Blank(rua) && Blank(bairro) ==> r == Err(BairroVazio)
    ensures !Blank(rua) && !Blank(bairro) && Blank(cidade) ==> r == Err(CidadeVazia)
    ensures !Blank(rua) && !Blank(bairro) && !Blank(cidade) && |Strip(uf)| != 2 ==> r == Err(UfInvalida)
    ensures !Blank(rua) && !Blank(bairro) && !Blank(cidade) && |Strip(uf)| == 2 && |Digits(cep)| != 8 ==>
              r == Err(CepInvalido)
    ensures r.Ok? ==> Valido(r.value)
    ensures r.Ok? ==> r.value.rua == Strip(rua) && r.value.numero == Strip(TextoDe(numero))
    ensures r.Ok? ==> r.value.bairro == Strip(bairro) && r.value.cidade == Strip(cidade)
    ensures r.Ok? ==> r.value.uf == Upper(Strip(uf)) && Lower(r.value.uf) == Lower(Strip(uf))
    ensures r.Ok? ==> Some(r.value.cep) == ValidarCep(cep) && Digits(r.value.cep) == Digits(cep)
    ensures r.Ok? ==> r.value.clienteId == clienteId
    ensures r.Ok? ==> r.value.enderecoId == (if enderecoId.Some? then enderecoId.value else novoId)
  {
    if Blank(rua) then Err(RuaVazia)
    else if Blank(bairro) then Err(BairroVazio)
    else if Blank(cidade) then Err(CidadeVazia)
    else if uf == [] || |Strip(uf)| != 2 then Err(UfInvalida)
    else
      match ValidarCep(cep)
      case None => Err(CepInvalido)
      case Some(c) =>
        StripIdempotent(rua);
        StripIdempotent(bairro);
        StripIdempotent(cidade);
        StripIdempotent(TextoDe(numero));
        UfNormalizada(uf);
        LowerUpper(Strip(uf));
        Ok(Endereco(if enderecoId.Some? then enderecoId.value else novoId, clienteId,
                    Strip(rua), Strip(TextoDe(numero)), Strip(bairro), Strip(cidade), Upper(Strip(uf)), c))
  }

  /** A two-character trimmed state code stays free of whitespace when
      upper-cased. */
  lemma UfNormalizada(uf: string)
    requires |Strip(uf)| == 2
    ensures NoSpace(Upper(Strip(uf)))
  {
    var t := Strip(uf);
    var i, j := StripBounds(uf);
    assert !IsSpace(t[0]) && !IsSpace(t[1]);
    var u := Upper(t);
    assert u[0] == t[0] || IsLowerAscii(t[0]);
    assert u[1] == t[1] || IsLowerAscii(t[1]);
  }

  /** Upper-casing keeps the letters: only their case changes. */
  lemma LowerUpper(s: string)
    ensures Lower(Upper(s)) == Lower(s)
  {
    var u := Upper(s);
    forall i | 0 <= i < |s|
      ensures Lower(u)[i] == Lower(s)[i]
    {
      assert u[i] == s[i] || (IsLowerAscii(s[i]) && u[i] as int + 32 == s[i] as int);
    }
  }

  /** The first line of `endereco_completo`: street, number and district. */
  function PrimeiraLinha(e: Endereco): string {
    e.rua + ", " + e.numero + " - " + e.bairro
  }

  /** The second line of `endereco_completo`: city, state code and CEP. */
  function SegundaLinha(e: Endereco): string {
    e.cidade + "/" + e.uf + " - CEP: " + e.cep
  }

  /** `Endereco.endereco_completo`: starts with the street, ends with the
      CEP, and breaks the line right after the district. */
  function EnderecoCompleto(e: Endereco): (r: string)
    ensures |r| == |e.rua| + |e.numero| + |e.bairro| + |e.cidade| + |e.uf| + |e.cep| + 15
    ensures r[..|e.rua|] == e.rua && r[|r| - |e.cep|..] == e.cep
    ensures r[|e.rua| + |e.numero| + |e.bairro| + 5] == '\n'
  {
    var r := PrimeiraLinha(e) + "\n" + SegundaLinha(e);
    assert r[|PrimeiraLinha(e)|] == '\n';
    r
  }

  /** When street, number, district and city hold no line break, the
      rendering is exactly two lines: street line, then city, state and CEP. */
  lemma LinhasDoEndereco(e: Endereco, maxsplit: nat)
    requires Valido(e) && maxsplit >= 1
    requires '\n' !in e.rua && '\n' !in e.numero && '\n' !in e.bairro && '\n' !in e.cidade
    ensures Split(EnderecoCompleto(e), '\n', maxsplit) == [PrimeiraLinha(e), SegundaLinha(e)]
  {
    SemQuebraNasLinhas(e);
    SplitAfterFirst(PrimeiraLinha(e), '\n', SegundaLinha(e), maxsplit);
  }

  lemma SemQuebraNasLinhas(e: Endereco)
    requires Valido(e)
    requires '\n' !in e.rua && '\n' !in e.numero && '\n' !in e.bairro && '\n' !in e.cidade
    ensures '\n' !in PrimeiraLinha(e) && '\n' !in SegundaLinha(e)
  {
    assert '\n' !in e.uf by {
      assert IsSpace('\n');
    }
    assert '\n' !in e.cep;
  }

  /** `Endereco.to_dict`. */
  function ToDict(e: Endereco): (d: Dict)
    ensures d.Keys == {"uuid", "cliente_id", "rua", "numero", "bairro", "cidade", "uf", "cep"}
    ensures d["cliente_id"] == (if e.clienteId.Some? then VInt(e.clienteId.value) else VNull)
    ensures d["uuid"] == VStr(e.enderecoId) && d["rua"] == VStr(e.rua) && d["numero"] == VStr(e.numero)
    ensures d["bairro"] == VStr(e.bairro) && d["cidade"] == VStr(e.cidade)
    ensures d["uf"] == VStr(e.uf) && d["cep"] == VStr(e.cep)
  {
    map[
      "uuid" := VStr(e.enderecoId),
      "cliente_id" := (if e.clienteId.Some? then VInt(e.clienteId.value) else VNull),
      "rua" := VStr(e.rua),
      "numero" := VStr(e.numero),
      "bairro" := VStr(e.bairro),
      "cidade" := VStr(e.cidade),
      "uf" := VStr(e.uf),
      "cep" := VStr(e.cep)]
  }
}
