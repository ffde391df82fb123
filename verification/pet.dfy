/** `models/pet.py`: a pet, its constructor's validation, its age in whole
    years and its dict form. */
module Pets {
  import opened Wrappers
  import opened Texto
  import opened Codificacao
  import opened Dicionario

  predicate Bissexto(ano: int) {
    ano % 4 == 0 && (ano % 100 != 0 || ano % 400 == 0)
  }

  function DiasNoMes(ano: int, mes: int): int {
    if mes == 2 then (if Bissexto(ano) then 29 else 28)
    else if mes == 4 || mes == 6 || mes == 9 || mes == 11 then 30
    else 31
  }

  datatype DataCivil = DataCivil(ano: int, mes: int, dia: int)

  /** A `datetime.date`: years 1 to 9999 of the proleptic Gregorian calendar. */
  type Data = d: DataCivil | 1 <= d.ano <= 9999 && 1 <= d.mes <= 12 && 1 <= d.dia <= DiasNoMes(d.ano, d.mes)
    witness DataCivil(1, 1, 1)

  /** Lexicographic order on (year, month, day), as Python compares tuples. */
  predicate Antes(a: DataCivil, b: DataCivil) {
    a.ano < b.ano || (a.ano == b.ano && (a.mes < b.mes || (a.mes == b.mes && a.dia < b.dia)))
  }

  /** `date.isoformat()`: `YYYY-MM-DD`, the three fields zero-padded
      decimals of the year, month and day. */
  function Iso(d: Data): (r: string)
    ensures |r| == 10 && r[4] == '-' && r[7] == '-'
    ensures forall i :: 0 <= i < 10 && i != 4 && i != 7 ==> IsDigit(r[i])
    ensures AllDigits(r[..4]) && DecimalValue(r[..4]) == d.ano
    ensures AllDigits(r[5..7]) && DecimalValue(r[5..7]) == d.mes
    ensures AllDigits(r[8..]) && DecimalValue(r[8..]) == d.dia
  {
    NatToDecimalLength(d.ano, 4);
    NatToDecimalLength(d.mes, 2);
    NatToDecimalLength(d.dia, 2);
    var r := PadZeros(d.ano, 4) + "-" + PadZeros(d.mes, 2) + "-" + PadZeros(d.dia, 2);
    assert r[..4] == PadZeros(d.ano, 4) && r[5..7] == PadZeros(d.mes, 2) && r[8..] == PadZeros(d.dia, 2);
    r
  }

  datatype Pet = Pet(
    petId: string,
    clienteId: Option<int>,
    nome: string,
    especie: string,
    raca: string,
    nascimento: Data)

  datatype Erro = NomeVazio | EspecieVazia | NascimentoInvalido

  /** `Pet.__init__`: rejects a blank name, then a blank species, then a
      birth date that is not a `date`; trims name, species and breed, a
      missing breed becoming "". `novoId` stands for `str(uuid4())`. */
  function NovoPet(nome: string, especie: string, raca: Option<string>, nascimento: Dyn<Data>,
                   petId: Option<string>, novoId: string, clienteId: Option<int>): (r: Result<Pet, Erro>)
    ensures r.Ok? <==> !Blank(nome) && !Blank(especie) && nascimento.Is?
    ensures Blank(nome) ==> r == Err(NomeVazio)
    ensures !Blank(nome) && Blank(especie) ==> r == Err(EspecieVazia)
    ensures !Blank(nome) && !Blank(especie) && !nascimento.Is? ==> r == Err(NascimentoInvalido)
    ensures r.Ok? ==> r.value.nome != [] && Strip(r.value.nome) == r.value.nome
    ensures r.Ok? ==> r.value.especie != [] && Strip(r.value.especie) == r.value.especie
    ensures r.Ok? ==> Strip(r.value.raca) == r.value.raca && (raca.None? ==> r.value.raca == [])
    ensures r.Ok? ==> r.value.nome == Strip(nome) && r.value.especie == Strip(especie)
    ensures r.Ok? ==> r.value.raca == (if raca.Some? then Strip(raca.value) else [])
    ensures r.Ok? ==> NonSpace(r.value.nome) == NonSpace(nome) && r.value.nascimento == nascimento.val
    ensures r.Ok? ==> r.value.clienteId == clienteId
    ensures r.Ok? ==> r.value.petId == (if petId.Some? then petId.value else novoId)
  {
    if Blank(nome) then Err(NomeVazio)
    else if Blank(especie) then Err(EspecieVazia)
    else if !nascimento.Is? then Err(NascimentoInvalido)
    else
      var rc := if raca.Some? then raca.value else [];
      StripIdempotent(nome);
      StripIdempotent(especie);
      StripIdempotent(rc);
      StripKeepsNonSpace(nome);
      var p := Pet(if petId.Some? then petId.value else novoId, clienteId, Strip(nome), Strip(especie),
                   Strip(rc), nascimento.val);
      assert raca.None? ==> p.raca == [] by {
        if raca.None? {
          assert Strip(rc) == Strip([]);
          assert LStrip([]) == [];
        }
      }
      Ok(p)
  }

  /** `Pet.calcular_idade` as written: the difference of the years, minus one
      when today's (month, day) is not after the birthday's. */
  function CalcularIdade(nascimento: Data, hoje: Data): (r: int)
    ensures hoje.ano - nascimento.ano - 1 <= r <= hoje.ano - nascimento.ano
    ensures r == hoje.ano - nascimento.ano <==>
              Antes(DataCivil(hoje.ano, nascimento.mes, nascimento.dia), hoje)
  {
    var idade := hoje.ano - nascimento.ano;
    if hoje.mes < nascimento.mes || (hoje.mes == nascimento.mes && hoje.dia <= nascimento.dia) then idade - 1
    else idade
  }

  /** The pet has completed `k` years by `hoje`: its `k`-th anniversary,
      taken as the (year, month, day) triple, lies strictly before today, so
      that on the birthday itself the year is not yet complete. */
  predicate CompletouAnos(nascimento: Data, hoje: Data, k: nat) {
    k == 0 || Antes(DataCivil(nascimento.ano + k, nascimento.mes, nascimento.dia), hoje)
  }

  /** The age in whole years: the greatest number of completed years. */
  function Idade(nascimento: Data, hoje: Data): (k: nat)
    ensures CompletouAnos(nascimento, hoje, k) && !CompletouAnos(nascimento, hoje, k + 1)
    ensures forall j: nat :: j <= k ==> CompletouAnos(nascimento, hoje, j)
  {
    var c := CalcularIdade(nascimento, hoje);
    if c < 0 then 0 else c
  }

  /** The written age agrees with `Idade` for every birth date before today. */
  lemma CalcularIdadeCorreta(nascimento: Data, hoje: Data)
    requires Antes(nascimento, hoje)
    ensures CalcularIdade(nascimento, hoje) == Idade(nascimento, hoje)
  {
  }

  /** For a pet born today the written age is -1, not 0. */
  lemma CalcularIdadeNascidoHoje(hoje: Data)
    ensures CalcularIdade(hoje, hoje) == -1
    ensures Idade(hoje, hoje) == 0
  {
  }

  /** `Pet.to_dict`, reporting the age as `calcular_idade` computes it:
      the whole-years age for a pet born before today. */
  function ToDict(p: Pet, hoje: Data): (d: Dict)
    ensures d.Keys == {"uuid", "cliente_id", "nome", "especie", "raca", "nascimento", "idade"}
    ensures d["idade"] == VInt(CalcularIdade(p.nascimento, hoje))
    ensures Antes(p.nascimento, hoje) ==> d["idade"] == VInt(Idade(p.nascimento, hoje)) && d["idade"].i >= 0
    ensures d["nascimento"] == VStr(Iso(p.nascimento)) && |d["nascimento"].s| == 10
    ensures d["uuid"] == VStr(p.petId) && d["nome"] == VStr(p.nome)
    ensures d["especie"] == VStr(p.especie) && d["raca"] == VStr(p.raca)
    ensures d["cliente_id"] == (if p.clienteId.Some? then VInt(p.clienteId.value) else VNull)
  {
    map[
      "uuid" := VStr(p.petId),
      "cliente_id" := (if p.clienteId.Some? then VInt(p.clienteId.value) else VNull),
      "nome" := VStr(p.nome),
      "especie" := VStr(p.especie),
      "raca" := VStr(p.raca),
      "nascimento" := VStr(Iso(p.nascimento)),
      "idade" := VInt(CalcularIdade(p.nascimento, hoje))]
  }
}
