/** `models/sala.py`: a room, its constructor's validation, its dict form and
    the availability resolver `statusEm`. */
module Salas {
  import opened Wrappers
  import opened Texto
  import opened Dicionario

  /** A reservation-like record handed in by the caller. A field is `None`
      when the object has no such attribute (`hasattr` is false). */
  datatype Reserva = Reserva(inicio: Option<Instante>, fim: Option<Instante>)

  /** The three labels `statusEm` returns: "bloqueada", "ocupada", "livre". */
  datatype Status = Bloqueada | Ocupada | Livre

  /** The id is stored as given (any value but `None`), so it is a dict value. */
  datatype Sala = Sala(salaId: Val, nome: string, tipo: string, ativa: bool)

  datatype Erro =
    | NomeVazio          // "Nome da sala não pode ser vazio"
    | TipoVazio          // "Tipo da sala não pode ser vazio"
    | AtivaNaoBooleana   // "Ativa deve ser booleano"
    | ChaveAusente(chave: string)
    | CampoNaoTexto(campo: string)

  /** A trimmed, non-empty text field. */
  predicate Aparado(s: string) {
    s != [] && Strip(s) == s
  }

  /** What every constructed room satisfies. */
  predicate Valida(s: Sala) {
    Aparado(s.nome) && Aparado(s.tipo)
  }

  /** `Sala.__init__`: rejects a blank `nome`, then a blank `tipo`, then a
      non-boolean `ativa`; stores `nome`/`tipo` trimmed. `novoId` stands for
      `str(uuid4())`, used when the id is `None`. */
  function NovaSala(nome: string, tipo: string, ativa: Dyn<bool>, salaId: Val, novoId: string): (r: Result<Sala, Erro>)
    ensures r.Ok? <==> !Blank(nome) && !Blank(tipo) && ativa.Is?
    ensures Blank(nome) ==> r == Err(NomeVazio)
    ensures !Blank(nome) && Blank(tipo) ==> r == Err(TipoVazio)
    ensures !Blank(nome) && !Blank(tipo) && !ativa.Is? ==> r == Err(AtivaNaoBooleana)
    ensures r.Ok? ==> Valida(r.value) && r.value.ativa == ativa.val
    ensures r.Ok? ==> r.value.nome == Strip(nome) && r.value.tipo == Strip(tipo)
    ensures r.Ok? ==> NonSpace(r.value.nome) == NonSpace(nome) && NonSpace(r.value.tipo) == NonSpace(tipo)
    ensures r.Ok? ==> r.value.salaId == (if salaId.VNull? then VStr(novoId) else salaId)
  {
    if Blank(nome) then Err(NomeVazio)
    else if Blank(tipo) then Err(TipoVazio)
    else if !ativa.Is? then Err(AtivaNaoBooleana)
    else
      StripIdempotent(nome);
      StripIdempotent(tipo);
      StripKeepsNonSpace(nome);
      StripKeepsNonSpace(tipo);
      Ok(Sala(if salaId.VNull? then VStr(novoId) else salaId, Strip(nome), Strip(tipo), ativa.val))
  }

  /** The reservation has both boundaries and its closed interval holds `t`. */
  predicate Cobre(r: Reserva, t: Instante) {
    r.inicio.Some? && r.fim.Some? && r.inicio.value <= t <= r.fim.value
  }

  /** The status a room must have at `t`: an inactive room is blocked whatever
      its reservations; an active one is occupied when some reservation covers
      `t`, free otherwise. */
  function Situacao(ativa: bool, reservas: seq<Reserva>, t: Instante): Status {
    if !ativa then Bloqueada
    else if exists r :: r in reservas && Cobre(r, t) then Ocupada
    else Livre
  }

  /** `Sala.statusEm`: short-circuits on an inactive room, then scans the
      reservations in order (a missing list counts as empty), skipping records
      without both boundaries, and reports occupied at the first match. */
  method StatusEm(sala: Sala, dataHora: Instante, reservas: Option<seq<Reserva>>) returns (s: Status)
    ensures s == Situacao(sala.ativa, if reservas.Some? then reservas.value else [], dataHora)
  {
    if !sala.ativa {
      return Bloqueada;
    }
    var rs := if reservas.Some? then reservas.value else [];
    for i := 0 to |rs|
      invariant forall j :: 0 <= j < i ==> !Cobre(rs[j], dataHora)
    {
      var reserva := rs[i];
      if reserva.inicio.Some? && reserva.fim.Some? {
        if reserva.inicio.value <= dataHora <= reserva.fim.value {
          assert reserva in rs && Cobre(reserva, dataHora);
          return Ocupada;
        }
      }
    }
    return Livre;
  }

  /** Only whether a covering reservation exists matters: reordering,
      duplicating or overlapping reservations does not change the status. */
  lemma {:induction false} SituacaoIgnoraOrdem(ativa: bool, a: seq<Reserva>, b: seq<Reserva>, t: Instante)
    requires forall r :: r in a <==> r in b
    ensures Situacao(ativa, a, t) == Situacao(ativa, b, t)
  {
    if ativa && (exists r :: r in a && Cobre(r, t)) {
      var r :| r in a && Cobre(r, t);
      assert r in b;
    }
    if ativa && (exists r :: r in b && Cobre(r, t)) {
      var r :| r in b && Cobre(r, t);
      assert r in a;
    }
  }

  /** A record lacking `inicio` or `fim` is skipped wherever it stands. */
  lemma {:induction false} ReservaIncompletaIgnorada(ativa: bool, a: seq<Reserva>, x: Reserva, b: seq<Reserva>, t: Instante)
    requires x.inicio.None? || x.fim.None?
    ensures Situacao(ativa, a + [x] + b, t) == Situacao(ativa, a + b, t)
  {
    if ativa && (exists r :: r in a + [x] + b && Cobre(r, t)) {
      var r :| r in a + [x] + b && Cobre(r, t);
      assert r != x;
      assert r in a + b;
    }
    if ativa && (exists r :: r in a + b && Cobre(r, t)) {
      var r :| r in a + b && Cobre(r, t);
      assert r in a + [x] + b;
    }
  }

  /** Both ends of a reservation count as inside it, and nothing outside does. */
  lemma IntervaloFechado(inicio: Instante, fim: Instante, t: Instante)
    ensures Situacao(true, [Reserva(Some(inicio), Some(fim))], t) == Ocupada <==> inicio <= t <= fim
    ensures Situacao(true, [Reserva(Some(inicio), Some(fim))], t) == Livre <==> !(inicio <= t <= fim)
  {
    var r := Reserva(Some(inicio), Some(fim));
    assert r in [r];
  }

  /** `Sala.to_dict`. */
  function ToDict(s: Sala): (d: Dict)
    ensures d.Keys == {"sala_id", "nome", "tipo", "ativa"}
    ensures d["sala_id"] == s.salaId && d["ativa"] == VBool(s.ativa)
    ensures d["nome"] == VStr(s.nome) && d["tipo"] == VStr(s.tipo)
  {
    map["sala_id" := s.salaId, "nome" := VStr(s.nome), "tipo" := VStr(s.tipo), "ativa" := VBool(s.ativa)]
  }

  /** The `ativa` argument as `isinstance(…, bool)` sees it. */
  function AsBool(v: Val): Dyn<bool> {
    match v
    case VNull => Null
    case VBool(b) => Is(b)
    case _ => Other
  }

  /** `Sala.from_dict`: `nome` and `tipo` are required keys (read in that
      order), `sala_id` defaults to `None` and `ativa` to true; the
      constructor then checks `nome`, `tipo` and `ativa` in turn, a truthy
      non-string name or type raising `AttributeError` at its `strip()`. */
  function FromDict(d: Dict, novoId: string): (r: Result<Sala, Erro>)
    ensures "nome" !in d ==> r == Err(ChaveAusente("nome"))
    ensures "nome" in d && "tipo" !in d ==> r == Err(ChaveAusente("tipo"))
    ensures "nome" in d && "tipo" in d && LerCampo(d["nome"]).CampoVazio? ==> r == Err(NomeVazio)
    ensures r.Ok? <==> "nome" in d && "tipo" in d && d["nome"].VStr? && !Blank(d["nome"].s)
                       && d["tipo"].VStr? && !Blank(d["tipo"].s) && AsBool(Get(d, "ativa", VBool(true))).Is?
    ensures r.Ok? ==> r.value.nome == Strip(d["nome"].s) && r.value.tipo == Strip(d["tipo"].s)
    ensures r.Ok? ==> r.value.salaId == (if Get(d, "sala_id", VNull).VNull? then VStr(novoId) else d["sala_id"])
  {
    if "nome" !in d then Err(ChaveAusente("nome"))
    else if "tipo" !in d then Err(ChaveAusente("tipo"))
    else
      match (LerCampo(d["nome"]), LerCampo(d["tipo"]))
      case (CampoVazio, _) => Err(NomeVazio)
      case (SemStrip, _) => Err(CampoNaoTexto("nome"))
      case (_, CampoVazio) => Err(TipoVazio)
      case (_, SemStrip) => Err(CampoNaoTexto("tipo"))
      case (Preenchido(nome), Preenchido(tipo)) =>
        NovaSala(nome, tipo, AsBool(Get(d, "ativa", VBool(true))), Get(d, "sala_id", VNull), novoId)
  }

  /** `Sala.from_dict(s.to_dict())` rebuilds any constructed room exactly,
      because trimming an already trimmed field changes nothing. */
  lemma DictRoundTrip(nome: string, tipo: string, ativa: Dyn<bool>, salaId: Val, novoId: string, outroId: string)
    requires NovaSala(nome, tipo, ativa, salaId, novoId).Ok?
    ensures FromDict(ToDict(NovaSala(nome, tipo, ativa, salaId, novoId).value), outroId)
            == NovaSala(nome, tipo, ativa, salaId, novoId)
  {
    var s := NovaSala(nome, tipo, ativa, salaId, novoId).value;
    var d := ToDict(s);
    assert d["nome"] == VStr(s.nome) && d["tipo"] == VStr(s.tipo);
    assert Get(d, "sala_id", VNull) == s.salaId && !s.salaId.VNull?;
    assert AsBool(Get(d, "ativa", VBool(true))) == Is(s.ativa);
    assert !Blank(s.nome) && !Blank(s.tipo);
    assert Strip(s.nome) == s.nome && Strip(s.tipo) == s.tipo;
  }
}
