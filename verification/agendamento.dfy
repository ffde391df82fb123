/** `models/agendamento.py`: an appointment, the domain checks its
    constructor runs, the control fields it starts with, and its dict form,
    which `from_dict` reads back by constructing and then overwriting the
    control fields. */
module Agendamentos {
  import opened Wrappers
  import opened Texto
  import opened Dicionario

  datatype Erro =
    | ChaveAusente(chave: string)   // KeyError
    | IsoInvalido(chave: string)    // datetime.fromisoformat fails
    | DatasInvalidas                // "A data de início deve ser anterior à data de término"
    | IdVazio                       // "IDs não podem ser vazios"
    | IdSemStrip                    // AttributeError: a truthy non-string id has no strip()

  /** The constructor's arguments. The source checks only the dates and the
      ids and stores every argument as given, so all but the dates are dict
      values (`None` is `VNull`). */
  datatype Argumentos = Argumentos(
    id: Val,
    salaId: Val,
    profissionalId: Val,
    clienteId: Val,
    petId: Val,
    inicio: Instante,
    fim: Instante,
    tipoAtendimento: Val,
    observacoes: Val,
    criadoPor: Val)

  /** The control fields the constructor sets and `from_dict` restores. */
  datatype Controle = Controle(
    status: Val,
    criadoEm: Instante,
    canceladoPor: Val,
    canceladoEm: Option<Instante>)

  /** Everything `to_dict` writes. */
  datatype Registro = Registro(args: Argumentos, controle: Controle)

  const StatusInicial := "AGENDADO"

  /** The keys the constructor call in `from_dict` indexes. */
  const ChavesDosArgumentos: set<string> :=
    {"id", "sala_id", "profissional_id", "cliente_id", "pet_id", "inicio", "fim", "tipo_atendimento"}

  /** The five identifiers, in the order `_validar_ids` receives them. */
  function Ids(a: Argumentos): seq<Val> {
    [a.id, a.salaId, a.profissionalId, a.clienteId, a.petId]
  }

  /** An identifier `not id_val or not id_val.strip()` lets through: text
      that is not blank (ISO text never is). */
  predicate IdAceito(v: Val) {
    v.VIso? || (v.VStr? && !Blank(v.s))
  }

  /** What `_validar_ids` raises for a refused identifier: a truthy
      non-string has no `strip()`; anything else is empty. */
  function ErroDoId(v: Val): (e: Erro)
    ensures !Truthy(v) ==> e == IdVazio
    ensures v.VStr? ==> e == IdVazio
  {
    if Truthy(v) && !v.VStr? && !v.VIso? then IdSemStrip else IdVazio
  }

  predicate IdsPreenchidos(ids: seq<Val>) {
    forall i :: 0 <= i < |ids| ==> IdAceito(ids[i])
  }

  /** The position of the first refused identifier, `|ids|` when there is none. */
  function PrimeiroRecusado(ids: seq<Val>): (k: nat)
    ensures k <= |ids|
    ensures forall j :: 0 <= j < k ==> IdAceito(ids[j])
    ensures k < |ids| ==> !IdAceito(ids[k])
    ensures k == |ids| <==> IdsPreenchidos(ids)
  {
    if ids == [] then 0
    else if !IdAceito(ids[0]) then 0
    else 1 + PrimeiroRecusado(ids[1..])
  }

  /** The constructor's checks: `_validar_datas` first, then `_validar_ids`,
      which reports the first refused identifier. */
  function Validar(a: Argumentos): (r: Result<(), Erro>)
    ensures r.Ok? <==> a.inicio < a.fim && IdsPreenchidos(Ids(a))
    ensures a.inicio >= a.fim ==> r == Err(DatasInvalidas)
    ensures a.inicio < a.fim && !IdsPreenchidos(Ids(a)) ==>
              r == Err(ErroDoId(Ids(a)[PrimeiroRecusado(Ids(a))]))
  {
    if a.inicio >= a.fim then Err(DatasInvalidas)
    else
      var k := PrimeiroRecusado(Ids(a));
      if k < |Ids(a)| then Err(ErroDoId(Ids(a)[k])) else Ok(())
  }

  /** `Agendamento._validar_ids`: scans the identifiers and stops at the
      first one that is falsy, has no `strip()`, or is blank. */
  method ValidarIds(ids: seq<Val>) returns (r: Result<(), Erro>)
    ensures r.Ok? <==> IdsPreenchidos(ids)
    ensures r.Err? ==> r.error == ErroDoId(ids[PrimeiroRecusado(ids)])
  {
    for i := 0 to |ids|
      invariant forall j :: 0 <= j < i ==> IdAceito(ids[j])
    {
      var v := ids[i];
      if !Truthy(v) || (v.VStr? && Blank(v.s)) {
        assert PrimeiroRecusado(ids) == i;
        return Err(IdVazio);
      }
      if !v.VStr? && !v.VIso? {
        assert PrimeiroRecusado(ids) == i;
        return Err(IdSemStrip);
      }
    }
    return Ok(());
  }

  class Agendamento {
    const id: Val
    const salaId: Val
    const profissionalId: Val
    const clienteId: Val
    const petId: Val
    const inicio: Instante
    const fim: Instante
    const tipoAtendimento: Val
    const observacoes: Val
    const criadoPor: Val
    var status: Val
    var criadoEm: Instante
    var canceladoPor: Val
    var canceladoEm: Option<Instante>

    function Args(): Argumentos {
      Argumentos(id, salaId, profissionalId, clienteId, petId, inicio, fim, tipoAtendimento, observacoes, criadoPor)
    }

    /** The whole state, as `to_dict` sees it. */
    function Estado(): Registro
      reads this
    {
      Registro(Args(), Controle(status, criadoEm, canceladoPor, canceladoEm))
    }

    /** The checked fields never change after construction. */
    ghost predicate Valid() {
      Validar(Args()).Ok?
    }

    constructor (a: Argumentos, agora: Instante)
      requires Validar(a).Ok?
      ensures Valid() && Estado() == Registro(a, Controle(VStr(StatusInicial), agora, VNull, None))
    {
      id := a.id;
      salaId := a.salaId;
      profissionalId := a.profissionalId;
      clienteId := a.clienteId;
      petId := a.petId;
      inicio := a.inicio;
      fim := a.fim;
      tipoAtendimento := a.tipoAtendimento;
      observacoes := a.observacoes;
      criadoPor := a.criadoPor;
      status := VStr(StatusInicial);
      criadoEm := agora;
      canceladoPor := VNull;
      canceladoEm := None;
    }

    /** `Agendamento.__init__`: rejects a start not before the end, then the
        first refused identifier; a new appointment is "AGENDADO", created
        `agora` (standing for `datetime.now()`), and not cancelled. */
    static method Criar(a: Argumentos, agora: Instante) returns (r: Result<Agendamento, Erro>)
      ensures r.Err? <==> Validar(a).Err?
      ensures r.Err? ==> r.error == Validar(a).error
      ensures r.Ok? ==> fresh(r.value) && r.value.Valid()
      ensures r.Ok? ==> r.value.Estado() == Registro(a, Controle(VStr(StatusInicial), agora, VNull, None))
    {
      if a.inicio >= a.fim {
        return Err(DatasInvalidas);
      }
      var ok := ValidarIds(Ids(a));
      if ok.Err? {
        return Err(ok.error);
      }
      var ag := new Agendamento(a, agora);
      return Ok(ag);
    }

    /** `Agendamento.from_dict`: constructs from the dict's arguments (so the
        constructor's checks apply), then overwrites the status and creation
        time, sets the canceller, and sets the cancellation time only when
        the dict holds a truthy one. */
    static method FromDict(d: Dict, agora: Instante) returns (r: Result<Agendamento, Erro>)
      ensures r.Ok? <==> LerDict(d).Ok?
      ensures r.Err? ==> r.error == LerDict(d).error
      ensures r.Ok? ==> fresh(r.value) && r.value.Valid() && r.value.Estado() == LerDict(d).value
    {
      var a := LerArgumentos(d);
      if a.Err? {
        return Err(a.error);
      }
      var criado := Criar(a.value, agora);
      if criado.Err? {
        return Err(criado.error);
      }
      var ag := criado.value;
      var status := LerValor(d, "status");
      if status.Err? {
        return Err(status.error);
      }
      ag.status := status.value;
      var criadoEm := LerInstante(d, "criado_em");
      if criadoEm.Err? {
        return Err(criadoEm.error);
      }
      ag.criadoEm := criadoEm.value;
      ag.canceladoPor := Get(d, "cancelado_por", VNull);
      if Truthy(Get(d, "cancelado_em", VNull)) {
        var canceladoEm := LerInstante(d, "cancelado_em");
        if canceladoEm.Err? {
          return Err(canceladoEm.error);
        }
        ag.canceladoEm := Some(canceladoEm.value);
      }
      return Ok(ag);
    }
  }

  function IsoOuNulo(t: Option<Instante>): Val {
    if t.Some? then VIso(t.value) else VNull
  }

  /** `Agendamento.to_dict`, on the appointment's state: the dates as ISO
      text, every other field as stored. */
  function ParaDict(r: Registro): (d: Dict)
    ensures d.Keys == {"id", "sala_id", "profissional_id", "cliente_id", "pet_id", "inicio", "fim",
                       "tipo_atendimento", "status", "observacoes", "criado_por", "criado_em",
                       "cancelado_por", "cancelado_em"}
    ensures d["inicio"] == VIso(r.args.inicio) && d["fim"] == VIso(r.args.fim)
    ensures d["criado_em"] == VIso(r.controle.criadoEm) && d["cancelado_em"] == IsoOuNulo(r.controle.canceladoEm)
  {
    var a, c := r.args, r.controle;
    map[
      "id" := a.id,
      "sala_id" := a.salaId,
      "profissional_id" := a.profissionalId,
      "cliente_id" := a.clienteId,
      "pet_id" := a.petId,
      "inicio" := VIso(a.inicio),
      "fim" := VIso(a.fim),
      "tipo_atendimento" := a.tipoAtendimento,
      "status" := c.status,
      "observacoes" := a.observacoes,
      "criado_por" := a.criadoPor,
      "criado_em" := VIso(c.criadoEm),
      "cancelado_por" := c.canceladoPor,
      "cancelado_em" := IsoOuNulo(c.canceladoEm)]
  }

  /** `data[k]`. */
  function LerValor(d: Dict, k: string): (r: Result<Val, Erro>)
    ensures r.Ok? <==> k in d
    ensures r.Ok? ==> r.value == d[k]
  {
    if k !in d then Err(ChaveAusente(k)) else Ok(d[k])
  }

  /** `datetime.fromisoformat(data[k])`. */
  function LerInstante(d: Dict, k: string): (r: Result<Instante, Erro>)
    ensures r.Ok? <==> k in d && d[k].VIso?
    ensures k !in d ==> r == Err(ChaveAusente(k))
  {
    if k !in d then Err(ChaveAusente(k))
    else if d[k].VIso? then Ok(d[k].t)
    else Err(IsoInvalido(k))
  }

  /** The constructor call in `from_dict`: its arguments are read in order;
      `observacoes` and `criado_por` default to `None`. */
  function LerArgumentos(d: Dict): (r: Result<Argumentos, Erro>)
    ensures r.Ok? <==> ChavesDosArgumentos <= d.Keys && d["inicio"].VIso? && d["fim"].VIso?
    ensures r.Ok? ==> r.value == Argumentos(d["id"], d["sala_id"], d["profissional_id"], d["cliente_id"], d["pet_id"],
                                            d["inicio"].t, d["fim"].t, d["tipo_atendimento"],
                                            Get(d, "observacoes", VNull), Get(d, "criado_por", VNull))
    ensures "id" !in d ==> r == Err(ChaveAusente("id"))
    ensures r.Err? ==> (r.error.ChaveAusente? && r.error.chave !in d)
                       || (r.error.IsoInvalido? && r.error.chave in d && !d[r.error.chave].VIso?)
  {
    var id :- LerValor(d, "id");
    var salaId :- LerValor(d, "sala_id");
    var profissionalId :- LerValor(d, "profissional_id");
    var clienteId :- LerValor(d, "cliente_id");
    var petId :- LerValor(d, "pet_id");
    var inicio :- LerInstante(d, "inicio");
    var fim :- LerInstante(d, "fim");
    var tipo :- LerValor(d, "tipo_atendimento");
    Ok(Argumentos(id, salaId, profissionalId, clienteId, petId, inicio, fim, tipo,
                  Get(d, "observacoes", VNull), Get(d, "criado_por", VNull)))
  }

  /** The control fields `from_dict` restores after construction. */
  function LerControle(d: Dict): (r: Result<Controle, Erro>)
    ensures r.Ok? <==> "status" in d && "criado_em" in d && d["criado_em"].VIso?
                       && (Truthy(Get(d, "cancelado_em", VNull)) ==> d["cancelado_em"].VIso?)
    ensures r.Ok? ==> r.value == Controle(d["status"], d["criado_em"].t, Get(d, "cancelado_por", VNull),
                                          if Truthy(Get(d, "cancelado_em", VNull)) then Some(d["cancelado_em"].t) else None)
    ensures "status" !in d ==> r == Err(ChaveAusente("status"))
  {
    var status :- LerValor(d, "status");
    var criadoEm :- LerInstante(d, "criado_em");
    var canceladoPor := Get(d, "cancelado_por", VNull);
    if Truthy(Get(d, "cancelado_em", VNull)) then
      var canceladoEm :- LerInstante(d, "cancelado_em");
      Ok(Controle(status, criadoEm, canceladoPor, Some(canceladoEm)))
    else
      Ok(Controle(status, criadoEm, canceladoPor, None))
  }

  /** What `from_dict` yields: the arguments, the constructor's checks, then
      the control fields. Whatever the dict holds for the unchecked fields is
      kept as it is. */
  function LerDict(d: Dict): (r: Result<Registro, Erro>)
    ensures r.Ok? ==> Validar(r.value.args).Ok?
    ensures r.Ok? ==> {"id", "sala_id", "profissional_id", "cliente_id", "pet_id", "inicio", "fim",
                       "tipo_atendimento", "status", "criado_em"} <= d.Keys
    ensures r.Ok? ==> Ids(r.value.args) == [d["id"], d["sala_id"], d["profissional_id"], d["cliente_id"], d["pet_id"]]
    ensures r.Ok? ==> r.value.args.tipoAtendimento == d["tipo_atendimento"] && r.value.controle.status == d["status"]
    ensures r.Ok? ==> r.value.args.observacoes == Get(d, "observacoes", VNull)
                      && r.value.args.criadoPor == Get(d, "criado_por", VNull)
                      && r.value.controle.canceladoPor == Get(d, "cancelado_por", VNull)
    ensures r.Ok? ==> (r.value.controle.canceladoEm.Some? <==> Truthy(Get(d, "cancelado_em", VNull)))
    ensures r.Ok? ==> d["inicio"] == VIso(r.value.args.inicio) && d["fim"] == VIso(r.value.args.fim)
                      && d["criado_em"] == VIso(r.value.controle.criadoEm)
    ensures r.Ok? && r.value.controle.canceladoEm.Some? ==> d["cancelado_em"] == VIso(r.value.controle.canceladoEm.value)
    ensures r.Ok? <==> LerArgumentos(d).Ok? && Validar(LerArgumentos(d).value).Ok? && LerControle(d).Ok?
    ensures LerArgumentos(d).Err? ==> r == Err(LerArgumentos(d).error)
    ensures LerArgumentos(d).Ok? && Validar(LerArgumentos(d).value).Err? ==> r == Err(Validar(LerArgumentos(d).value).error)
  {
    var a :- LerArgumentos(d);
    var _ :- Validar(a);
    var c :- LerControle(d);
    Ok(Registro(a, c))
  }

  /** When `from_dict` succeeds, in terms of the dict alone: the required
      keys are present, the dates are ISO text with the start before the
      end, no identifier is refused, and a truthy `cancelado_em` is ISO text. */
  lemma LerDictSucesso(d: Dict)
    ensures LerDict(d).Ok? <==>
              && ChavesDosArgumentos <= d.Keys && "status" in d && "criado_em" in d
              && d["inicio"].VIso? && d["fim"].VIso? && d["criado_em"].VIso?
              && d["inicio"].t < d["fim"].t
              && IdsPreenchidos([d["id"], d["sala_id"], d["profissional_id"], d["cliente_id"], d["pet_id"]])
              && (Truthy(Get(d, "cancelado_em", VNull)) ==> d["cancelado_em"].VIso?)
  {
    if LerArgumentos(d).Ok? {
      assert Ids(LerArgumentos(d).value) == [d["id"], d["sala_id"], d["profissional_id"], d["cliente_id"], d["pet_id"]];
    }
  }

  /** `from_dict(to_dict())` restores every field of a valid appointment,
      the cancellation fields included, whatever the clock says. */
  lemma DictRoundTrip(r: Registro)
    requires Validar(r.args).Ok?
    ensures LerDict(ParaDict(r)) == Ok(r)
  {
    ArgumentosDeParaDict(r);
    ControleDeParaDict(r);
  }

  /** The constructor arguments survive `to_dict`. */
  lemma ArgumentosDeParaDict(r: Registro)
    ensures LerArgumentos(ParaDict(r)) == Ok(r.args)
  {
    IdsDeParaDict(r);
    HorarioDeParaDict(r);
    OpcionaisDeParaDict(r);
  }

  lemma IdsDeParaDict(r: Registro)
    ensures var d := ParaDict(r);
            && LerValor(d, "id") == Ok(r.args.id) && LerValor(d, "sala_id") == Ok(r.args.salaId)
            && LerValor(d, "profissional_id") == Ok(r.args.profissionalId)
            && LerValor(d, "cliente_id") == Ok(r.args.clienteId) && LerValor(d, "pet_id") == Ok(r.args.petId)
  {
  }

  lemma HorarioDeParaDict(r: Registro)
    ensures var d := ParaDict(r);
            && LerInstante(d, "inicio") == Ok(r.args.inicio) && LerInstante(d, "fim") == Ok(r.args.fim)
            && LerValor(d, "tipo_atendimento") == Ok(r.args.tipoAtendimento)
  {
  }

  lemma OpcionaisDeParaDict(r: Registro)
    ensures var d := ParaDict(r);
            && Get(d, "observacoes", VNull) == r.args.observacoes
            && Get(d, "criado_por", VNull) == r.args.criadoPor
  {
  }

  /** The control fields survive `to_dict`. */
  lemma ControleDeParaDict(r: Registro)
    ensures LerControle(ParaDict(r)) == Ok(r.controle)
  {
  }
}
