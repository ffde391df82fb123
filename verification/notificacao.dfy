/** `models/notificacao.py`: a notification for a user, the checks and
    normalisation of its constructor, its read flag, its type queries, the
    message preview and its dict form. */
module Notificacoes {
  import opened Wrappers
  import opened Texto
  import opened Dicionario

  /** `TIPOS_VALIDOS`: the seven notification types. A stored type is always
      one of them, so it is kept as this enumeration and spelled by `Nome`. */
  datatype Tipo = Info | Aviso | Erro | Sucesso | Lembrete | Alerta | Sistema

  function Nome(t: Tipo): string {
    match t
    case Info => "info"
    case Aviso => "aviso"
    case Erro => "erro"
    case Sucesso => "sucesso"
    case Lembrete => "lembrete"
    case Alerta => "alerta"
    case Sistema => "sistema"
  }

  /** `tipo in TIPOS_VALIDOS`, answering which type; the names are told
      apart by length first. */
  function TipoDe(s: string): (r: Option<Tipo>)
    ensures r.Some? ==> Nome(r.value) == s
    ensures r.None? ==> forall t: Tipo :: Nome(t) != s
  {
    if |s| == 4 then
      if s == "info" then Some(Info) else if s == "erro" then Some(Erro) else None
    else if |s| == 5 then
      if s == "aviso" then Some(Aviso) else None
    else if |s| == 6 then
      if s == "alerta" then Some(Alerta) else None
    else if |s| == 7 then
      if s == "sucesso" then Some(Sucesso) else if s == "sistema" then Some(Sistema) else None
    else if |s| == 8 then
      if s == "lembrete" then Some(Lembrete) else None
    else None
  }

  /** Every type name is already trimmed and lower-cased. */
  lemma NomeNormal(t: Tipo)
    ensures Lower(Strip(Nome(t))) == Nome(t)
  {
    NormalDePalavra(Nome(t));
  }

  /** Two types have the same name only if they are the same type. */
  lemma MesmoNome(t: Tipo, u: Tipo)
    ensures Nome(t) == Nome(u) <==> t == u
  {
    TipoDeNome(t);
    TipoDeNome(u);
  }

  /** Looking a type's name up gives that type back. */
  lemma TipoDeNome(t: Tipo)
    ensures TipoDe(Nome(t)) == Some(t)
  {
  }

  datatype ErroNotificacao =
    | UsuarioNulo          // "usuario_id não pode ser None"
    | TipoVazio            // "Tipo não pode ser vazio"
    | TipoInvalido         // "Tipo inválido: …"
    | TituloVazio
    | MensagemVazia
    | CriadaEmInvalida     // "criada_em deve ser datetime ou None"
    | LidaNaoBooleana      // "lida deve ser um booleano"
    | CampoAusente(campo: string)   // from_dict: "Campo obrigatório ausente: …"
    | CampoNaoTexto(campo: string)

  /** The fields fixed at construction. */
  datatype Conteudo = Conteudo(
    notificacaoId: string,
    usuarioId: string,
    tipo: Tipo,
    titulo: string,
    mensagem: string,
    criadaEm: Instante)

  /** The normal form the constructor leaves them in. */
  predicate ConteudoValido(c: Conteudo) {
    && c.titulo != [] && Strip(c.titulo) == c.titulo
    && c.mensagem != [] && Strip(c.mensagem) == c.mensagem
  }

  /** The type check of `Notificacao.__init__`: a non-string counts as
      empty; otherwise it is trimmed, lower-cased and looked up. */
  function LerTipo(tipo: Dyn<string>): (r: Result<Tipo, ErroNotificacao>)
    ensures r.Ok? <==> tipo.Is? && TipoDe(Lower(Strip(tipo.val))).Some?
    ensures r.Ok? ==> Nome(r.value) == Lower(Strip(tipo.val))
    ensures !tipo.Is? || Blank(tipo.val) ==> r == Err(TipoVazio)
    ensures tipo.Is? && !Blank(tipo.val) && TipoDe(Lower(Strip(tipo.val))).None? ==> r == Err(TipoInvalido)
  {
    var t := if tipo.Is? then Lower(Strip(tipo.val)) else [];
    if t == [] then
      assert tipo.Is? ==> Blank(tipo.val) by {
        if tipo.Is? {
          assert |Lower(Strip(tipo.val))| == |Strip(tipo.val)|;
        }
      }
      Err(TipoVazio)
    else if TipoDe(t).None? then Err(TipoInvalido)
    else Ok(TipoDe(t).value)
  }

  /** The checks of `Notificacao.__init__` up to `criada_em`, in the
      source's order: a `None` user, then the type, then the title, the
      message and the creation time. The ids arrive already passed through
      `str()`; `novoId` stands for `str(uuid4())` and `agora` for
      `datetime.now(timezone.utc)`. */
  function NovoConteudo(usuarioId: Option<string>, tipo: Dyn<string>, titulo: string, mensagem: string,
                        notificacaoId: Option<string>, novoId: string, criadaEm: Dyn<Instante>, agora: Instante)
    : (r: Result<Conteudo, ErroNotificacao>)
    ensures r.Ok? <==> usuarioId.Some? && tipo.Is? && TipoDe(Lower(Strip(tipo.val))).Some?
                       && !Blank(titulo) && !Blank(mensagem) && !criadaEm.Other?
    ensures usuarioId.None? ==> r == Err(UsuarioNulo)
    ensures usuarioId.Some? && LerTipo(tipo).Err? ==> r == Err(LerTipo(tipo).error)
    ensures usuarioId.Some? && LerTipo(tipo).Ok? && Blank(titulo) ==> r == Err(TituloVazio)
    ensures usuarioId.Some? && LerTipo(tipo).Ok? && !Blank(titulo) && Blank(mensagem) ==> r == Err(MensagemVazia)
    ensures usuarioId.Some? && LerTipo(tipo).Ok? && !Blank(titulo) && !Blank(mensagem) && criadaEm.Other? ==>
              r == Err(CriadaEmInvalida)
    ensures r.Ok? ==> ConteudoValido(r.value)
    ensures r.Ok? ==> r.value.usuarioId == usuarioId.value && Nome(r.value.tipo) == Lower(Strip(tipo.val))
    ensures r.Ok? ==> LerTipo(tipo) == Ok(r.value.tipo)
    ensures r.Ok? ==> r.value.titulo == Strip(titulo) && r.value.mensagem == Strip(mensagem)
    ensures r.Ok? ==> NonSpace(r.value.mensagem) == NonSpace(mensagem)
    ensures r.Ok? ==> r.value.notificacaoId == (if notificacaoId.Some? then notificacaoId.value else novoId)
    ensures r.Ok? ==> r.value.criadaEm == (if criadaEm.Is? then criadaEm.val else agora)
  {
    if usuarioId.None? then Err(UsuarioNulo)
    else
      var t :- LerTipo(tipo);
      if Blank(titulo) then Err(TituloVazio)
      else if Blank(mensagem) then Err(MensagemVazia)
      else if criadaEm.Other? then Err(CriadaEmInvalida)
      else
        StripIdempotent(titulo);
        StripIdempotent(mensagem);
        StripKeepsNonSpace(mensagem);
        Ok(Conteudo(if notificacaoId.Some? then notificacaoId.value else novoId, usuarioId.value, t,
                    Strip(titulo), Strip(mensagem), if criadaEm.Is? then criadaEm.val else agora))
  }

  class Notificacao {
    const notificacaoId: string
    const usuarioId: string
    const tipo: Tipo
    const titulo: string
    const mensagem: string
    const criadaEm: Instante
    var lida: bool

    function Dados(): Conteudo {
      Conteudo(notificacaoId, usuarioId, tipo, titulo, mensagem, criadaEm)
    }

    ghost predicate Valid() {
      ConteudoValido(Dados())
    }

    constructor (c: Conteudo, lida: bool)
      requires ConteudoValido(c)
      ensures Valid() && Dados() == c && this.lida == lida
    {
      notificacaoId := c.notificacaoId;
      usuarioId := c.usuarioId;
      tipo := c.tipo;
      titulo := c.titulo;
      mensagem := c.mensagem;
      criadaEm := c.criadaEm;
      this.lida := lida;
    }

    /** `Notificacao.__init__`: the checks of `NovoConteudo`, then `lida`
        must be a boolean. */
    static method Criar(usuarioId: Option<string>, tipo: Dyn<string>, titulo: string, mensagem: string,
                        notificacaoId: Option<string>, novoId: string, criadaEm: Dyn<Instante>, agora: Instante,
                        lida: Dyn<bool>)
      returns (r: Result<Notificacao, ErroNotificacao>)
      ensures NovoConteudo(usuarioId, tipo, titulo, mensagem, notificacaoId, novoId, criadaEm, agora).Err? ==>
                r == Err(NovoConteudo(usuarioId, tipo, titulo, mensagem, notificacaoId, novoId, criadaEm, agora).error)
      ensures NovoConteudo(usuarioId, tipo, titulo, mensagem, notificacaoId, novoId, criadaEm, agora).Ok? ==>
                (r.Ok? <==> lida.Is?)
      ensures r.Err? && NovoConteudo(usuarioId, tipo, titulo, mensagem, notificacaoId, novoId, criadaEm, agora).Ok? ==>
                r == Err(LidaNaoBooleana)
      ensures r.Ok? ==> fresh(r.value) && r.value.Valid() && Is(r.value.lida) == lida
      ensures r.Ok? ==> Ok(r.value.Dados()) == NovoConteudo(usuarioId, tipo, titulo, mensagem, notificacaoId, novoId, criadaEm, agora)
    {
      var c := NovoConteudo(usuarioId, tipo, titulo, mensagem, notificacaoId, novoId, criadaEm, agora);
      if c.Err? {
        return Err(c.error);
      }
      if !lida.Is? {
        return Err(LidaNaoBooleana);
      }
      var n := new Notificacao(c.value, lida.val);
      return Ok(n);
    }

    /** `Notificacao.marcar_como_lida`; calling it again changes nothing. */
    method MarcarComoLida()
      modifies this`lida
      ensures lida
    {
      lida := true;
    }

    /** `Notificacao.marcar_como_nao_lida`. */
    method MarcarComoNaoLida()
      modifies this`lida
      ensures !lida
    {
      lida := false;
    }

    /** `Notificacao.is_lida`: the flag the two marking methods set. */
    function IsLida(): (b: bool)
      reads this
      ensures b == lida
    {
      lida
    }

    /** `Notificacao.is_nao_lida`: the negation of `is_lida`. */
    function IsNaoLida(): (b: bool)
      reads this
      ensures b != IsLida()
    {
      !lida
    }

    /** `Notificacao.is_tipo`: false for a non-string, otherwise compares
        with the argument trimmed and lower-cased. */
    predicate IsTipo(t: Dyn<string>) {
      t.Is? && Nome(tipo) == Lower(Strip(t.val))
    }

    /** `Notificacao.is_urgente`. */
    predicate IsUrgente() {
      tipo == Erro || tipo == Alerta
    }

    /** `Notificacao.get_preview`: the message itself when it fits in
        `maxChars`, else its first `maxChars` characters (Python slice
        semantics), right-trimmed, followed by "...". */
    function GetPreview(maxChars: int): (r: string)
      ensures |mensagem| <= maxChars ==> r == mensagem
      ensures |mensagem| > maxChars ==> |r| >= 3 && r[|r| - 3..] == "..." && r[..|r| - 3] <= mensagem
      ensures |mensagem| > maxChars ==> r[..|r| - 3] == [] || !IsSpace(r[|r| - 4])
      ensures |mensagem| > maxChars ==>
                && r[..|r| - 3] <= PrefixPy(mensagem, maxChars)
                && AllSpace(PrefixPy(mensagem, maxChars)[|r| - 3..])
      ensures maxChars >= 0 ==> |r| <= maxChars + 3
    {
      if |mensagem| <= maxChars then mensagem
      else
        var q := PrefixPy(mensagem, maxChars);
        var p := RStrip(q);
        assert (p + "...")[..|p|] == p;
        assert AllSpace(q[|p|..]) by {
          forall k | 0 <= k < |q| - |p| ensures IsSpace(q[|p|..][k]) {
            assert q[|p|..][k] == q[|p| + k];
          }
        }
        p + "..."
    }
  }

  /** `is_lida` and `is_nao_lida` always disagree. */
  lemma LidaComplementar(n: Notificacao)
    ensures n.IsLida() != n.IsNaoLida()
  {
  }

  /** A notification is of its own type under every spelling that trims and
      lower-cases to the type's name, and of no other type. */
  lemma IsTipoDoProprioTipo(n: Notificacao, t: string)
    ensures n.IsTipo(Is(Nome(n.tipo)))
    ensures n.IsTipo(Is(t)) <==> TipoDe(Lower(Strip(t))) == Some(n.tipo)
  {
    NomeNormal(n.tipo);
    TipoDeNome(n.tipo);
  }

  /** A notification is urgent exactly when it is of type "erro" or
      "alerta" in the sense of `is_tipo`. */
  lemma UrgenteSeErroOuAlerta(n: Notificacao)
    ensures n.IsUrgente() <==> n.IsTipo(Is("erro")) || n.IsTipo(Is("alerta"))
  {
    NomeNormal(Erro);
    NomeNormal(Alerta);
    MesmoNome(n.tipo, Erro);
    MesmoNome(n.tipo, Alerta);
  }

  /** `Notificacao.to_dict`, on the notification's state. */
  function ParaDict(c: Conteudo, lida: bool): (d: Dict)
    ensures d.Keys == {"notificacao_id", "usuario_id", "tipo", "titulo", "mensagem", "criada_em", "lida"}
  {
    map[
      "notificacao_id" := VStr(c.notificacaoId),
      "usuario_id" := VStr(c.usuarioId),
      "tipo" := VStr(Nome(c.tipo)),
      "titulo" := VStr(c.titulo),
      "mensagem" := VStr(c.mensagem),
      "criada_em" := VIso(c.criadaEm),
      "lida" := VBool(lida)]
  }

  /** An argument as `isinstance(…, str)` sees it. */
  function ComoTexto(v: Val): Dyn<string> {
    match v
    case VNull => Null
    case VStr(s) => Is(s)
    case _ => Other
  }

  function ComoBool(v: Val): Dyn<bool> {
    match v
    case VNull => Null
    case VBool(b) => Is(b)
    case _ => Other
  }

  /** `Notificacao.from_dict`: the four required keys must be present, in
      this order; a truthy `criada_em` must be an ISO timestamp; then the
      constructor runs on the dict's values: `str()` of the ids, the `None`
      user, the type (ISO text is never a type name), then the title and the
      message, where a falsy value is empty and any other non-string raises
      at its `strip()`; `lida` defaults to false. What it yields is the
      constructed content and read flag. */
  function LerDict(d: Dict, novoId: string, agora: Instante): (r: Result<(Conteudo, bool), ErroNotificacao>)
    ensures "usuario_id" !in d ==> r == Err(CampoAusente("usuario_id"))
    ensures ("usuario_id" in d && "tipo" in d && "titulo" in d && "mensagem" in d
             && !Truthy(Get(d, "criada_em", VNull)) && Get(d, "notificacao_id", VNull).VStr?
             && d["usuario_id"].VNull?) ==> r == Err(UsuarioNulo)
    ensures r.Ok? ==> "usuario_id" in d && "tipo" in d && "titulo" in d && "mensagem" in d
    ensures r.Ok? ==> d["titulo"].VStr? && d["mensagem"].VStr? && !d["usuario_id"].VNull?
    ensures r.Ok? ==> ConteudoValido(r.value.0) && r.value.0.titulo == Strip(d["titulo"].s)
    ensures "usuario_id" in d && "tipo" !in d ==> r == Err(CampoAusente("tipo"))
    ensures "usuario_id" in d && "tipo" in d && "titulo" !in d ==> r == Err(CampoAusente("titulo"))
    ensures "usuario_id" in d && "tipo" in d && "titulo" in d && "mensagem" !in d ==> r == Err(CampoAusente("mensagem"))
    ensures r.Ok? ==> r.value.0.mensagem == Strip(d["mensagem"].s)
    ensures r.Ok? ==> StrDe(d["usuario_id"]) == Some(r.value.0.usuarioId)
    ensures r.Ok? ==> d["tipo"].VStr? && LerTipo(Is(d["tipo"].s)) == Ok(r.value.0.tipo)
    ensures r.Ok? && Get(d, "notificacao_id", VNull).VNull? ==> r.value.0.notificacaoId == novoId
    ensures r.Ok? && !Get(d, "notificacao_id", VNull).VNull? ==>
              StrDe(Get(d, "notificacao_id", VNull)) == Some(r.value.0.notificacaoId)
    ensures r.Ok? && Get(d, "criada_em", VNull).VIso? ==> Get(d, "criada_em", VNull) == VIso(r.value.0.criadaEm)
    ensures r.Ok? && !Get(d, "criada_em", VNull).VIso? ==> r.value.0.criadaEm == agora
    ensures r.Ok? ==> Get(d, "lida", VBool(false)) == VBool(r.value.1)
  {
    if "usuario_id" !in d then Err(CampoAusente("usuario_id"))
    else if "tipo" !in d then Err(CampoAusente("tipo"))
    else if "titulo" !in d then Err(CampoAusente("titulo"))
    else if "mensagem" !in d then Err(CampoAusente("mensagem"))
    else LerPresentes(d, novoId, agora)
  }

  /** `from_dict` once the four required keys are known to be present. */
  function LerPresentes(d: Dict, novoId: string, agora: Instante): (r: Result<(Conteudo, bool), ErroNotificacao>)
    requires "usuario_id" in d && "tipo" in d && "titulo" in d && "mensagem" in d
    ensures (!Truthy(Get(d, "criada_em", VNull)) && Get(d, "notificacao_id", VNull).VStr?
             && d["usuario_id"].VNull?) ==> r == Err(UsuarioNulo)
    ensures r.Ok? ==> d["titulo"].VStr? && d["mensagem"].VStr? && !d["usuario_id"].VNull?
    ensures r.Ok? ==> ConteudoValido(r.value.0)
    ensures r.Ok? ==> r.value.0.titulo == Strip(d["titulo"].s) && r.value.0.mensagem == Strip(d["mensagem"].s)
    ensures r.Ok? ==> StrDe(d["usuario_id"]) == Some(r.value.0.usuarioId)
    ensures r.Ok? ==> d["tipo"].VStr? && LerTipo(Is(d["tipo"].s)) == Ok(r.value.0.tipo)
    ensures r.Ok? && Get(d, "notificacao_id", VNull).VNull? ==> r.value.0.notificacaoId == novoId
    ensures r.Ok? && !Get(d, "notificacao_id", VNull).VNull? ==>
              StrDe(Get(d, "notificacao_id", VNull)) == Some(r.value.0.notificacaoId)
    ensures r.Ok? && Get(d, "criada_em", VNull).VIso? ==> Get(d, "criada_em", VNull) == VIso(r.value.0.criadaEm)
    ensures r.Ok? && !Get(d, "criada_em", VNull).VIso? ==> r.value.0.criadaEm == agora
    ensures r.Ok? ==> Get(d, "lida", VBool(false)) == VBool(r.value.1)
  {
    var criadaEm := Get(d, "criada_em", VNull);
    var id := Get(d, "notificacao_id", VNull);
    var usuario := d["usuario_id"];
    if Truthy(criadaEm) && !criadaEm.VIso? then Err(CampoNaoTexto("criada_em"))
    else if !id.VNull? && StrDe(id).None? then Err(CampoNaoTexto("notificacao_id"))
    else if usuario.VNull? then Err(UsuarioNulo)
    else if StrDe(usuario).None? then Err(CampoNaoTexto("usuario_id"))
    else
      Construir(StrDe(usuario).value, d["tipo"], d["titulo"], d["mensagem"], Get(d, "lida", VBool(false)),
                if id.VNull? then None else StrDe(id), novoId,
                if criadaEm.VIso? then Is(criadaEm.t) else Null, agora)
  }

  /** The constructor call of `from_dict` once the ids have been through
      `str()`: the type (ISO text is never a type name), then the title and
      the message, where a falsy value is empty and any other non-string
      raises at its `strip()`, then the creation time and `lida`. */
  function Construir(usuarioId: string, tipo: Val, titulo: Val, mensagem: Val, lida: Val,
                     notificacaoId: Option<string>, novoId: string, criadaEm: Dyn<Instante>, agora: Instante)
    : (r: Result<(Conteudo, bool), ErroNotificacao>)
    ensures r.Ok? ==> titulo.VStr? && mensagem.VStr? && ConteudoValido(r.value.0)
    ensures r.Ok? ==> r.value.0.titulo == Strip(titulo.s) && r.value.0.mensagem == Strip(mensagem.s)
    ensures r.Ok? ==> Is(r.value.1) == ComoBool(lida) && lida == VBool(r.value.1)
    ensures r.Ok? ==> r.value.0.usuarioId == usuarioId && tipo.VStr? && LerTipo(Is(tipo.s)) == Ok(r.value.0.tipo)
    ensures r.Ok? ==> r.value.0.notificacaoId == (if notificacaoId.Some? then notificacaoId.value else novoId)
    ensures r.Ok? ==> r.value.0.criadaEm == (if criadaEm.Is? then criadaEm.val else agora)
  {
    if tipo.VIso? then Err(TipoInvalido)
    else
      var _ :- LerTipo(ComoTexto(tipo));
      var campoTitulo := LerCampo(titulo);
      var campoMensagem := LerCampo(mensagem);
      if campoTitulo.CampoVazio? then Err(TituloVazio)
      else if campoTitulo.SemStrip? then Err(CampoNaoTexto("titulo"))
      else if campoMensagem.CampoVazio? then Err(MensagemVazia)
      else if campoMensagem.SemStrip? then Err(CampoNaoTexto("mensagem"))
      else ConstruirComTextos(usuarioId, tipo, campoTitulo.texto, campoMensagem.texto, lida,
                              notificacaoId, novoId, criadaEm, agora)
  }

  /** The end of `Construir`, once title and message are non-blank texts:
      the constructor, then the `lida` flag. */
  function ConstruirComTextos(usuarioId: string, tipo: Val, titulo: string, mensagem: string, lida: Val,
                              notificacaoId: Option<string>, novoId: string, criadaEm: Dyn<Instante>, agora: Instante)
    : (r: Result<(Conteudo, bool), ErroNotificacao>)
    ensures r.Ok? ==> ConteudoValido(r.value.0)
    ensures r.Ok? ==> r.value.0.titulo == Strip(titulo) && r.value.0.mensagem == Strip(mensagem)
    ensures r.Ok? ==> Is(r.value.1) == ComoBool(lida) && lida == VBool(r.value.1)
    ensures r.Ok? ==> r.value.0.usuarioId == usuarioId && LerTipo(ComoTexto(tipo)) == Ok(r.value.0.tipo)
    ensures r.Ok? ==> r.value.0.notificacaoId == (if notificacaoId.Some? then notificacaoId.value else novoId)
    ensures r.Ok? ==> r.value.0.criadaEm == (if criadaEm.Is? then criadaEm.val else agora)
  {
    var c :- NovoConteudo(Some(usuarioId), ComoTexto(tipo), titulo, mensagem, notificacaoId, novoId, criadaEm, agora);
    match lida
    case VBool(l) => Ok((c, l))
    case _ => Err(LidaNaoBooleana)
  }


  /** `from_dict(to_dict())` gives back the same content and read flag. */
  lemma DictRoundTrip(c: Conteudo, lida: bool, novoId: string, agora: Instante)
    requires ConteudoValido(c)
    ensures LerDict(ParaDict(c, lida), novoId, agora) == Ok((c, lida))
  {
    ParaDictCampos(c, lida);
    LerDictDeCampos(ParaDict(c, lida), c, lida, novoId, agora);
  }

  /** The fields `to_dict` writes. */
  lemma ParaDictCampos(c: Conteudo, lida: bool)
    ensures var d := ParaDict(c, lida);
            && d["usuario_id"] == VStr(c.usuarioId) && d["tipo"] == VStr(Nome(c.tipo))
            && d["titulo"] == VStr(c.titulo) && d["mensagem"] == VStr(c.mensagem)
            && Get(d, "criada_em", VNull) == VIso(c.criadaEm)
            && Get(d, "notificacao_id", VNull) == VStr(c.notificacaoId)
            && Get(d, "lida", VBool(false)) == VBool(lida)
  {
  }

  /** A dictionary holding the fields of a normalised content is read back as it. */
  lemma LerDictDeCampos(d: Dict, c: Conteudo, lida: bool, novoId: string, agora: Instante)
    requires ConteudoValido(c)
    requires "usuario_id" in d && "tipo" in d && "titulo" in d && "mensagem" in d
    requires d["usuario_id"] == VStr(c.usuarioId) && d["tipo"] == VStr(Nome(c.tipo))
    requires d["titulo"] == VStr(c.titulo) && d["mensagem"] == VStr(c.mensagem)
    requires Get(d, "criada_em", VNull) == VIso(c.criadaEm)
    requires Get(d, "notificacao_id", VNull) == VStr(c.notificacaoId)
    requires Get(d, "lida", VBool(false)) == VBool(lida)
    ensures LerDict(d, novoId, agora) == Ok((c, lida))
  {
    assert StrDe(d["usuario_id"]) == Some(c.usuarioId);
    assert StrDe(Get(d, "notificacao_id", VNull)) == Some(c.notificacaoId);
    ConstruirDeValido(c, lida, novoId, agora);
  }

  /** The constructor call accepts the fields of a normalised content. */
  lemma ConstruirDeValido(c: Conteudo, lida: bool, novoId: string, agora: Instante)
    requires ConteudoValido(c)
    ensures Construir(c.usuarioId, VStr(Nome(c.tipo)), VStr(c.titulo), VStr(c.mensagem), VBool(lida),
                      Some(c.notificacaoId), novoId, Is(c.criadaEm), agora) == Ok((c, lida))
  {
    assert !Blank(c.titulo) && !Blank(c.mensagem);
    assert LerCampo(VStr(c.titulo)) == Preenchido(c.titulo);
    assert LerCampo(VStr(c.mensagem)) == Preenchido(c.mensagem);
    TiposDeValido(c);
    ConstruirPorTextos(c.usuarioId, VStr(Nome(c.tipo)), VStr(c.titulo), VStr(c.mensagem), c.titulo, c.mensagem,
                       VBool(lida), Some(c.notificacaoId), novoId, Is(c.criadaEm), agora);
    ConstruirComTextosDeValido(c, lida, novoId, agora);
  }

  /** Once the type reads and both fields are filled texts, `Construir` is
      its final step on those texts. */
  lemma ConstruirPorTextos(usuarioId: string, tipo: Val, titulo: Val, mensagem: Val, t: string, m: string, lida: Val,
                           notificacaoId: Option<string>, novoId: string, criadaEm: Dyn<Instante>, agora: Instante)
    requires !tipo.VIso? && LerTipo(ComoTexto(tipo)).Ok?
    requires LerCampo(titulo) == Preenchido(t) && LerCampo(mensagem) == Preenchido(m)
    ensures Construir(usuarioId, tipo, titulo, mensagem, lida, notificacaoId, novoId, criadaEm, agora)
            == ConstruirComTextos(usuarioId, tipo, t, m, lida, notificacaoId, novoId, criadaEm, agora)
  {
  }

  /** The type name of a normalised content reads back as its type. */
  lemma TiposDeValido(c: Conteudo)
    ensures LerTipo(ComoTexto(VStr(Nome(c.tipo)))) == Ok(c.tipo)
  {
    NomeNormal(c.tipo);
    TipoDeNome(c.tipo);
    assert ComoTexto(VStr(Nome(c.tipo))) == Is(Nome(c.tipo));
  }

  /** The end of the constructor call accepts a normalised content. */
  lemma ConstruirComTextosDeValido(c: Conteudo, lida: bool, novoId: string, agora: Instante)
    requires ConteudoValido(c)
    ensures ConstruirComTextos(c.usuarioId, VStr(Nome(c.tipo)), c.titulo, c.mensagem, VBool(lida),
                               Some(c.notificacaoId), novoId, Is(c.criadaEm), agora) == Ok((c, lida))
  {
    TiposDeValido(c);
    assert ComoTexto(VStr(Nome(c.tipo))) == Is(Nome(c.tipo));
    NovoConteudoDeValido(c, novoId, agora);
  }

  /** The constructor accepts a normalised content unchanged. */
  lemma NovoConteudoDeValido(c: Conteudo, novoId: string, agora: Instante)
    requires ConteudoValido(c)
    ensures NovoConteudo(Some(c.usuarioId), Is(Nome(c.tipo)), c.titulo, c.mensagem, Some(c.notificacaoId), novoId, Is(c.criadaEm), agora)
            == Ok(c)
  {
    assert !Blank(c.titulo) && !Blank(c.mensagem);
    NomeNormal(c.tipo);
    TipoDeNome(c.tipo);
  }
}
